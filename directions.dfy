/** The four named headings of the plane and the degrees bound to each
    (`DirectionEnum`). The rover's live heading is a free integer; this table
    only supplies names and the builder's default. */
module Directions {
  import opened JavaInt

  /** The constants in declaration order. */
  datatype Direction = EAST | NORTH | SOUTH | WEST {

    /** `getDegrees`: the value each constant was declared with. */
    function Degrees(): (r: nat)
      ensures r < 360 && r % 90 == 0
    {
      match this
      case EAST => 0
      case NORTH => 90
      case SOUTH => 270
      case WEST => 180
    }

    /** `name()`: the constant's identifier. */
    function Name(): string
    {
      match this
      case EAST => "EAST"
      case NORTH => "NORTH"
      case SOUTH => "SOUTH"
      case WEST => "WEST"
    }

    /** `toString`, which ignores its receiver: every constant describes the
        whole table, one entry per constant in declaration order. */
    method ToString() returns (values: string)
      ensures values == Listing(Values)
    {
      values := "";
      for i := 0 to |Values|
        invariant values == Listing(Values[..i])
      {
        var value := Values[i];
        ListingSnoc(Values[..i], value);
        assert Values[..i] + [value] == Values[..i + 1];
        values := values + Entry(value);
      }
      assert Values[..|Values|] == Values;
    }
  }

  /** `DirectionEnum.values()`. */
  const Values: seq<Direction> := [EAST, NORTH, SOUTH, WEST]

  /** The text `toString` writes for one constant. */
  function Entry(d: Direction): string
  {
    d.Name() + " (" + NatString(d.Degrees()) + " degrees) "
  }

  /** An entry is the constant's name and " (", then a non-empty run of
      decimal digits without a leading zero that reads back as its degrees,
      then " degrees) ". */
  lemma EntryLayout(d: Direction)
    ensures var e, n := Entry(d), |d.Name()|;
      n + 13 <= |e| && e[..n + 2] == d.Name() + " (" && e[|e| - 10..] == " degrees) " &&
      IsDigits(e[n + 2..|e| - 10]) && ParseNat(e[n + 2..|e| - 10]) == d.Degrees() &&
      (e[n + 2] == '0' ==> d.Degrees() == 0)
  {
    var name, digits := d.Name(), NatString(d.Degrees());
    var e := name + " (" + digits + " degrees) ";
    assert Entry(d) == e;
    assert e[..|name| + 2] == name + " (";
    assert e[|e| - 10..] == " degrees) ";
    assert e[|name| + 2..|e| - 10] == digits;
    assert e[|name| + 2] == digits[0];
    ParseNatString(d.Degrees());
  }

  /** The entries of `ds`, concatenated in order. */
  function Listing(ds: seq<Direction>): string
  {
    if ds == [] then "" else Listing(ds[..|ds| - 1]) + Entry(ds[|ds| - 1])
  }

  /** Every constant appears in `values()` exactly once. */
  lemma ValuesEnumerateAll(d: Direction)
    ensures d in Values
    ensures forall i, j :: 0 <= i < j < |Values| ==> Values[i] != Values[j]
  {
  }

  /** The degree values tell the constants apart. */
  lemma DegreesDistinct(a: Direction, b: Direction)
    ensures a.Degrees() == b.Degrees() <==> a == b
  {
  }

  /** The names tell the constants apart too. */
  lemma NamesDistinct(a: Direction, b: Direction)
    ensures a.Name() == b.Name() <==> a == b
  {
  }

  /** Listing one more constant appends its entry. */
  lemma ListingSnoc(ds: seq<Direction>, d: Direction)
    ensures Listing(ds + [d]) == Listing(ds) + Entry(d)
  {
  }

  /** The entry of each constant: its name, then its degrees in decimal. */
  lemma EntryText()
    ensures Entry(EAST) == "EAST (0 degrees) "
    ensures Entry(NORTH) == "NORTH (90 degrees) "
    ensures Entry(SOUTH) == "SOUTH (270 degrees) "
    ensures Entry(WEST) == "WEST (180 degrees) "
  {
    DegreesText();
  }

  /** The decimal text of each constant's degrees. */
  lemma DegreesText()
    ensures NatString(EAST.Degrees()) == "0"
    ensures NatString(NORTH.Degrees()) == "90"
    ensures NatString(SOUTH.Degrees()) == "270"
    ensures NatString(WEST.Degrees()) == "180"
  {
  }

  /** `values()` lists the four entries in declaration order. */
  lemma ListingOfValues()
    ensures Listing(Values) == Entry(EAST) + Entry(NORTH) + Entry(SOUTH) + Entry(WEST)
  {
    var e, n, so, w := Entry(EAST), Entry(NORTH), Entry(SOUTH), Entry(WEST);
    assert Values[..1][..0] == [];
    assert Listing(Values[..1]) == e;
    assert Values[..2][..1] == Values[..1];
    assert Listing(Values[..2]) == e + n;
    assert Values[..3][..2] == Values[..2];
    assert Listing(Values[..3]) == e + n + so;
    assert Values[..3] == Values[..|Values| - 1];
  }

  /** The text every constant's `toString` returns. */
  lemma ListingText()
    ensures Listing(Values) ==
      "EAST (0 degrees) " + "NORTH (90 degrees) " + "SOUTH (270 degrees) " + "WEST (180 degrees) "
  {
    ListingOfValues();
    EntryText();
  }
}
