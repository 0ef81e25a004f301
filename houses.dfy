/**
 * Whole-sign house assignment: house 1 is the ascendant's sign, and every
 * further sign along the ring is the next house.
 */
module Houses {
  import opened Wrappers
  import opened Zodiac

  /**
   * `(planet_index - asc_index) % 12 + 1`, with Python's `%`, whose result
   * is never negative for a positive divisor (as is Dafny's). The house
   * counts how many signs the planet lies after the ascendant's sign.
   */
  function HouseFromIndices(planetIndex: SignIndex, ascIndex: SignIndex): (h: int)
    ensures 1 <= h <= 12
    ensures (ascIndex + h - 1) % 12 == planetIndex
  {
    (planetIndex - ascIndex) % 12 + 1
  }

  /** A sign name, in any case: found in the ring once upper-cased (equivalently, `Upper(name) in ZodiacSigns`). */
  predicate IsSignName(name: string)
  {
    IndexOf(ZodiacSigns, Upper(name)).Some?
  }

  /** The error `list.index` raises for a name missing from the ring. */
  datatype HouseError = NotInList(name: string)

  /**
   * `get_whole_sign_house`: both sign names are upper-cased and looked up in
   * the ring, the ascendant's first; a name that is not one of the twelve is
   * an error.
   */
  function WholeSignHouse(planetSign: string, ascSign: string): (r: Result<int, HouseError>)
    ensures r.Ok? <==> IsSignName(planetSign) && IsSignName(ascSign)
    ensures !IsSignName(ascSign) ==> r == Err(NotInList(Upper(ascSign)))
    ensures IsSignName(ascSign) && !IsSignName(planetSign) ==>
              r == Err(NotInList(Upper(planetSign)))
    ensures r.Ok? ==> 1 <= r.value <= 12
    ensures r.Ok? ==>
              r.value == HouseFromIndices(IndexOf(ZodiacSigns, Upper(planetSign)).value,
                                          IndexOf(ZodiacSigns, Upper(ascSign)).value)
  {
    match IndexOf(ZodiacSigns, Upper(ascSign))
    case None => Err(NotInList(Upper(ascSign)))
    case Some(ascIndex) =>
      match IndexOf(ZodiacSigns, Upper(planetSign))
      case None => Err(NotInList(Upper(planetSign)))
      case Some(planetIndex) =>
        Ok(HouseFromIndices(planetIndex, ascIndex))
  }

  /** House `h` is exactly the sign `h - 1` steps after the ascendant's sign. */
  lemma HouseCountsSteps(planetIndex: SignIndex, ascIndex: SignIndex, h: int)
    ensures HouseFromIndices(planetIndex, ascIndex) == h <==>
              1 <= h <= 12 && (ascIndex + h - 1) % 12 == planetIndex
  {
    if 1 <= h <= 12 && (ascIndex + h - 1) % 12 == planetIndex {
      var g := HouseFromIndices(planetIndex, ascIndex);
      assert (ascIndex + g - 1) % 12 == (ascIndex + h - 1) % 12;
    }
  }

  /** A sign `k` steps after the ascendant's sign is house `k + 1`; its own sign is house 1. */
  lemma HouseAfterSteps(ascIndex: SignIndex, k: nat)
    requires k < 12
    ensures HouseFromIndices((ascIndex + k) % 12, ascIndex) == k + 1
  {
    HouseCountsSteps((ascIndex + k) % 12, ascIndex, k + 1);
  }

  /** Turning both signs by the same number of places leaves the house unchanged. */
  lemma HouseRotationInvariant(planetIndex: SignIndex, ascIndex: SignIndex, turn: int)
    ensures HouseFromIndices((planetIndex + turn) % 12, (ascIndex + turn) % 12)
              == HouseFromIndices(planetIndex, ascIndex)
  {
    var p, a := (planetIndex + turn) % 12, (ascIndex + turn) % 12;
    var k := (planetIndex + turn) / 12 - (ascIndex + turn) / 12;
    assert p - a == planetIndex - ascIndex + 12 * -k;
    RingShift(planetIndex - ascIndex, -k);
  }

  /** Whole turns of the ring do not change a position on it. */
  lemma RingShift(x: int, k: int)
    ensures (x + 12 * k) % 12 == x % 12
  {
    var q := x / 12;
    assert x + 12 * k == 12 * (q + k) + x % 12;
  }

  /** Sign names are compared without regard to case. */
  lemma WholeSignHouseIgnoresCase(planetSign: string, ascSign: string)
    ensures WholeSignHouse(Lower(planetSign), ascSign) == WholeSignHouse(planetSign, ascSign)
    ensures WholeSignHouse(Upper(planetSign), ascSign) == WholeSignHouse(planetSign, ascSign)
    ensures WholeSignHouse(planetSign, Lower(ascSign)) == WholeSignHouse(planetSign, ascSign)
    ensures WholeSignHouse(planetSign, Upper(ascSign)) == WholeSignHouse(planetSign, ascSign)
  {
    UpperForgetsCase(planetSign);
    UpperForgetsCase(ascSign);
  }

  /** A body in the ascendant's own sign, however either name is cased, is in house 1. */
  lemma OwnSignIsFirstHouse(planetSign: string, ascSign: string)
    requires Upper(planetSign) == Upper(ascSign) && IsSignName(ascSign)
    ensures WholeSignHouse(planetSign, ascSign) == Ok(1)
  {
    var k := IndexOf(ZodiacSigns, Upper(ascSign)).value;
    assert HouseFromIndices(k, k) == 1;
  }

  /**
   * For the names the ring and the ephemeris library use, the lookup always
   * succeeds and the house depends only on the two sign indices.
   */
  lemma HouseOfSignNames(planetIndex: SignIndex, ascIndex: SignIndex)
    ensures WholeSignHouse(LibrarySign(planetIndex), LibrarySign(ascIndex))
              == Ok(HouseFromIndices(planetIndex, ascIndex))
    ensures WholeSignHouse(ZodiacSigns[planetIndex], LibrarySign(ascIndex))
              == Ok(HouseFromIndices(planetIndex, ascIndex))
  {
    SignNamesUpper(planetIndex);
    IndexOfSign(planetIndex);
  }
}
