/**
 * The fixed tables of the chart service (the zodiac ring, the traditional
 * sign rulers and the seven traditional planets) and the small string
 * operations the service applies to their names: upper-casing, title-casing
 * and looking a name up in the ring.
 */
module Zodiac {
  import opened Wrappers

  /** The twelve signs in ring order, as the service spells them. */
  const ZodiacSigns: seq<string> := [
    "ARIES", "TAURUS", "GEMINI", "CANCER", "LEO", "VIRGO",
    "LIBRA", "SCORPIO", "SAGITTARIUS", "CAPRICORN", "AQUARIUS", "PISCES"
  ]

  /** Traditional ruler of each sign, keyed and valued by upper-case names. */
  const SignRulers: map<string, string> := map[
    "ARIES" := "MARS", "TAURUS" := "VENUS", "GEMINI" := "MERCURY", "CANCER" := "MOON",
    "LEO" := "SUN", "VIRGO" := "MERCURY", "LIBRA" := "VENUS", "SCORPIO" := "MARS",
    "SAGITTARIUS" := "JUPITER", "CAPRICORN" := "SATURN", "AQUARIUS" := "SATURN", "PISCES" := "JUPITER"
  ]

  /** A position in the ring of signs. */
  type SignIndex = i: int | 0 <= i < 12

  datatype Body = Sun | Moon | Mercury | Venus | Mars | Jupiter | Saturn

  /** The bodies the chart reports, in the order the service visits them. */
  const TraditionalPlanets: seq<Body> := [Sun, Moon, Mercury, Venus, Mars, Jupiter, Saturn]

  /** The identifier the ephemeris library uses for a body. */
  function BodyId(b: Body): string
  {
    match b
    case Sun => "Sun"
    case Moon => "Moon"
    case Mercury => "Mercury"
    case Venus => "Venus"
    case Mars => "Mars"
    case Jupiter => "Jupiter"
    case Saturn => "Saturn"
  }

  /** The body with library identifier `id`, if there is one. */
  function BodyNamed(id: string): (r: Option<Body>)
    ensures r.Some? ==> BodyId(r.value) == id
    ensures r.None? ==> forall b: Body :: BodyId(b) != id
  {
    if id == "Sun" then Some(Sun)
    else if id == "Moon" then Some(Moon)
    else if id == "Mercury" then Some(Mercury)
    else if id == "Venus" then Some(Venus)
    else if id == "Mars" then Some(Mars)
    else if id == "Jupiter" then Some(Jupiter)
    else if id == "Saturn" then Some(Saturn)
    else None
  }

  /** Every body's identifier leads back to that body, so no two bodies share one. */
  lemma BodyIdRoundTrip(b: Body)
    ensures BodyNamed(BodyId(b)) == Some(b)
  {
  }

  lemma EveryBodyIsTraditional(b: Body)
    ensures b in TraditionalPlanets
    ensures BodyNamed(BodyId(b)) == Some(b)
  {
  }

  // ---------------------------------------------------------------------
  // Letter case. Only ASCII letters change case; every other character is
  // left as it is.

  predicate IsLetter(c: char)
  {
    'a' <= c <= 'z' || 'A' <= c <= 'Z'
  }

  function UpperChar(c: char): char
  {
    if 'a' <= c <= 'z' then (c as int - 32) as char else c
  }

  function LowerChar(c: char): char
  {
    if 'A' <= c <= 'Z' then (c as int + 32) as char else c
  }

  /** `str.upper()`. */
  function Upper(s: string): (r: string)
    ensures |r| == |s|
    ensures forall i :: 0 <= i < |s| ==> r[i] == UpperChar(s[i]) && !('a' <= r[i] <= 'z')
  {
    seq(|s|, i requires 0 <= i < |s| => UpperChar(s[i]))
  }

  /** `str.lower()`. */
  function Lower(s: string): (r: string)
    ensures |r| == |s|
    ensures forall i :: 0 <= i < |s| ==> r[i] == LowerChar(s[i]) && !('A' <= r[i] <= 'Z')
  {
    seq(|s|, i requires 0 <= i < |s| => LowerChar(s[i]))
  }

  /**
   * One character of `str.title()`: a letter is lower-cased when the
   * character before it is a letter and upper-cased otherwise.
   */
  function TitleChar(s: string, i: nat): char
    requires i < |s|
  {
    if !IsLetter(s[i]) then s[i]
    else if i > 0 && IsLetter(s[i - 1]) then LowerChar(s[i])
    else UpperChar(s[i])
  }

  /** `str.title()`; it changes the case of letters and nothing else (`TitleKeepsLetters`). */
  function Title(s: string): (r: string)
    ensures |r| == |s|
  {
    seq(|s|, i requires 0 <= i < |s| => TitleChar(s, i))
  }

  lemma TitleKeepsLetters(s: string)
    ensures Upper(Title(s)) == Upper(s)
  {
  }

  /** Upper-casing is idempotent, and lower-casing first changes nothing it gives. */
  lemma UpperForgetsCase(s: string)
    ensures Upper(Upper(s)) == Upper(s)
    ensures Upper(Lower(s)) == Upper(s)
  {
  }

  // ---------------------------------------------------------------------
  // Looking a name up in a list: `list.index`, which raises when the name
  // is absent; the model answers None there.

  function IndexOf(xs: seq<string>, x: string): (r: Option<nat>)
    ensures r.Some? <==> x in xs
    ensures r.Some? ==> r.value < |xs| && xs[r.value] == x && x !in xs[..r.value]
  {
    if xs == [] then None
    else if xs[0] == x then Some(0)
    else match IndexOf(xs[1..], x)
      case None => None
      case Some(k) =>
        assert xs[..k + 1] == [xs[0]] + xs[1..][..k];
        Some(k + 1)
  }

  /** The twelve names of the ring are distinct, so each is found at its own position. */
  lemma IndexOfSign(i: SignIndex)
    ensures IndexOf(ZodiacSigns, ZodiacSigns[i]) == Some(i)
  {
    forall j | 0 <= j < 12 && j != i
      ensures ZodiacSigns[j] != ZodiacSigns[i]
    {
      SignsDistinct(j, i);
    }
    IndexOfUnique(ZodiacSigns, i);
  }

  lemma IndexOfUnique(xs: seq<string>, i: nat)
    requires i < |xs|
    requires forall j :: 0 <= j < |xs| && j != i ==> xs[j] != xs[i]
    ensures IndexOf(xs, xs[i]) == Some(i)
  {
  }

  lemma SignsDistinct(j: SignIndex, k: SignIndex)
    requires j != k
    ensures ZodiacSigns[j] != ZodiacSigns[k]
  {
    var a, b := ZodiacSigns[j], ZodiacSigns[k];
    assert |a| != |b| || a[0] != b[0] || a[1] != b[1];
  }

  /** The ring's names are already upper case. */
  lemma SignNamesUpper(i: SignIndex)
    ensures Upper(ZodiacSigns[i]) == ZodiacSigns[i]
  {
  }

  /**
   * The sign name the ephemeris library reports for the sign at index `i`:
   * the ring's name, title-cased ("Aries" for "ARIES").
   */
  function LibrarySign(i: SignIndex): (r: string)
    ensures IndexOf(ZodiacSigns, Upper(r)) == Some(i)
  {
    SignNamesUpper(i);
    IndexOfSign(i);
    TitleKeepsLetters(ZodiacSigns[i]);
    Title(ZodiacSigns[i])
  }

  /** The title-cased forms of the seven ruler names are the library's body identifiers. */
  lemma RulerIds()
    ensures Title("MARS") == "Mars" && Title("VENUS") == "Venus" && Title("MERCURY") == "Mercury"
    ensures Title("MOON") == "Moon" && Title("SUN") == "Sun" && Title("JUPITER") == "Jupiter"
    ensures Title("SATURN") == "Saturn"
  {
  }

  /**
   * The ruler table covers all twelve signs, and every ruler, title-cased as
   * the service does before asking the ephemeris, names a body; every body is
   * one of the seven traditional planets by its type (`EveryBodyIsTraditional`).
   */
  lemma RulerTableTotal(i: SignIndex)
    ensures ZodiacSigns[i] in SignRulers
    ensures BodyNamed(Title(SignRulers[ZodiacSigns[i]])).Some?
  {
    RulerIds();
  }
}
