/**
 * Assembly of the chart result: the ascendant, one entry per traditional
 * planet, the sect, the two lots and the chart ruler, each either placed in
 * a sign and house or marked as an error.
 */
module Chart {
  import opened Wrappers
  import opened Zodiac
  import opened Longitude
  import opened Houses
  import opened Derived

  /** What the ephemeris supplies: the ascendant and every body it could place. */
  datatype Ephemeris = Ephemeris(ascendant: Longitude, bodies: map<Body, Longitude>)

  /** The `degree`, `sign` and `house` of a point in the result. */
  datatype Placement = Placement(degree: real, sign: string, house: int)

  /** A point that was placed, or the message recorded in its place. */
  datatype Entry = Placed(at: Placement) | Failed(error: string)

  /** The `sect` field: "day", "night" or "error". */
  datatype Sect = Day | Night | SectError

  /** The `chart_ruler` field: the ruler's upper-case name and placement, or a message. */
  datatype RulerEntry = Ruler(planet: string, at: Placement) | RulerFailed(error: string)

  datatype ChartResult = ChartResult(
    ascendant: Placement,
    planets: map<Body, Entry>,
    sect: Sect,
    lotOfSpirit: Entry,
    lotOfFortune: Entry,
    chartRuler: RulerEntry)

  /** The message recorded for both lots when a light is missing. */
  const MissingLights := "Missing Sun or Moon"

  predicate HasLights(e: Ephemeris)
  {
    Sun in e.bodies && Moon in e.bodies
  }

  /** The ascendant's sign as the ephemeris names it. */
  function AscendantSign(e: Ephemeris): (s: string)
    ensures IndexOf(ZodiacSigns, Upper(s)) == Some(SignOf(e.ascendant))
  {
    LibrarySign(SignOf(e.ascendant))
  }

  /**
   * A body the ephemeris reports at `lon`: the library's name of its sign, its
   * degree within the sign and its whole-sign house from the ascendant.
   */
  function PlaceBody(e: Ephemeris, lon: Longitude): (p: Placement)
    ensures 0.0 <= p.degree < 30.0 && 1 <= p.house <= 12
    ensures SignOf(lon) as real * 30.0 + p.degree == lon
    ensures IndexOf(ZodiacSigns, Upper(p.sign)) == Some(SignOf(lon))
    ensures p.house == HouseFromIndices(SignOf(lon), SignOf(e.ascendant))
  {
    var sign := LibrarySign(SignOf(lon));
    HouseOfSignNames(SignOf(lon), SignOf(e.ascendant));
    Placement(DegreeInSign(lon), sign, WholeSignHouse(sign, AscendantSign(e)).value)
  }

  /**
   * A lot at `lon`: the ring's name of the sign at `int(lon // 30)`, the degree
   * `lon % 30` and the whole-sign house from the ascendant.
   */
  function PlaceLot(e: Ephemeris, lon: real): (p: Placement)
    requires 0.0 <= lon < 360.0
    ensures 0.0 <= p.degree < 30.0 && 1 <= p.house <= 12
    ensures SignOf(lon) as real * 30.0 + p.degree == lon
    ensures p.sign == ZodiacSigns[SignOf(lon)]
    ensures p.house == HouseFromIndices(SignOf(lon), SignOf(e.ascendant))
  {
    var sign := ZodiacSigns[SignOf(lon)];
    HouseOfSignNames(SignOf(lon), SignOf(e.ascendant));
    Placement(DegreeInSign(lon), sign, WholeSignHouse(sign, AscendantSign(e)).value)
  }

  /** The entry for one planet: placed when the ephemeris found it, an error otherwise. */
  function PlanetEntry(e: Ephemeris, b: Body): (r: Entry)
    ensures r.Placed? <==> b in e.bodies
    ensures r.Placed? ==> r.at == PlaceBody(e, e.bodies[b])
    ensures r.Failed? ==> r.error == BodyId(b) + " not found"
  {
    if b in e.bodies then Placed(PlaceBody(e, e.bodies[b])) else Failed(BodyId(b) + " not found")
  }

  /** The sect: an error without both lights, otherwise the written day test. */
  function SectOf(e: Ephemeris): (s: Sect)
    ensures s == SectError <==> !HasLights(e)
    ensures s == Day <==>
              HasLights(e) && e.ascendant < 180.0 && e.ascendant < e.bodies[Sun] < e.ascendant + 180.0
  {
    if HasLights(e) then
      SectAsWritten(e.ascendant, e.bodies[Sun]);
      if IsDay(To360(e.ascendant), To360(e.bodies[Sun])) then Day else Night
    else SectError
  }

  function SpiritEntry(e: Ephemeris): (r: Entry)
    ensures r.Failed? <==> !HasLights(e)
    ensures r.Failed? ==> r.error == MissingLights
    ensures r.Placed? ==>
              r.at == PlaceLot(e, LotOfSpirit(e.ascendant, e.bodies[Sun], e.bodies[Moon]))
  {
    if HasLights(e) then
      var lon := LotOfSpirit(To360(e.ascendant), To360(e.bodies[Sun]), To360(e.bodies[Moon]));
      Placed(PlaceLot(e, lon))
    else Failed(MissingLights)
  }

  function FortuneEntry(e: Ephemeris): (r: Entry)
    ensures r.Failed? <==> !HasLights(e)
    ensures r.Failed? ==> r.error == MissingLights
    ensures r.Placed? ==>
              r.at == PlaceLot(e, LotOfFortune(e.ascendant, e.bodies[Sun], e.bodies[Moon]))
  {
    if HasLights(e) then
      var lon := LotOfFortune(To360(e.ascendant), To360(e.bodies[Sun]), To360(e.bodies[Moon]));
      Placed(PlaceLot(e, lon))
    else Failed(MissingLights)
  }

  /** `SIGN_RULERS.get(asc_sign.upper())`: never missing, since the ascendant's sign is in the table. */
  function RulerName(e: Ephemeris): (name: string)
    ensures name == SignRulers[ZodiacSigns[SignOf(e.ascendant)]]
  {
    var i := SignOf(e.ascendant);
    SignNamesUpper(i);
    TitleKeepsLetters(ZodiacSigns[i]);
    RulerTableTotal(i);
    SignRulers[Upper(AscendantSign(e))]
  }

  /** The traditional planet that rules the ascendant's sign. */
  function RulerBody(e: Ephemeris): (b: Body)
    ensures BodyId(b) == Title(RulerName(e))
  {
    RulerTableTotal(SignOf(e.ascendant));
    BodyNamed(Title(RulerName(e))).value
  }

  /** The chart ruler: placed like a planet when the ephemeris found it, an error otherwise. */
  function RulerOf(e: Ephemeris): (r: RulerEntry)
    ensures r.Ruler? <==> RulerBody(e) in e.bodies
    ensures r.Ruler? ==> r.planet == RulerName(e) && r.at == PlaceBody(e, e.bodies[RulerBody(e)])
    ensures r.RulerFailed? ==> r.error == RulerName(e) + " not found in chart"
  {
    var b := RulerBody(e);
    if b in e.bodies then Ruler(RulerName(e), PlaceBody(e, e.bodies[b]))
    else RulerFailed(RulerName(e) + " not found in chart")
  }

  /**
   * The loop over `TRADITIONAL_PLANETS`: each planet gets an entry, in order,
   * whether or not the ephemeris found it.
   */
  method PlanetEntries(e: Ephemeris) returns (planets: map<Body, Entry>)
    ensures forall b: Body :: b in planets && planets[b] == PlanetEntry(e, b)
  {
    planets := map[];
    for i := 0 to |TraditionalPlanets|
      invariant forall j :: 0 <= j < i ==> TraditionalPlanets[j] in planets
      invariant forall b :: b in planets ==> planets[b] == PlanetEntry(e, b)
    {
      var planet := TraditionalPlanets[i];
      var entry;
      if planet in e.bodies {
        entry := Placed(PlaceBody(e, e.bodies[planet]));
      } else {
        entry := Failed(BodyId(planet) + " not found");
      }
      planets := planets[planet := entry];
    }
    forall b: Body ensures b in planets {
      EveryBodyIsTraditional(b);
    }
  }

  /**
   * `generate_chart` from the ephemeris onwards: builds the result field by
   * field, visiting the seven planets in order and recording an entry for
   * each, then the sect and lots (or their error markers), then the ruler.
   */
  method GenerateChart(e: Ephemeris) returns (r: ChartResult)
    ensures r.ascendant == Placement(DegreeInSign(e.ascendant), AscendantSign(e), 1)
    ensures forall b: Body :: b in r.planets && r.planets[b] == PlanetEntry(e, b)
    ensures r.sect == SectOf(e)
    ensures r.lotOfSpirit == SpiritEntry(e) && r.lotOfFortune == FortuneEntry(e)
    ensures r.chartRuler == RulerOf(e)
  {
    var ascSign := AscendantSign(e);
    var ascendant := Placement(DegreeInSign(e.ascendant), ascSign, 1);

    var planets := PlanetEntries(e);

    var sect: Sect;
    var spirit: Entry;
    var fortune: Entry;
    if Sun in e.bodies && Moon in e.bodies {
      var ascLon := To360(e.ascendant);
      var sunLon := To360(e.bodies[Sun]);
      var moonLon := To360(e.bodies[Moon]);
      sect := if IsDay(ascLon, sunLon) then Day else Night;
      spirit := Placed(PlaceLot(e, LotOfSpirit(ascLon, sunLon, moonLon)));
      fortune := Placed(PlaceLot(e, LotOfFortune(ascLon, sunLon, moonLon)));
    } else {
      sect := SectError;
      spirit := Failed(MissingLights);
      fortune := Failed(MissingLights);
    }

    var rulerName := RulerName(e);
    var ruler := BodyNamed(Title(rulerName));
    var chartRuler: RulerEntry;
    if ruler.Some? && ruler.value in e.bodies {
      chartRuler := Ruler(rulerName, PlaceBody(e, e.bodies[ruler.value]));
    } else {
      chartRuler := RulerFailed(rulerName + " not found in chart");
    }

    r := ChartResult(ascendant, planets, sect, spirit, fortune, chartRuler);
  }

  /**
   * Without the Sun or the Moon the sect and both lots are error markers,
   * while every planet still gets its own entry, placed exactly when found.
   */
  lemma MissingLightsMarkDerivedPoints(e: Ephemeris, b: Body)
    requires !HasLights(e)
    ensures SectOf(e) == SectError
    ensures SpiritEntry(e) == Failed(MissingLights) && FortuneEntry(e) == Failed(MissingLights)
    ensures PlanetEntry(e, b).Placed? <==> b in e.bodies
  {
  }

  /** When the ruling planet was found, the ruler entry repeats that planet's own entry. */
  lemma RulerAgreesWithPlanetEntry(e: Ephemeris)
    requires RulerBody(e) in e.bodies
    ensures RulerOf(e) == Ruler(RulerName(e), PlanetEntry(e, RulerBody(e)).at)
  {
  }

  /** Ascendant 10, Sun 100, Moon 280, and no other body found. */
  const DayChart := Ephemeris(10.0, map[Sun := 100.0, Moon := 280.0])

  lemma AscendantInAries(e: Ephemeris)
    requires e.ascendant < 30.0
    ensures SignOf(e.ascendant) == 0
    ensures RulerName(e) == "MARS" && RulerBody(e) == Mars
  {
    FloorDivUnique(e.ascendant, SignWidth, 0);
    RulerIds();
  }

  /** With these longitudes the chart is a day chart. */
  lemma DayChartSect()
    ensures SectOf(DayChart) == Day
  {
    SectAsWritten(10.0, 100.0);
  }

  /** 190 degrees is Libra 10, the seventh house from Aries. */
  lemma LotAt190FromAries(e: Ephemeris)
    requires e.ascendant < 30.0
    ensures PlaceLot(e, 190.0) == Placement(10.0, "LIBRA", 7)
  {
    AscendantInAries(e);
    FloorDivUnique(190.0, SignWidth, 6);
  }

  /** Both lots fall at 190 degrees. */
  lemma DayChartLots()
    ensures FortuneEntry(DayChart) == Placed(Placement(10.0, "LIBRA", 7))
    ensures SpiritEntry(DayChart) == Placed(Placement(10.0, "LIBRA", 7))
  {
    LotAt190FromAries(DayChart);
    assert LotOfFortune(10.0, 100.0, 280.0) == 190.0 by {
      FloorModOfReduced(190.0, Circle);
    }
    assert LotOfSpirit(10.0, 100.0, 280.0) == 190.0 by {
      FloorDivUnique(-170.0, Circle, -1);
    }
  }

  /** When Aries rises, Mars rules; if Mars was not found, the ruler entry says so. */
  lemma AriesRulerMissing(e: Ephemeris)
    requires e.ascendant < 30.0 && Mars !in e.bodies
    ensures RulerOf(e) == RulerFailed("MARS" + " not found in chart")
  {
    AscendantInAries(e);
  }

  /**
   * Ascendant 15 lies in Aries at 15 degrees; Mars at 95 lies in Cancer at
   * 5 degrees, in house 4, and as ruler of Aries it is the chart ruler.
   */
  lemma WholeSignExample()
    ensures var e := Ephemeris(15.0, map[Mars := 95.0]);
      && DegreeInSign(e.ascendant) == 15.0
      && PlanetEntry(e, Mars) == Placed(Placement(5.0, LibrarySign(3), 4))
      && RulerOf(e) == Ruler("MARS", Placement(5.0, LibrarySign(3), 4))
  {
    var e := Ephemeris(15.0, map[Mars := 95.0]);
    AscendantInAries(e);
    FloorDivUnique(95.0, SignWidth, 3);
    assert PlaceBody(e, 95.0) == Placement(5.0, LibrarySign(3), 4);
  }
}
