/**
 * The points the service derives from the ascendant, Sun and Moon
 * longitudes: the sect of the chart and the Lots of Spirit and Fortune.
 */
module Derived {
  import opened Longitude

  /**
   * The sect test exactly as the service writes it:
   * `sun_lon > asc_lon and sun_lon < (asc_lon + 180) % 360`.
   */
  predicate IsDay(ascLon: real, sunLon: real)
    ensures 0.0 <= ascLon && IsDay(ascLon, sunLon) ==> sunLon < ascLon + 180.0
  {
    sunLon > ascLon && sunLon < FloorMod(ascLon + 180.0, Circle)
  }

  /**
   * For normalised longitudes the test means: the ascendant lies in the first
   * half of the circle and the Sun lies strictly within the 180 degrees that
   * follow it. When the ascendant is at 180 degrees or beyond, the upper bound
   * wraps below the ascendant and the chart is always a night chart.
   */
  lemma SectAsWritten(ascLon: Longitude, sunLon: Longitude)
    ensures IsDay(ascLon, sunLon) <==> ascLon < 180.0 && ascLon < sunLon < ascLon + 180.0
  {
    if ascLon < 180.0 {
      FloorModOfReduced(ascLon + 180.0, Circle);
    } else {
      FloorModShift(ascLon + 180.0 - 360.0, Circle, 1);
      FloorModOfReduced(ascLon + 180.0 - 360.0, Circle);
    }
  }

  lemma NightWhenAscendantPastLibra(ascLon: Longitude, sunLon: Longitude)
    requires ascLon >= 180.0
    ensures !IsDay(ascLon, sunLon)
  {
    SectAsWritten(ascLon, sunLon);
  }

  /**
   * Turning all longitudes by the same angle can change the sect: the test is
   * not a function of the Sun's distance from the ascendant alone.
   */
  lemma SectDependsOnAscendantPosition()
    ensures IsDay(10.0, 100.0)
    ensures !IsDay(210.0, 300.0)
  {
    SectAsWritten(10.0, 100.0);
    SectAsWritten(210.0, 300.0);
  }

  /** Lot of Spirit, `(asc + sun - moon) % 360`, the same formula by day and by night. */
  function LotOfSpirit(ascLon: real, sunLon: real, moonLon: real): (r: real)
    ensures 0.0 <= r < 360.0
    ensures FloorMod(r, Circle) == FloorMod(ascLon + sunLon - moonLon, Circle)
  {
    var r := FloorMod(ascLon + sunLon - moonLon, Circle);
    FloorModOfReduced(r, Circle);
    r
  }

  /** Lot of Fortune, `(asc + moon - sun) % 360`, the same formula by day and by night. */
  function LotOfFortune(ascLon: real, sunLon: real, moonLon: real): (r: real)
    ensures 0.0 <= r < 360.0
    ensures FloorMod(r, Circle) == FloorMod(ascLon + moonLon - sunLon, Circle)
  {
    var r := FloorMod(ascLon + moonLon - sunLon, Circle);
    FloorModOfReduced(r, Circle);
    r
  }

  /** Exchanging the Sun and the Moon exchanges the two lots. */
  lemma LotsExchangeWithLights(ascLon: real, sunLon: real, moonLon: real)
    ensures LotOfSpirit(ascLon, moonLon, sunLon) == LotOfFortune(ascLon, sunLon, moonLon)
    ensures LotOfFortune(ascLon, moonLon, sunLon) == LotOfSpirit(ascLon, sunLon, moonLon)
  {
  }

  /** The two lots lie symmetrically about the ascendant: their sum is twice it, modulo a circle. */
  lemma LotsMirrorAboutAscendant(ascLon: real, sunLon: real, moonLon: real)
    ensures FloorMod(LotOfSpirit(ascLon, sunLon, moonLon) + LotOfFortune(ascLon, sunLon, moonLon), Circle)
              == FloorMod(2.0 * ascLon, Circle)
  {
    var x, y := ascLon + sunLon - moonLon, ascLon + moonLon - sunLon;
    var i, j := FloorDiv(x, Circle), FloorDiv(y, Circle);
    assert LotOfSpirit(ascLon, sunLon, moonLon) + LotOfFortune(ascLon, sunLon, moonLon)
             == 2.0 * ascLon + (-(i + j)) as real * 360.0;
    FloorModShift(2.0 * ascLon, Circle, -(i + j));
  }
}
