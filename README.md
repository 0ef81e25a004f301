# Natal chart arithmetic

A Dafny model of the chart arithmetic of the chart-generator service
(`main.py`). It starts where the ephemeris has placed the ascendant and
the bodies. From there it builds the result the service returns:

- the ascendant, in its sign and always in house 1;
- one entry for each of the seven traditional planets, with sign, degree
  and whole-sign house, or an error entry when the ephemeris did not find
  the planet;
- the sect of the chart, as "day", "night" or an error marker;
- the Lots of Spirit and Fortune, each resolved to a sign, a degree and a
  house, or error entries when the Sun or the Moon is missing;
- the chart ruler, which is the traditional ruler of the ascendant's sign,
  placed like a planet or recorded as missing.

Modules, leaf first:

- `Wrappers` (wrappers.dfy): Option and Result.
- `Zodiac` (zodiac.dfy): the sign ring `ZODIAC_SIGNS`, the ruler table
  `SIGN_RULERS` and the seven bodies of `TRADITIONAL_PLANETS`. It also
  models the string operations the service applies to their names:
  `str.upper`, `str.title` and `list.index`.
- `Longitude` (longitude.dfy): Python's float `//` and `%` by 30 and by
  360, `to360`, and the split of a longitude into a sign index and a degree.
- `Houses` (houses.dfy): `get_whole_sign_house`.
- `Derived` (derived.dfy): the sect test and the two lot formulas.
- `Chart` (chart.dfy): the result entries, `GenerateChart` (the assembly
  in `generate_chart`) and worked charts.

Modelling choices:

- Longitudes are exact `real`s. Python's `%` and `//` are floor operations
  (`FloorMod`, `FloorDiv`), so a remainder is never negative.
- The ephemeris is an input `Ephemeris`: the ascendant's longitude and a map
  from each body it found to its longitude, all in [0, 360), as the
  ephemeris library reports them. A body missing from the map is a body
  `chart.get` did not find.
- The library names a body's sign in title case ("Aries"). This is
  `LibrarySign`, the sign at index `floor(lon / 30)`. The lots use the
  ring's upper-case names ("LIBRA"), as the code does.
- The results dictionary becomes the `ChartResult` datatype.
  `GenerateChart` builds it field by field. Its loop over the planets is
  the method `PlanetEntries`, which inserts one entry per planet into a map.
- The sect test is the one the code writes:
  `sun > asc and sun < (asc + 180) % 360`. It is not the rule
  `(sun - asc) mod 360 < 180`, and the two differ. When the ascendant is at 180 degrees or more, the
  code's bound wraps below the ascendant, so every such chart is a night
  chart (`NightWhenAscendantPastLibra`). Rotating all longitudes together
  can change the sect (`SectDependsOnAscendantPosition`).
- The lots use the same formulas by day and by night; the code has no
  night-time swap.
- Two failure paths cannot happen for these inputs, and the model proves
  so instead of modelling them: the `ValueError` from
  `get_whole_sign_house` inside the assembly (`HouseOfSignNames`), and the
  missing `SIGN_RULERS` key (`RulerName`, `RulerTableTotal`). The
  stand-alone `WholeSignHouse` does model the `ValueError` as an `Err`
  result.

## Model

| member | source | states |
|---|---|---|
| `Zodiac.BodyNamed` | main.py:145 | a library identifier names the body whose identifier it is, and None is returned only when no body has that identifier |
| `Zodiac.EveryBodyIsTraditional` | main.py:17 | every body of the model is one of `TRADITIONAL_PLANETS`, and its identifier looks it up again |
| `Zodiac.BodyIdRoundTrip` | main.py:17 | each body's library identifier (`BodyId`, as used by `chart.get` and the "not found" message) leads back to that body, so the seven identifiers are distinct |
| `Zodiac.Lower` | main.py:31-32 | lower-casing keeps the length, lower-cases each character and leaves no upper-case letter; it shows that `.upper()` ignores the case a name arrives in |
| `Zodiac.Upper` | main.py:31-32 | upper-casing keeps the length, upper-cases each character and leaves no lower-case letter |
| `Zodiac.Title` | main.py:145 | title-casing keeps the length; that it changes letter case only is `TitleKeepsLetters` |
| `Zodiac.UpperForgetsCase` | main.py:31-32 | upper-casing is idempotent, and lower-casing before it changes nothing |
| `Zodiac.TitleKeepsLetters` | main.py:145 | title-casing then upper-casing is the same as upper-casing |
| `Zodiac.IndexOf` | main.py:31-32 | `list.index` finds a name exactly when the name is in the list, and then at its first occurrence |
| `Zodiac.IndexOfUnique` | main.py:31-32 | in a list where one entry is unlike all the others, that entry is found at its own position |
| `Zodiac.SignsDistinct` | main.py:19-22 | the twelve ring names are pairwise different |
| `Zodiac.IndexOfSign` | main.py:19-22 | each ring name is found at its own index |
| `Zodiac.SignNamesUpper` | main.py:19-22 | the ring names are already upper case |
| `Zodiac.LibrarySign` | main.py:70 | the library's sign name, upper-cased, is found in the ring at the sign's own index |
| `Zodiac.RulerIds` | main.py:145 | title-casing each ruler name gives the library identifier of that planet |
| `Zodiac.RulerTableTotal` | main.py:24-28 | the ruler table has every sign as a key, and each ruler, title-cased, names one of the seven traditional planets |
| `Longitude.FloorDiv` | main.py:114 | `x // m` is the whole number `q` with `q <= x / m < q + 1` |
| `Longitude.FloorDivBounds` | main.py:114 | `x // m` is the largest whole number of divisors at or below `x` |
| `Longitude.FloorMod` | main.py:113 | `x % m` lies in [0, m), and quotient times divisor plus remainder gives `x` back |
| `Longitude.FloorDivUnique` | main.py:114-115 | any quotient whose remainder lies in [0, m) is the floor quotient, with the matching remainder |
| `Longitude.FloorModShift` | main.py:113 | adding whole multiples of the divisor leaves `x % m` unchanged |
| `Longitude.FloorModOfReduced` | main.py:113 | a value already in [0, m) is its own remainder, with quotient 0 |
| `Longitude.To360` | main.py:98 | `to360` leaves a non-negative longitude alone, brings [-360, 360) into [0, 360), and keeps the position on the circle |
| `Longitude.SignOf` | main.py:114 | `int(lon // 30)` is a sign index in 0..11 whose 30-degree span contains the longitude |
| `Longitude.DegreeInSign` | main.py:115 | `lon % 30` lies in [0, 30) |
| `Longitude.SignAndDegree` | main.py:114-115 | sign index times 30 plus the degree gives the longitude back |
| `Houses.HouseFromIndices` | main.py:33 | the house is in 1..12, and the planet's sign is the one `house - 1` places after the ascendant's sign |
| `Houses.WholeSignHouse` | main.py:30-34 | succeeds exactly when both names, upper-cased, are signs. Otherwise it fails on the ascendant's name first, then on the planet's. On success the house is in 1..12 and is `HouseFromIndices` of the two positions found in the ring, so it counts the places from the ascendant's sign to the planet's |
| `Houses.HouseCountsSteps` | main.py:33 | the house is `h` if and only if `h` is in 1..12 and the planet's sign lies `h - 1` places after the ascendant's |
| `Houses.HouseAfterSteps` | main.py:33 | a sign `k` places after the ascendant's sign gets house `k + 1`; the ascendant's own sign gets house 1 |
| `Houses.HouseRotationInvariant` | main.py:31-33 | turning both sign indices by the same amount around the ring leaves the house unchanged |
| `Houses.RingShift` | main.py:33 | whole turns of twelve do not change a ring position |
| `Houses.WholeSignHouseIgnoresCase` | main.py:31-32 | upper- or lower-casing either sign name does not change the result, error or house |
| `Houses.OwnSignIsFirstHouse` | main.py:30-34 | a body in the ascendant's sign, however either name is cased, is in house 1 |
| `Houses.HouseOfSignNames` | main.py:88 | for the library's and the ring's sign names the lookup never fails, and the house depends only on the two sign indices |
| `Derived.IsDay` | main.py:109 | the sect test as written; for a non-negative ascendant a day chart has the Sun less than 180 degrees past the ascendant |
| `Derived.SectAsWritten` | main.py:109 | for normalised longitudes the day test holds exactly when the ascendant is below 180 and the Sun lies strictly within the next 180 degrees |
| `Derived.NightWhenAscendantPastLibra` | main.py:109 | an ascendant at 180 degrees or more always gives night |
| `Derived.SectDependsOnAscendantPosition` | main.py:109 | Sun 90 degrees after the ascendant is day with the ascendant at 10 and night with it at 210 |
| `Derived.LotOfSpirit` | main.py:113 | the Lot of Spirit lies in [0, 360) and on the same point of the circle as asc + sun - moon |
| `Derived.LotOfFortune` | main.py:126 | the Lot of Fortune lies in [0, 360) and on the same point of the circle as asc + moon - sun |
| `Derived.LotsExchangeWithLights` | main.py:113-126 | swapping the Sun's and the Moon's longitudes swaps the two lots |
| `Derived.LotsMirrorAboutAscendant` | main.py:113-126 | the two lots add up to twice the ascendant, modulo 360 |
| `Chart.AscendantSign` | main.py:69-70 | the ascendant's sign name, upper-cased, is the ring sign containing its longitude |
| `Chart.PlaceBody` | main.py:84-93 | a found body gets a degree in [0, 30) and a house in 1..12. Sign index times 30 plus degree is its longitude, and its sign name is that sign. Its house counts the places from the ascendant's sign to its sign |
| `Chart.PlaceLot` | main.py:113-123 | the same for a lot, with the ring's upper-case sign name |
| `Chart.PlanetEntry` | main.py:84-95 | a planet is placed exactly when the ephemeris found it; otherwise its entry carries "<id> not found" |
| `Chart.SectOf` | main.py:103-110 | the sect is an error exactly when a light is missing, and day exactly when both are present, the ascendant is below 180 and the Sun lies within 180 degrees after it |
| `Chart.SpiritEntry` | main.py:112-140 | the Lot of Spirit is an error ("Missing Sun or Moon") exactly when a light is missing, and otherwise is the lot formula resolved to sign, degree and house |
| `Chart.FortuneEntry` | main.py:125-141 | the same for the Lot of Fortune |
| `Chart.RulerName` | main.py:144 | the ruler name is the table's entry for the ascendant's sign |
| `Chart.RulerBody` | main.py:145 | the ruling body is the one whose identifier is the title-cased ruler name |
| `Chart.RulerOf` | main.py:143-158 | the chart ruler is placed exactly when its body was found, under the upper-case ruler name; otherwise the entry reads "<NAME> not found in chart" |
| `Chart.PlanetEntries` | main.py:82-95 | after the loop every one of the seven planets has an entry, and each entry is that planet's own |
| `Chart.GenerateChart` | main.py:69-158 | the ascendant gets its degree, its sign and house 1. Every planet has its entry, and the sect, both lots and the chart ruler are the ones defined above |
| `Chart.MissingLightsMarkDerivedPoints` | main.py:83-141 | without the Sun or the Moon, the sect and both lots are error markers, while each planet is still placed exactly when found |
| `Chart.RulerAgreesWithPlanetEntry` | main.py:146-156 | a found chart ruler carries the same placement as that planet's own entry |
| `Chart.AscendantInAries` | main.py:144-145 | an ascendant below 30 degrees lies in Aries, whose ruler is MARS, the body Mars |
| `Chart.DayChartSect` | main.py:109-110 | ascendant 10, Sun 100, Moon 280 is a day chart |
| `Chart.LotAt190FromAries` | main.py:126-130 | a lot at 190 degrees with an Aries ascendant is LIBRA, degree 10, house 7 |
| `Chart.DayChartLots` | main.py:113-136 | in that chart both lots fall at LIBRA, degree 10, house 7 |
| `Chart.AriesRulerMissing` | main.py:143-158 | when the ascendant lies in Aries and Mars was not found, the ruler entry is the error "MARS not found in chart" |
| `Chart.WholeSignExample` | main.py:69-93 | ascendant 15 is Aries at degree 15; Mars at 95 is Cancer, degree 5, house 4, and is the chart ruler |

## Left out

- The HTTP route, request parsing and JSON response (main.py:36-44, 161-164): I/O.
- Geocoding the place name and looking up its timezone (main.py:46-60): network and library calls.
- Parsing and localising the date and time, and building the ephemeris chart with Placidus houses (main.py:58-67). The ephemeris result is an input.
- Longitudes outside [0, 360): the ephemeris library normalises what it reports, so `to360` never adds a turn in the assembly. It is still modelled, and proved, on any real.
- `round(..., 2)` on degrees: degrees are stated before rounding.
- Floating point: longitudes are exact reals, so float rounding in `+`, `-`, `//` and `%` is not captured. In particular, Python's float `%` returns exactly 360.0 for a tiny negative `asc + sun - moon` (such as `-5.55e-17 % 360`). `int(360.0 // 30)` is then 12, and `ZODIAC_SIGNS[12]` raises `IndexError` at main.py:116 and main.py:129. That crash is not reachable in the model: a lot always lies in [0, 360) (`PlaceLot`).
- Unicode case mapping: `Upper`, `Lower` and `Title` change ASCII letters only. Python would also map a few non-ASCII letters (such as the dotless i) onto ASCII sign names.
- Key order of the `planets` dictionary: a Dafny map has none. The loop visits the planets in `TRADITIONAL_PLANETS` order.
- `chart.get` for an identifier that is not a body: every ruler name title-cases to a body identifier, so this path is not reached.
