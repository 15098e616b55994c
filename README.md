# flight-site logbook core, in Dafny

This project models the logbook core of the flight-site pilot-profile app. The app shows pilots their logbook statistics on a public profile page. The model covers:

- **The aggregate pipeline.** It is written three times: in the demo-data generator (`scripts/generate-demo-data.mjs`), on the demo profile page (`src/app/p/demo/page.tsx`) and in the LogTen export script (`scripts/export-logten.mjs`). It computes:
  - the per-day heatmap, the monthly series and the undirected route buckets;
  - the all-time and 90-day totals;
  - the day, night and instrument currency verdicts, over a rolling 90-day window and over the six calendar months before the current one;
  - the fun-fact candidates, and the demo page's six-month flight filter.
- **The demo-data generator's flight synthesis.** `pickRoute` and `generateFlights` run over an abstract stream of random draws.
- **`selectFunFacts`.** Priority facts come first; the remaining slots are filled by score.
- **The pilot-page widgets.** These are the calendar heatmap grid (`Heatmap.tsx`), the currency cards (`CurrencyCards.tsx`) and the data side of the route map (`FlightsMap.tsx`), which covers route features, quantile-based line widths and first-appearance airport points.
- **The LogTen TSV import route.** It finds the header, indexes the columns, selects the flight lines, parses each row and guards the job state.
- **The profile-handle slugifier** (`src/app/api/private/me/route.ts`).
- **The airport-index builder** (`scripts/build-airport-index.mjs`). It has a minimal CSV parser and a first-wins code index.

Modules follow these pieces:

- `Dates`, `Flights`, `Aggregate`, `Streak` and `Facts` model the pipeline.
- `FunFacts`, `HeatmapGrid`, `CurrencyCards` and `FlightsMap` model the components.
- `DemoData`, `TsvImport`, `Slug` and `AirportIndex` model the scripts and routes.
- `Wrappers`, `Seqs`, `Groups`, `Strings` and `Reals` hold generic sequence, map, string and real-number facts.

The representation choices:

- Dates are day numbers counted from 1970-01-01 UTC. A month is the index 12 · year + month − 1, so a `YYYY-MM-DD` string, its UTC midnight and its `YYYY-MM` key are all integers.
- Logbook hours are integer tenths. Every source value has one decimal, so `+x.toFixed(1)` on a sum changes nothing.
- A JavaScript `Map` or `Set` filled in a loop becomes a Dafny `map`, plus the sequence of its keys in insertion order.
- Loops of the source are `method`s with loop invariants. Each is proved equal to a specification function, and the properties are proved about that function.
- The map component is a `class`. Its fields are the two vector sources and the quantile ref, and `ShowRoutes` updates them.
- The random generator is a `class` whose `Next` advances a counter into a fixed stream of draws.

Three behaviours of the code a reader might not expect, which the model keeps:

- The `landings` total sums the `landings` column. It is not the sum of day and night landings (`LandingsColumnIsSummed`).
- The 90-day window has no upper bound: a flight dated after today is counted.
- The demo page has no airport-count fact.

## Model

| member | source | states |
|---|---|---|
| Dates.MonthStep | src/app/p/demo/page.tsx:115-117 | the first days of consecutive months are exactly one month length (28 to 31 days, Gregorian leap rule) apart, which is how `Date.UTC(y, m - 6, 1)` normalises a month index |
| Dates.MonthStartMonotone | src/app/p/demo/page.tsx:115-117 | a later month index starts at least 28 days per month later |
| Dates.MonthOf | src/app/p/demo/page.tsx:64 | the month of a day (its `YYYY-MM` key) is the month whose first day is on or before it and whose successor starts after it |
| Dates.MonthOfUnique | src/app/p/demo/page.tsx:64 | a day lies in exactly one month |
| Dates.MonthOfMonthStart | src/app/p/demo/page.tsx:115-118 | the first day of month m belongs to month m |
| Dates.MonthSpan | src/app/p/demo/page.tsx:121-124 | a day is in [first of month a, first of month b) iff its month is in [a, b) |
| Dates.MonthStartAtMost | src/app/p/demo/page.tsx:386-389 | a day is on or after the first of month a iff its month is a or later |
| Dates.StartOfWeek | src/components/pilot/Heatmap.tsx:32-37 | `getStartOfWeek`: the result is a Sunday, on or before the date and less than a week before it |
| Dates.WeekdayAddWeeks | src/components/pilot/Heatmap.tsx:68-71 | whole weeks after a Sunday are Sundays |
| Flights.TotalsAppend | scripts/generate-demo-data.mjs:305-320 | every field total is additive over a split of the log |
| Flights.TotalsSingle | scripts/export-logten.mjs:115-117 | one flight contributes its own columns; the `landings` total is the `landings` column; `sic` exists only on the demo page |
| Flights.LandingsColumnIsSummed | scripts/export-logten.mjs:115-117 | a row with `landings` 1 and day + night landings 2 contributes 1 to `landings` |
| Flights.Last90 | scripts/export-logten.mjs:99-103 | `last90Flights` holds exactly the flights dated on or after the cutoff, with no upper bound |
| Flights.Last6CalMo | scripts/export-logten.mjs:142-152 | `last6CalMoFlights` holds exactly the flights whose month is one of the six months before the current one |
| Flights.SixCalendarMonthsByMonth | scripts/export-logten.mjs:149-152 | the date test `start <= d < startOfThisMonth` is the month test month(today) - 6 <= month(d) < month(today) |
| Flights.DemoCutoffBoundary | src/app/p/demo/page.tsx:114-120 | on the demo page a flight dated exactly today - 90 is in the 90-day window, and one dated today - 91 is not |
| Flights.SixMonthWindowExcludesThisMonth | src/app/p/demo/page.tsx:115-124 | no flight of the current month or later is in the instrument window |
| Flights.SixMonthWindowStart | src/app/p/demo/page.tsx:115-118 | the window starts on the first day of month(today) - 6 and ends before the first day of the current month, which is not after today |
| Flights.CarryOf | scripts/generate-demo-data.mjs:364 | `Math.min(takeoffs, landings) >= 3` holds iff both counts are at least 3 |
| Flights.CurrencyOf | scripts/generate-demo-data.mjs:339-378 | day and night `meetsPassengerCarry` iff takeoffs >= 3 and landings >= 3 over the flights dated on or after the variant's cutoff; `meetsTrackedItems` iff approaches >= 6 and holds >= 1 over the six-month window; the window bounds reported |
| Flights.DemoWindow | src/app/p/demo/page.tsx:381-389 | `DemoProfilePage` keeps exactly the flights from the first of month(today) - 5 through today, both inclusive |
| Flights.DemoSpanByMonth | src/app/p/demo/page.tsx:384-389 | the page's date test is the month test month(d) >= month(today) - 5 and d <= today |
| Flights.ExportRoutes | scripts/export-logten.mjs:212-222 | every exported route is the route of an input flight with four truthy coordinates |
| Flights.ExportRoutesAppend | scripts/export-logten.mjs:212-222 | `filter` then `map` keeps input order: the routes of a + b are those of a followed by those of b |
| Flights.ExportRouteSingle | scripts/export-logten.mjs:213 | one flight yields one route iff all four coordinates are truthy; a latitude of exactly 0 drops it |
| Flights.ExportRoutesCount | scripts/export-logten.mjs:212-213 | there are exactly as many routes as flights with truthy coordinates |
| CurrencyCards.Cards | src/components/pilot/CurrencyCards.tsx:25-51 | three cards in display order; day and night figures are the landing sums over flights dated on or after `window90Start` (null as 0); IFR is the `ifr` sum from `window180Start`; day and night are current iff the count is >= 3; IFR iff the hours are > 0 |
| CurrencyCards.CountSnoc | src/components/pilot/CurrencyCards.tsx:25-33 | one more flight adds its figures (null as 0) exactly when it is inside the window, however far in the future |
| CurrencyCards.CardsSnoc | src/components/pilot/CurrencyCards.tsx:26-48 | a flight before both windows changes no card; a flight with no negative figure never turns a current card stale |
| CurrencyCards.AllInWindow | src/components/pilot/CurrencyCards.tsx:25-30 | with every flight in the window the counts are the plain sums |
| Aggregate.DayBuckets | scripts/generate-demo-data.mjs:278-284 | one entry per date asked for, each holding that date's hours and flight count |
| Aggregate.BuildHeatmap | scripts/generate-demo-data.mjs:276-287 | the `dayMap` loop and the sort compute the heatmap `Heatmap` defines |
| Aggregate.FillDayMap | scripts/generate-demo-data.mjs:278-284 | the loop leaves the dates in first-appearance order, each mapped to its day total |
| Aggregate.DayValues | scripts/generate-demo-data.mjs:285 | `[...dayMap.values()]` lists the day totals in the order dates first appear |
| Aggregate.DayTotalsStep | scripts/generate-demo-data.mjs:280-283 | one more flight adds its hours and one flight to its date's entry and leaves every other entry alone |
| Aggregate.DayBucketsSums | scripts/generate-demo-data.mjs:278-284 | the entries' flight counts and hours add up per date |
| Aggregate.HeatmapShape | src/app/p/demo/page.tsx:51-59 | the heatmap is strictly sorted by date (one entry per date), and its entries are exactly the day totals of the dates flown |
| Aggregate.DayBucketsCover | scripts/export-logten.mjs:85-96 | before sorting, the entries are exactly the day totals of the dates flown |
| Aggregate.HeatmapTotals | scripts/export-logten.mjs:85-96 | the entries' flight counts add up to the number of flights, and their hours to the total hours |
| Aggregate.HeatmapCountsPositive | scripts/export-logten.mjs:85-96 | every entry counts at least one flight |
| Aggregate.MonthBuckets | scripts/generate-demo-data.mjs:381-385 | one entry per month asked for, holding that month's hours |
| Aggregate.BuildMonthly | scripts/generate-demo-data.mjs:380-388 | the `monthlyMap` loop and the sort compute the series `Monthly` defines |
| Aggregate.MonthEntries | scripts/generate-demo-data.mjs:386 | `[...monthlyMap.entries()]` lists each key with its sum, in key order |
| Aggregate.MonthValues | scripts/generate-demo-data.mjs:382-386 | after the loop the keys are the months flown in first-appearance order, each with its hours |
| Aggregate.MonthBucketsSum | scripts/export-logten.mjs:202-209 | the month entries' hours add up per month |
| Aggregate.MonthlyShape | src/app/p/demo/page.tsx:61-69 | the series is strictly sorted by month, and its entries are exactly the month totals of the months flown |
| Aggregate.MonthBucketsCover | src/app/p/demo/page.tsx:61-66 | before sorting, the entries are exactly the month totals of the months flown |
| Aggregate.MonthlyTotal | scripts/export-logten.mjs:202-209 | the monthly hours add up to the total hours |
| Aggregate.SortPair | scripts/generate-demo-data.mjs:396 | the pair holds the same two endpoints, the smaller code first |
| Aggregate.RouteBuckets | scripts/generate-demo-data.mjs:391-401 | one bucket per key asked for: the first flight's endpoints with that key, and the key's count |
| Aggregate.BuildRoutes | scripts/generate-demo-data.mjs:390-402 | the `routeMap` loop computes the buckets `Routes` defines, in first-appearance order |
| Aggregate.RouteStep | src/app/p/demo/page.tsx:76-90 | one more kept flight increments an existing bucket or adds a new bucket with count 1 |
| Aggregate.RouteValues | src/app/p/demo/page.tsx:91 | `[...routeMap.values()]` lists the buckets in the order keys first appear |
| Aggregate.BucketsStep | scripts/generate-demo-data.mjs:398-400 | one more kept flight keeps every bucket equal to its specification |
| Aggregate.BucketSnocOld | scripts/generate-demo-data.mjs:399 | an existing key's bucket gains one count and keeps its endpoints |
| Aggregate.BucketSnocNew | scripts/generate-demo-data.mjs:400 | a new key's bucket is the flight's leg with count 1 |
| Aggregate.RouteBucketsSum | scripts/generate-demo-data.mjs:391-401 | the buckets' counts add up per key |
| Aggregate.RoutesCountSum | src/app/p/demo/page.tsx:71-91 | the route counts add up to the number of kept flights |
| Aggregate.RoutesBuckets | src/app/p/demo/page.tsx:71-91 | the route keys are distinct, and each route carries the endpoints and month of the first kept flight with its key and that key's count |
| Aggregate.RouteBucketFirst | src/app/p/demo/page.tsx:82-89 | a bucket has its own key and comes from the first flight with it |
| Aggregate.RoutesSkip | scripts/generate-demo-data.mjs:395 | a skipped flight changes no bucket |
| Aggregate.SortPairSymmetric | scripts/generate-demo-data.mjs:396-397 | two different codes in either order give the same pair of codes |
| Aggregate.DemoRouteUndirected | src/app/p/demo/page.tsx:75-79 | on the demo page a flight and its return flight share one route |
| Aggregate.GeneratorRouteUndirected | scripts/generate-demo-data.mjs:393-397 | in the generator a flight and its return flight share one route |
| Aggregate.DemoRoutesSkip | src/app/p/demo/page.tsx:75 | a flight with an empty code or the same code at both ends adds no route |
| Aggregate.GeneratorRoutesSkip | scripts/generate-demo-data.mjs:395 | a flight with an airport missing from the index, or the same airport at both ends, adds no route |
| Aggregate.RoutesOrdered | scripts/generate-demo-data.mjs:396-401 | when every kept leg is ordered with distinct ends, so is every route |
| Aggregate.DemoRoutesOrdered | src/app/p/demo/page.tsx:71-91 | every demo route's from code sorts before its to code, and the two differ |
| Aggregate.GeneratorRoutesOrdered | scripts/generate-demo-data.mjs:390-402 | every generated route's from code sorts before its to code, and the two differ |
| Streak.RunLen | scripts/generate-demo-data.mjs:259-271 | the run length tracked at position i is between 1 and i + 1 |
| Streak.RunLenIsRun | scripts/generate-demo-data.mjs:263-270 | the tracked run at i is consecutive days and cannot be extended to the left |
| Streak.RunLenMaximal | scripts/generate-demo-data.mjs:263-270 | no run of consecutive days ending at i is longer than the tracked one |
| Streak.RunSpan | scripts/generate-demo-data.mjs:262-263 | a consecutive run spans exactly its length minus one days |
| Streak.BestEnd | scripts/generate-demo-data.mjs:265-267 | the best run ends at the first position whose run is longest, because only a strictly longer run replaces it |
| Streak.LongestConsecutiveStreak | scripts/generate-demo-data.mjs:253-274 | the function, with its sort and loop, computes `Longest` |
| Streak.LongestRun | src/app/p/demo/page.tsx:316-347 | the loop over the sorted days leaves the run ending at `BestEnd` as the best streak |
| Streak.LongestBounds | scripts/generate-demo-data.mjs:254 | length 0 with null ends iff there are no dates; otherwise 1 to n days, and start and end are len - 1 days apart |
| Streak.LongestIsEarliestMaximal | scripts/generate-demo-data.mjs:253-274 | the streak is a run of the sorted dates, no run is longer, and it is the earliest of the longest runs |
| Streak.GapResets | scripts/generate-demo-data.mjs:268-271 | a gap other than one day (a repeated date included) restarts the run at length 1 |
| Facts.AddFactMember | scripts/generate-demo-data.mjs:404-409 | `addFact` appends a candidate that fired and drops one that did not |
| Facts.LongestFlightFact | scripts/generate-demo-data.mjs:411-426 | the longest-flight fact exists iff some flight has a time that is positive (generator) or nonzero (demo page); it shows the first flight with the largest time, its hours and its leg |
| Facts.FurthestLegFact | scripts/generate-demo-data.mjs:428-444 | the furthest-leg fact shows the first route of largest distance, and exists iff some distance is positive (generator) or any route exists (demo page) |
| Facts.BiggestDayFact | scripts/generate-demo-data.mjs:446-458 | the longest-day fact shows the first heatmap day with the most hours, and exists iff some day has hours (generator) or the heatmap is not empty (demo page) |
| Facts.BusiestDayFact | scripts/generate-demo-data.mjs:460-472 | the busiest-day fact shows the first heatmap day with the most flights, and exists iff some day has flights (generator) or the heatmap is not empty (demo page) |
| Facts.TopRouteFact | scripts/generate-demo-data.mjs:474-483 | the most-frequent-route fact shows the first route with the highest count, and exists iff some count is positive (generator) or any route exists (demo page) |
| Facts.VisitCodes | scripts/generate-demo-data.mjs:485-491 | the flight codes collected are exactly the non-empty origin and destination codes |
| Facts.RouteCodes | scripts/generate-demo-data.mjs:492-493 | the route endpoints collected are exactly both ends of every route |
| Facts.VisitedMembers | src/app/p/demo/page.tsx:273-281 | the visited set holds each code once, exactly the non-empty flight codes and the route endpoints |
| Facts.MostCommonDetail | scripts/generate-demo-data.mjs:494-500 | the most common airport is the first-listed code named most often by the flights, with its count; there is none iff no flight names a code |
| Facts.UniqueAirportsFact | scripts/generate-demo-data.mjs:502-511 | the airport-count fact exists iff this is the generator and some airport was visited; it counts the distinct visited codes |
| Facts.Mentions | src/app/p/demo/page.tsx:283-287 | each flight mentions its origin, then its destination, each with its latitude |
| Facts.LatLookupLast | src/app/p/demo/page.tsx:283-287 | `latLookup` keeps the latitude of a code's last mention, even a missing one |
| Facts.NorthFact | scripts/generate-demo-data.mjs:513-526 | the farthest-north fact exists iff some visited code has a latitude, and shows the first visited code with the largest one |
| Facts.SouthFact | scripts/generate-demo-data.mjs:527-539 | the farthest-south fact exists iff some visited code has a latitude, and shows the first visited code with the smallest one |
| Facts.StreakDatesAllDays | src/app/p/demo/page.tsx:316-320 | the `flights > 0` filter keeps every heatmap day, since each was built from a flight |
| Facts.StreakFact | scripts/generate-demo-data.mjs:541-551 | the streak fact exists iff the longest run of flying days is at least two days, and shows its length and its first and last day |
| Facts.Average | scripts/generate-demo-data.mjs:553-557 | the average times the number of flights is the total hours, and it is positive iff the total is |
| Facts.AverageFact | scripts/generate-demo-data.mjs:553-565 | the average fact exists iff there are flights and, in the generator, the average is positive; it shows the mean hours across all flights |
| Facts.CollectMembers | src/app/p/demo/page.tsx:191-359 | the fact list holds exactly the facts of the candidates that fired |
| FunFacts.ById | src/components/FunFacts.tsx:24 | `new Map(facts.map(f => [f.id, f]))` has exactly the facts' ids as keys, each mapped to a fact with that id |
| FunFacts.ByIdLast | src/components/FunFacts.tsx:24 | when an id repeats, the map keeps the last fact with that id |
| FunFacts.Slice | src/components/FunFacts.tsx:40 | `slice(0, end)`: the first `end` elements, or, for a negative `end`, all but the last `-end` |
| FunFacts.SelectFunFacts | src/components/FunFacts.tsx:22-41 | the two loops compute the selection `Selected` defines |
| FunFacts.TopUp | src/components/FunFacts.tsx:35-38 | the top-up loop appends the first `max - chosen.length` remaining facts |
| FunFacts.WalkTake | src/components/FunFacts.tsx:26-30 | the priority loop, with its break at `max`, keeps the first `max` of the found priority facts |
| FunFacts.SelectedShape | src/components/FunFacts.tsx:22-41 | for max >= 1 the result is the first max priority facts, then the top-scoring remaining ones while there is room; a priority fact comes first even when a later fact scores higher |
| FunFacts.ChosenIsPriority | src/components/FunFacts.tsx:25-30 | the chosen list is the first max priority facts |
| FunFacts.SliceFill | src/components/FunFacts.tsx:31-40 | the final `slice(0, max)` cuts nothing once the top-up has run |
| FunFacts.PresentEmpty | src/components/FunFacts.tsx:27-28 | with no facts nothing is found by priority |
| FunFacts.PresentIds | src/components/FunFacts.tsx:26-28 | the facts found by priority carry the present priority ids, in priority order |
| FunFacts.PresentFromMap | src/components/FunFacts.tsx:27-28 | a fact found by priority is the map's fact for its id |
| FunFacts.PriorityDistinct | src/components/FunFacts.tsx:9-20 | the priority list names ten distinct ids |
| FunFacts.PriorityOrder | src/components/FunFacts.tsx:9-30 | the chosen facts' ids are the first max present priority ids, distinct, and each chosen fact is an input fact (the last one with its id) |
| FunFacts.RemainingOrder | src/components/FunFacts.tsx:32-34 | the remaining facts are exactly the ones whose id was not chosen, sorted by score (a missing score as 0) highest first, ties in input order |
| FunFacts.SelectedBounds | src/components/FunFacts.tsx:22-41 | no facts or max <= 0 gives nothing; at most max facts, every one an input fact |
| FunFacts.WalkNonPositive | src/components/FunFacts.tsx:28-29 | with max <= 0 the priority loop still pushes one fact before its break fires |
| FunFacts.SameId | src/components/FunFacts.tsx:24 | with distinct ids, two input facts with the same id are the same fact |
| FunFacts.TakenIsChosen | src/components/FunFacts.tsx:32-33 | with distinct ids, the input facts whose id was chosen are, as a multiset, the chosen facts |
| FunFacts.SelectedPermutation | src/components/FunFacts.tsx:22-41 | with distinct ids and at most max facts, every fact is shown exactly once |
| HeatmapGrid.Range | src/components/pilot/Heatmap.tsx:22-30 | every day from start to end inclusive, in order, and nothing when start is after end |
| HeatmapGrid.RangeSnoc | src/components/pilot/Heatmap.tsx:25-28 | one more loop step appends the next day |
| HeatmapGrid.BuildRange | src/components/pilot/Heatmap.tsx:22-30 | the `while` loop of `buildRange` yields `Range(start, end)` |
| HeatmapGrid.Earliest | src/components/pilot/Heatmap.tsx:52 | the earliest data day is one of the days and no day is before it |
| HeatmapGrid.Latest | src/components/pilot/Heatmap.tsx:53 | the latest data day is one of the days and no day is after it |
| HeatmapGrid.MaxValue | src/components/pilot/Heatmap.tsx:73 | the scale is at least 0, no value exceeds it, and it is 0 or one of the values (a missing value counts as 0) |
| HeatmapGrid.ValueByIsoLast | src/components/pilot/Heatmap.tsx:57 | `new Map(parsed.map(...))` keeps the value of the last point for a day |
| HeatmapGrid.ValueByIsoAbsent | src/components/pilot/Heatmap.tsx:57 | a day without points is not in the map |
| HeatmapGrid.ChunksShape | src/components/pilot/Heatmap.tsx:68-71 | the weeks put back together are the cells; every week has 1 to 7 cells and all but the last have 7 |
| HeatmapGrid.ChunksAt | src/components/pilot/Heatmap.tsx:69-70 | week k starts with cell 7k |
| HeatmapGrid.ChunksFrom | src/components/pilot/Heatmap.tsx:69-70 | cutting from position i takes `slice(i, i + 7)` and goes on after it |
| HeatmapGrid.ChunkWeeks | src/components/pilot/Heatmap.tsx:68-71 | the `for` loop with its step of 7 yields exactly the chunks |
| HeatmapGrid.GridOf | src/components/pilot/Heatmap.tsx:41 | no data gives no weeks and a scale of 0 |
| HeatmapGrid.BuildGrid | src/components/pilot/Heatmap.tsx:40-75 | the memo computes the grid `GridOf` defines |
| HeatmapGrid.CellsSpan | src/components/pilot/Heatmap.tsx:55-66 | the cells run day by day from the Sunday on or before the earliest day to the latest day |
| HeatmapGrid.GridShape | src/components/pilot/Heatmap.tsx:40-75 | the grid covers every data day, from the Sunday on or before the earliest day, less than a week before it, through the latest; consecutive cells are consecutive days; all weeks but the last have seven cells and every week starts on a Sunday |
| HeatmapGrid.WeeksStartSunday | src/components/pilot/Heatmap.tsx:68-71 | weeks cut from consecutive days that start on a Sunday all start on a Sunday |
| HeatmapGrid.CellValue | src/components/pilot/Heatmap.tsx:59-66 | a cell shows the value of the last point for its day, and 0 for a day without points |
| HeatmapGrid.Level | src/components/pilot/Heatmap.tsx:77-83 | the level is 0 to 3, and 0 exactly when the scale or the value is 0 |
| HeatmapGrid.LevelMonotone | src/components/pilot/Heatmap.tsx:77-83 | a larger value never shows a lighter cell, and the largest value is level 3 |
| DemoData.Rng.constructor | scripts/generate-demo-data.mjs:28-29 | a fresh generator stands at the start of its stream of draws |
| DemoData.Rng.Next | scripts/generate-demo-data.mjs:29 | `rand()` returns the next draw of the stream, a value in [0, 1), and advances the stream by one |
| DemoData.ScaledIndex | scripts/generate-demo-data.mjs:30 | `Math.floor(rand() * n)` is an index below n: the floor of r·n |
| DemoData.Round | scripts/generate-demo-data.mjs:32 | `Math.round` gives the nearest integer, with halves rounded up |
| DemoData.DurationTenths | scripts/generate-demo-data.mjs:136-141 | a duration is 0.7 to 1.4 h below 400 nm, 1.5 to 2.7 h below 900 nm, 2.8 to 4.2 h below 1500 nm, else 3.5 to 5.0 h |
| DemoData.DayCount | scripts/generate-demo-data.mjs:151-153 | a day gets 0 to 3 flights, and none exactly when its roll is below 0.15 |
| DemoData.IndexLookup | scripts/generate-demo-data.mjs:72-75 | `airportIndex` holds exactly the catalogue codes, each filed under an airport with that code |
| DemoData.ListsIndex | scripts/generate-demo-data.mjs:72-75 | a catalogue code looks up a catalogue airport of that code |
| DemoData.NonHubChoices | scripts/generate-demo-data.mjs:95 | with a usable catalogue, `nonHubAirports` is not empty, nor is it after removing any one code |
| DemoData.OtherHub | scripts/generate-demo-data.mjs:112 | with two different hubs, `hubs.filter(h => h !== code)` is never empty |
| DemoData.Choice | scripts/generate-demo-data.mjs:30 | `choice(arr)` uses one draw and returns the element at the scaled index |
| DemoData.Listed | scripts/generate-demo-data.mjs:72-75 | a catalogue airport is found again under its own code |
| DemoData.ChooseNonHub | scripts/generate-demo-data.mjs:95-103 | a choice from `nonHubAirports` is a catalogue airport other than the hub |
| DemoData.HubAndSpoke | scripts/generate-demo-data.mjs:101-106 | the hub-and-spoke branch joins the hub and a different airport, in either direction |
| DemoData.BetweenHubs | scripts/generate-demo-data.mjs:107-115 | the between-hubs branch joins two different hubs, redrawing once from the other hubs on a clash |
| DemoData.PointToPoint | scripts/generate-demo-data.mjs:116-125 | the point-to-point branch joins two different non-hub airports, redrawing once on a clash |
| DemoData.PickRoute | scripts/generate-demo-data.mjs:92-134 | the route always joins two different catalogue airports; a first roll below 0.55 involves the hub, one below 0.8 joins two hubs, any other avoids the hub |
| DemoData.DemoHubListed | scripts/generate-demo-data.mjs:39 | the hub KSLC is in the catalogue |
| DemoData.DemoNonHubPair | scripts/generate-demo-data.mjs:40-69 | the catalogue has two different airports other than the hub |
| DemoData.DemoHubInCatalog | scripts/generate-demo-data.mjs:94 | every listed hub is a catalogue airport |
| DemoData.DemoCatalogOk | scripts/generate-demo-data.mjs:38-95 | the generator's own catalogue and hub list meet everything the draws rely on |
| DemoData.MakeFlight | scripts/generate-demo-data.mjs:168-194 | a generated record has the day and the two codes, one landing and one takeoff, either both by day or both by night (no negative counts), and a night landing exactly for a night flight |
| DemoData.DayFlight | scripts/generate-demo-data.mjs:155-195 | a day-loop flight is on its day, between two different airports, with one landing and one takeoff |
| DemoData.TopUpFlight | scripts/generate-demo-data.mjs:199-236 | a top-up flight is on one of the first 210 days of the window, between two different airports, with one landing and one takeoff |
| DemoData.Recent | scripts/generate-demo-data.mjs:241-243 | on overshoot the last n flights are kept, otherwise all; what is kept is a suffix of the list |
| DemoData.RecentIsLatest | scripts/generate-demo-data.mjs:238-243 | the kept flights of a date-sorted list are still sorted, and none of the dropped ones is later than a kept one |
| DemoData.SortedSuffix | scripts/generate-demo-data.mjs:241-243 | a suffix of a sorted list is sorted |
| DemoData.GenerateFlights | scripts/generate-demo-data.mjs:143-246 | exactly `targetFlights` flights, ascending by date, each between two different airports with one landing and one takeoff, dated from today - 210 through today; they are taken from the pool of all generated flights (every one of which meets the same conditions), and no flight left out of the pool is dated later than a flight kept |
| DemoData.DroppedNotLater | scripts/generate-demo-data.mjs:238-243 | cutting the most recent n from a date-sorted list drops, as a multiset, only flights dated no later than every flight kept |
| DemoData.PrefixNotLater | scripts/generate-demo-data.mjs:238-243 | in a date-sorted list, every flight before a cut is dated no later than every flight after it |
| Slug.DropLeadingDashes | src/app/api/private/me/route.ts:14 | the `^-+` replacement removes exactly a prefix of dashes, leaving a suffix that does not start with one |
| Slug.DropTrailingDashes | src/app/api/private/me/route.ts:14 | the `-+$` replacement removes exactly a suffix of dashes, leaving a prefix that does not end with one |
| Slug.DashRunsDashed | src/app/api/private/me/route.ts:13 | after `.replace(/[^a-z0-9]+/g, "-")` there are only `a-z`, `0-9` and single dashes; the result starts with a dash iff the input starts with a character outside `a-z0-9` |
| Slug.SlugifyIsSlug | src/app/api/private/me/route.ts:10-16 | `slugify` yields only `a-z`, `0-9` and `-`, with no dash at either end and never two in a row |
| Slug.SquashIsRedundant | src/app/api/private/me/route.ts:15 | the final `--+` replacement never changes anything |
| Slug.SlugFixed | src/app/api/private/me/route.ts:10-16 | a string that is already a slug is its own slug |
| Slug.SlugifyIdempotent | src/app/api/private/me/route.ts:10-16 | `slugify(slugify(x)) == slugify(x)` |
| Slug.SlugifyAlphanumeric | src/app/api/private/me/route.ts:10-16 | a string of lower-case letters and digits is unchanged |
| Slug.SlugifyKeeps | src/app/api/private/me/route.ts:10-16 | every letter and digit of the lower-cased input survives, in order, and nothing else but dashes |
| Slug.BaseHandle | src/app/api/private/me/route.ts:19 | the base handle is 1 to 20 characters: "user" when the slug is empty, otherwise the slug's first 20 characters |
| Slug.BaseHandleShape | src/app/api/private/me/route.ts:19 | the base handle has only slug characters, no double dash, and never starts with a dash |
| Slug.BaseHandleMayEndInDash | src/app/api/private/me/route.ts:19 | cutting at 20 characters can leave a trailing dash ("aaaaaaaaaaaaaaaaaaa-a" gives "aaaaaaaaaaaaaaaaaaa-") |
| AirportIndex.ParseCsvLineLoop | scripts/build-airport-index.mjs:4-19 | the character loop of `parseCsvLine` computes the field list `ParseCsvLine` defines: `""` is one quote, a lone quote toggles quoting, a comma outside quotes ends a field |
| AirportIndex.ScanLength | scripts/build-airport-index.mjs:10-17 | the scan yields one field more than there are commas outside quotes |
| AirportIndex.FieldCount | scripts/build-airport-index.mjs:14-17 | a line has one field more than its unquoted commas, so never zero fields |
| AirportIndex.SplitWithoutQuotes | scripts/build-airport-index.mjs:4-19 | a line without quote characters is split at every comma |
| AirportIndex.ScanInQuotes | scripts/build-airport-index.mjs:13-15 | inside quotes, commas and other characters are copied into the field |
| AirportIndex.QuotedField | scripts/build-airport-index.mjs:12-15 | a quoted run of text without quotes contributes the text, commas included, to the current field |
| AirportIndex.EmptyQuotedField | scripts/build-airport-index.mjs:12 | the field `""` is read as one quote character, not as an empty quoted field |
| AirportIndex.AcceptedIff | scripts/build-airport-index.mjs:49-51 | the `^K[A-Z0-9]{3}$` test adds nothing: a key is kept iff it is 3 or 4 upper-case letters or digits |
| AirportIndex.IndexOf | scripts/build-airport-index.mjs:26 | `header.indexOf(name)`: -1 iff absent, otherwise the first position holding the name |
| AirportIndex.FirstWinsKeys | scripts/build-airport-index.mjs:52 | the index holds exactly the keys offered |
| AirportIndex.FirstWinsSnoc | scripts/build-airport-index.mjs:52 | `if (!airportIndex[key])`: one more offer sets the key only when it is new |
| AirportIndex.FirstWinsFirst | scripts/build-airport-index.mjs:52 | a key keeps the value of its first offer |
| AirportIndex.KeyPairs | scripts/build-airport-index.mjs:48-53 | a row offers only accepted keys, each with the row's own coordinates |
| AirportIndex.PairsSnoc | scripts/build-airport-index.mjs:37-54 | the rows' offers are made row by row, in file order |
| AirportIndex.PairsAccepted | scripts/build-airport-index.mjs:48-53 | every offered key passed the key tests |
| AirportIndex.IndexForKeys | scripts/build-airport-index.mjs:24-54 | every key of the written index is 3 or 4 upper-case letters or digits, and a key is filed with the first coordinates offered for it |
| AirportIndex.OfferKeys | scripts/build-airport-index.mjs:48-53 | the inner loop updates the index exactly as first-wins over the row's offers |
| AirportIndex.FillIndex | scripts/build-airport-index.mjs:37-54 | the row loop builds the first-wins map of all offers |
| AirportIndex.BuildAirportIndex | scripts/build-airport-index.mjs:24-54 | the script's index is the one `IndexFor` defines from the file text (header on the first line, rows after it, rows with a non-finite coordinate skipped) |
| FlightsMap.Label | src/components/FlightsMap.tsx:140 | the label is the origin code, the three characters " → ", then the destination code |
| FlightsMap.RouteFeatures | src/components/FlightsMap.tsx:133-143 | one line feature per route, in order, carrying the route's endpoints, its count and its label |
| FlightsMap.Counts | src/components/FlightsMap.tsx:145-148 | the features' counts (`count`, else `trips`, else 1), the same multiset in ascending order |
| FlightsMap.QuantileIndex | src/components/FlightsMap.tsx:151 | `Math.floor(p * (n - 1))` is a valid position for p in [0, 1] |
| FlightsMap.Quantile | src/components/FlightsMap.tsx:149-153 | 1 with no counts; otherwise a count that every count before its rank is at most and every count from it on is at least |
| FlightsMap.QuantileMonotone | src/components/FlightsMap.tsx:149-154 | a larger p never gives a smaller quantile, so q1 <= q2 |
| FlightsMap.QuantileSamples | src/components/FlightsMap.tsx:149-154 | one count is every quantile of itself; with nine counts q1 and q2 are the counts at ranks 2 and 5 |
| FlightsMap.TierOf | src/components/FlightsMap.tsx:51-53 | thin iff the count is at most q1; medium iff above q1 and at most q2; thick iff above both |
| FlightsMap.Width | src/components/FlightsMap.tsx:55 | widths 1, 2, 3 for thin, medium, thick, never above 3 |
| FlightsMap.WidthMonotone | src/components/FlightsMap.tsx:49-55 | a busier route is never drawn thinner |
| FlightsMap.Endpoints | src/components/FlightsMap.tsx:158-159 | each route contributes its two endpoints, from first |
| FlightsMap.UniqueSnoc | src/components/FlightsMap.tsx:160-164 | one more endpoint adds a feature exactly when its code is not yet seen |
| FlightsMap.UniqueByIcaoSpec | src/components/FlightsMap.tsx:156-166 | the airport features' codes are the distinct endpoint codes in order of first appearance, and each feature is the first endpoint with its code |
| FlightsMap.Visit | src/components/FlightsMap.tsx:160-164 | the `seen` test keeps the feature list equal to the first appearances and the set equal to its codes |
| FlightsMap.EndpointsSnoc | src/components/FlightsMap.tsx:158-159 | the endpoints of one more route follow those of the earlier routes |
| FlightsMap.CollectAirports | src/components/FlightsMap.tsx:156-166 | the `forEach` loops build exactly the first-appearance airport list |
| FlightsMap.MapView.constructor | src/components/FlightsMap.tsx:25-27 | the sources start empty and the quantile ref starts at q1 = 1, q2 = 2 |
| FlightsMap.MapView.ShowRoutes | src/components/FlightsMap.tsx:128-171 | the route effect refills the route source with the route features, the airport source with the first-appearance airports, and sets q1 and q2 to the 0.33 and 0.66 quantiles of the sorted counts, which are ordered |
| FlightsMap.MapView.RouteWidth | src/components/FlightsMap.tsx:48-55 | the style callback's width is 1 to 3: 1 iff the count is at most q1, 3 iff it is above q2 |
| TsvImport.DigitRun | src/app/api/private/import/logten-tsv/import/route.ts:24 | the length of the longest run of digits at the front of the string |
| TsvImport.ParseIntPrefixSome | src/app/api/private/import/logten-tsv/import/route.ts:24-25 | `Number.parseInt(s, 10)` is a number exactly when a digit follows an optional sign |
| TsvImport.DigitRunAll | src/app/api/private/import/logten-tsv/import/route.ts:24 | a string of digits is read to its end |
| TsvImport.ParseIntSafe | src/app/api/private/import/logten-tsv/import/route.ts:20-26 | `parseIntSafe` is null for a missing or empty value and for one of only commas and white space; otherwise it parses the longest signed digit prefix of the comma-free trimmed text |
| TsvImport.ParseFloatSafe | src/app/api/private/import/logten-tsv/import/route.ts:12-18 | `parseFloatSafe` is null for a missing, empty or comma-and-space-only value; otherwise it is exactly `parseFloat` of the comma-free trimmed text |
| TsvImport.RemoveTwice | src/app/api/private/import/logten-tsv/import/route.ts:22 | removing commas twice is removing them once |
| TsvImport.CommasIgnored | src/app/api/private/import/logten-tsv/import/route.ts:22 | commas anywhere in a number are ignored: "1,234" parses as "1234" |
| TsvImport.Show | src/app/api/private/import/logten-tsv/import/route.ts:24 | the decimal rendering of a natural number is a non-empty digit string |
| TsvImport.ShowValue | src/app/api/private/import/logten-tsv/import/route.ts:24 | reading back the decimal rendering gives the number |
| TsvImport.RemoveAbsent | src/app/api/private/import/logten-tsv/import/route.ts:22 | a text without commas is unchanged by the comma removal |
| TsvImport.CleanedPlain | src/app/api/private/import/logten-tsv/import/route.ts:22 | a comma-free text without white space at its ends is its own cleaned form |
| TsvImport.CleanedDigits | src/app/api/private/import/logten-tsv/import/route.ts:22 | a digit string is its own cleaned form |
| TsvImport.ParseDigits | src/app/api/private/import/logten-tsv/import/route.ts:24 | a digit string parses to its decimal value |
| TsvImport.ParseNegativeDigits | src/app/api/private/import/logten-tsv/import/route.ts:24 | a minus sign then digits parses to the negated value |
| TsvImport.ParseIntShow | src/app/api/private/import/logten-tsv/import/route.ts:20-26 | `parseIntSafe` of a natural number's decimal text gives the number back |
| TsvImport.CleanedNegative | src/app/api/private/import/logten-tsv/import/route.ts:22 | a negative digit string is its own cleaned form |
| TsvImport.ParseIntShowNegative | src/app/api/private/import/logten-tsv/import/route.ts:20-26 | `parseIntSafe` of "-" and a decimal text gives the negated number back, so negative landings are kept |
| TsvImport.NegativeParses | src/app/api/private/import/logten-tsv/import/route.ts:20-26 | `parseIntSafe` of "-" and digits is the negated decimal value |
| TsvImport.FindHeader | src/app/api/private/import/logten-tsv/import/route.ts:107-108 | the header is the first line that is not all white space, and there is none iff every line is blank |
| TsvImport.Indexed | src/app/api/private/import/logten-tsv/import/route.ts:112 | each header is paired with its position |
| TsvImport.ColIndexLast | src/app/api/private/import/logten-tsv/import/route.ts:111-112 | a repeated header name is indexed at its last position |
| TsvImport.ColIndexDomain | src/app/api/private/import/logten-tsv/import/route.ts:111-112 | a name is indexed iff it is one of the trimmed headers |
| TsvImport.BuildColIndex | src/app/api/private/import/logten-tsv/import/route.ts:111-112 | the `forEach` builds exactly the later-wins column index |
| TsvImport.Idx | src/app/api/private/import/logten-tsv/import/route.ts:114 | `idx(name)` is -1 iff the name is not indexed, and the indexed position otherwise |
| TsvImport.MissingColumnsIff | src/app/api/private/import/logten-tsv/import/route.ts:115-123 | the required-column error fires iff one of `flight_flightDate`, `flight_from`, `flight_to` is not a header |
| TsvImport.DateRowNotBlank | src/app/api/private/import/logten-tsv/import/route.ts:134-135 | the emptiness and blankness tests never decide: a line is kept iff it starts with `YYYY-MM-DD` followed by a tab or the end |
| TsvImport.FlightLineStep | src/app/api/private/import/logten-tsv/import/route.ts:133-135 | a line after the header is kept exactly when it is non-empty, not blank and starts with a date |
| TsvImport.SelectFlightLines | src/app/api/private/import/logten-tsv/import/route.ts:125-137 | the `sawHeader` scan keeps, in order, the date lines after the first line equal to the header |
| TsvImport.Get | src/app/api/private/import/logten-tsv/import/route.ts:148-151 | `get` gives "" for an unknown column or a short row, and the field otherwise |
| TsvImport.ParseDate | src/app/api/private/import/logten-tsv/import/route.ts:28-34 | `parseDate` is null for an empty or blank value and the date conversion of the trimmed text otherwise |
| TsvImport.TextOrNull | src/app/api/private/import/logten-tsv/import/route.ts:188-193 | `x \|\| null` is null iff the text is empty |
| TsvImport.CodeInEmpty | src/app/api/private/import/logten-tsv/import/route.ts:158-161 | an airport code is empty exactly when its field is empty or white space |
| TsvImport.ParseRow | src/app/api/private/import/logten-tsv/import/route.ts:154-195 | a line is skipped iff its date does not parse or a trimmed code is empty; a kept row carries the upper-cased codes and the parsed date |
| TsvImport.RowFields | src/app/api/private/import/logten-tsv/import/route.ts:180-193 | in a kept row unparsable landings are 0, an empty route is null, and the hours are null exactly when they do not parse |
| TsvImport.CodesOf | src/app/api/private/import/logten-tsv/import/route.ts:146 | the code set holds exactly the origin and destination codes of the flights |
| TsvImport.ParseRows | src/app/api/private/import/logten-tsv/import/route.ts:146-196 | the `map`, with its `icaos.add` calls, and the null filter give the kept rows in order and exactly their codes |
| TsvImport.RowsStep | src/app/api/private/import/logten-tsv/import/route.ts:153-196 | one more flight line adds its row exactly when it is kept |
| TsvImport.CodesSnoc | src/app/api/private/import/logten-tsv/import/route.ts:172-173 | one more flight adds its two codes |
| TsvImport.RowsCodes | src/app/api/private/import/logten-tsv/import/route.ts:158-173 | every collected code is non-empty and already upper case |
| TsvImport.UpperTwice | src/app/api/private/import/logten-tsv/import/route.ts:160-161 | upper-casing twice is upper-casing once |
| TsvImport.Import | src/app/api/private/import/logten-tsv/import/route.ts:106-196 | "Empty TSV" iff every line is blank; "Missing required columns" iff the first non-blank line lacks the date, from or to header, reporting a -1 position; otherwise the flights are the kept rows of the flight lines after that first non-blank line, with their codes |
| TsvImport.RunImport | src/app/api/private/import/logten-tsv/import/route.ts:106-196 | the route's parsing steps, with their loops, compute `Import` |
| TsvImport.Guard | src/app/api/private/import/logten-tsv/import/route.ts:62-91 | the import goes ahead iff the job exists, is `UPLOADED` and has a non-empty blob URL; each failing check gives its own error, the not-ready one with the status and whether a blob URL is set |
| TsvImport.FailureMessage | src/app/api/private/import/logten-tsv/import/route.ts:306 | the stored message is the error's message, or "Import failed" when it is empty, cut to its first 500 characters when longer |

## Left out

- **Not modelled: I/O and services.** Database access (Prisma), the blob store, Clerk authentication, HTTP responses, file reading and writing, and `console` output. The import route's database writes, the airport upserts and the profile statistics it stores afterwards are not modelled. It is modelled up to the parsed flights and their codes.
- **Not modelled: `generateUniqueHandle`'s retry loop.** It depends on database lookups and on `Math.random` and `randomUUID` suffixes. Only its base handle (`BaseHandle`) is modelled.
- **Not modelled: the seeded random generator.** This means `xmur3` and `mulberry32`, with their 32-bit arithmetic. `rand()` is an abstract stream of draws in [0, 1).
- **Functions passed as parameters.** The great-circle distance (`haversineNm`) is a parameter. So are the runtime's date parsing, `Number.parseFloat` and `Number(...)`, each given with its finiteness test.
- **Floating point.** The model uses unbounded reals and integers. NaN, Infinity and the `Number.isFinite` filters that drop them are not modelled. Nor is the floating-point rounding of sums and ratios. The quantile and level ratios are exact reals.
- **Text formatting is not modelled.** This covers `toFixed`, `formatHours`, `formatNm`, `deg`, ISO date strings and detail texts. A fact's figure and detail are data (`FactValue`, `FactDetail`).
- **Local time zones and the wall clock.** `today` and the generator's and export's `cutoff90` are parameters. Local-time month starts and the daylight-saving effects of `setDate` on `toISOString` day keys are not modelled.
- Aggregate.SortPair: orders codes by code point (`Strings.LessEq`) in place of `localeCompare`. The two agree on upper-case ICAO codes but can differ on other text, such as mixed case or accented letters.
- Aggregate.BuildHeatmap, Aggregate.BuildMonthly, DemoData.GenerateFlights: sort by day or month number where the source applies `localeCompare` to `YYYY-MM-DD` and `YYYY-MM` text. The two orders agree for four-digit years.
- TsvImport.FailureMessage: counts characters as Unicode scalar values. `.slice(0, 500)` counts UTF-16 code units, so the two cuts differ on text outside the Basic Multilingual Plane.
- **Case conversion covers ASCII letters only.** `toLowerCase` and `toUpperCase` touch only ASCII letters. JavaScript's full Unicode case mapping is not modelled.
- **The map library.** OpenLayers layers, styles and the style cache, the `fromLonLat` projection, extents, view fitting, and the hover and click tooltips are not modelled. A feature keeps its endpoints' longitude and latitude.
- FlightsMap.MapView.ShowRoutes: does not model the early return when the map has not been created yet; the effect always runs on an existing map.
- FlightsMap.Counts: does not model the `Number.isFinite` filter, because counts are reals here and the filter keeps every one.
- FlightsMap.Quantile: requires its counts sorted ascending. Its only caller sorts them first (`Counts`).
- DemoData.PickRoute: proves the `from.icao === to.icao` fallback dead, because every branch already ends with two different airports. The fallback's draws are therefore not modelled.
- DemoData.GenerateFlights: requires `CatalogOk` of the catalogue and hub list. The source relies on its fixed catalogue, which meets it (`DemoCatalogOk`).
- DemoData.DayFlight: draws `ac_type` but does not keep it, because the flight model has no aircraft type. The draw order is otherwise the source's.
- Facts.MostCommonDetail: assumes `Object.entries` lists codes in insertion order. JavaScript would list a code that is a canonical array index (such as "1234") first, and this is not modelled.
- Facts.FurthestLegFact: takes the distance as a parameter. It does not prove the haversine value positive for distinct endpoints.
- CurrencyCards.Cards: takes dates as totally ordered integers. The components' `Date` comparison is not modelled.
- AirportIndex.BuildAirportIndex: takes `Number` and its finiteness test as a parameter. The JSON output and its key order are not modelled.
