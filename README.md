# Football league predictor — verified model

This project models the integer core of a two-page football league
predictor:

- **app.js** asks, for each club, whether it can still finish strictly
  first. The club gets a win in each of its own remaining fixtures. A pruned
  depth-first search then looks for home, draw or away outcomes for every
  other fixture that keep every rival below the club's maximum. The result
  is either a per-fixture plan or an explanation. Once a plan exists, the
  page replays it into a final table with win, draw and loss columns.
- **app2.js** samples every remaining fixture from a probability table
  chosen by the two clubs' tiers. It plays the fixtures matchday by
  matchday, records a sorted standings snapshot after each date, and tallies
  the final table.
- Both pages share a section-based text parser. The model keeps its section
  machine, its defaults and the key order it gives the table, which decides
  every tie order above.

Modules:

| file | module | models |
|---|---|---|
| `league.dfy` | `League` | clubs, fixtures, outcomes, points tables (`p[c] || 0`), awarding an outcome, sums over sequences |
| `ordering.dfy` | `Ordering` | the standings order (points descending, then name ascending) and the two insertion sorts |
| `projection.dfy` | `Projection` | replaying a plan into final points and W/D/L rows (app.js 246-286) |
| `solver.dfy` | `Solver` | `simulateForClub`, its inner `dfs` (class `Search`) and `simulateAll` |
| `sampler.dfy` | `Sampler` | `pickOutcomeByTier`, `simulateProb` and the `renderFinal` tally |
| `parse.dfy` | `Parse` | `parseSim` / `parseSim2` over lines that are already classified |

Main theorems:

- `Solver.SimulateForClub` is sound for every time budget.
  - A "possible" answer holds a plan with one line per input fixture. Replayed
    onto the table, that plan leaves the club on exactly its maximum and
    every rival strictly below it.
  - An "out of reach" answer is given exactly when some rival already has
    more points than that maximum. The rival reported is the first such
    club in key order.
  - The fallback answer names the first rival in key order with the largest
    upper bound. That bound is a true upper bound: no scenario in which the
    club wins its own fixtures takes the rival above it.
  - Given a budget of at least one clock reading, the search always
    succeeds when there are no rivals, as `Math.max()` of nothing is
    `-Infinity`. It also always succeeds when no fixtures remain and the
    club is already strictly first.
- The search and the plan agree. `Solver.PlanAgreesWithSearch` shows that
  replaying the plan yields the same points as the search's own final state.
- `Sampler.SimulateProb` plays every fixture exactly once, grouped by date in
  first-appearance order. Each result is the bucket of its draw in the tier
  table. Each snapshot is the sorted table after its date.
- Points are conserved. A decisive result adds 3 points in total and a draw
  adds 2, including for a fixture whose two sides are the same club. Over all clubs, total wins equal total losses. For each club,
  wins + draws + losses equals its appearances.

## Model

| member | source | states |
|---|---|---|
| League.Gain | app.js:114-118 | an outcome gives a club 0 to 3 points, and 0 to a club not in the fixture |
| League.FixtureShares | app.js:116-118 | home win: 3 to home, 0 to away; away win the mirror; draw: 1 each; so 3 or 2 points in all |
| League.Award | app.js:115-118 | every club's points rise by exactly its gain and nothing else changes; the key set is kept when both sides are keys |
| League.AwardTotal | app2.js:78-80 | over all clubs, a decisive result adds 3 points to the league total and a draw adds 2, also when both sides are the same club |
| League.SumPermutation | app.js:79-86 | a sum does not depend on the order of its terms: the free fixtures' gains sum the same in stake order as in input order |
| Ordering.NameLeTotal | app.js:286 | the fixed name order used in place of `localeCompare` is total |
| Ordering.NameLeTransitive | app.js:286 | the name order is transitive |
| Ordering.NameLeAntisymmetric | app.js:286 | the name order is antisymmetric |
| Ordering.RanksAboveTotal | app.js:286 | of two standings one ranks above the other (points descending, then name ascending) |
| Ordering.RanksAboveTransitive | app.js:286 | ranking above is transitive |
| Ordering.RanksAboveStrict | app.js:286 | two standings that rank above each other have the same team and points |
| Ordering.InsertRanked | app2.js:84 | inserting into a ranked sequence keeps it ranked and adds exactly that element |
| Ordering.SortStandings | app2.js:84 | the standings sort returns a ranked permutation of its input |
| Ordering.InsertDescending | app.js:44 | inserting into a non-increasing sequence keeps it non-increasing and adds exactly that element; the new head is the element only when its key is strictly larger than the old head's |
| Ordering.SortDescending | app.js:44 | the stable descending sort returns a non-increasing permutation of its input whose first element is the input's leader: the first element whose key no later one beats |
| Ordering.LeaderLeads | app.js:162 | the leader has the largest key, and every element before it has a strictly smaller key |
| Projection.Settle | app.js:252-258 | one plan line adds exactly its gain to each club's points (3 to a forced winner, the outcome's points otherwise, nothing if undecided) and drops no club |
| Projection.Projected | app.js:248-258 | replaying a plan never drops a club from the table; what each club ends on is stated by ProjectedGain, the league total by ProjectedTotal |
| Projection.ProjectedConcat | app.js:252-258 | replaying two plans in turn equals replaying their concatenation |
| Projection.ProjectedGain | app.js:248-258 | a club's final points are its starting points plus the sum of its gains over the plan's decided lines |
| Projection.ReplayPlan | app.js:248-258 | the accumulation loop leaves exactly the projected final points |
| Projection.Credit | app.js:266-283 | one line adds exactly its win, draw and loss counts to each club's row (a win to the winner and a loss to the other side, or a draw to each) and keeps the rows' keys |
| Projection.CountResults | app.js:263-283 | the stats map has one row per club: its current points, its final points, and its win, draw and loss counts summed over the plan |
| Projection.SortedTable | app.js:285-286 | the rows are a permutation of the unsorted rows, sorted by final points descending, then name |
| Projection.ProjectScenario | app.js:246-286 | the scenario table is the ranked permutation of the rows built from the replayed plan |
| Projection.ProjectedTotal | app.js:252-258 | the league total after a plan is the total before it plus 3 per decisive line and 2 per draw |
| Projection.TallyCoversAppearances | app.js:266-283 | for each club, wins + draws + losses equals the number of decided lines it appears in |
| Projection.EntryBalance | app.js:268-282 | one decided line hands out one win and one loss if decisive, none if a draw |
| Projection.WinsBalanceLosses | app2.js:113-117 | over all clubs, total wins equal total losses, and both equal the number of decisive results |
| Sampler.TierChances | app2.js:41-57 | each table's chances are non-negative and sum to 100.00%; the draw chance is 33.34% for equal tiers and 20.00% otherwise |
| Sampler.TierChancesMirror | app2.js:45-56 | swapping the two tiers swaps the home and away chances |
| Sampler.TierChancesFavour | app2.js:46-56 | home is favoured exactly when its tier number is lower; a gap of two or more gives 50%, a gap of one gives 45% |
| Sampler.PickOutcomeByTier | app2.js:39-62 | a draw in [0, 100.00) gives home below the tier table's home chance, draw in the next band of the draw chance's width, and away in the rest, up to 100.00 |
| Sampler.HitsPrefix | app2.js:58-61 | among the first n draws, each outcome is picked for the expected count of them |
| Sampler.OutcomeShares | app2.js:58-61 | over all 10000 draws, each outcome is picked exactly as often as its table chance says |
| Sampler.TierOf | app2.js:76 | a club's tier is its recorded tier, or 2 when it is missing or 0 |
| Sampler.AsEntriesAppend | app2.js:86 | results appended in two parts read as the two result lists joined |
| Sampler.DatesOfFacts | app2.js:69-71 | the date list has no repeats and holds exactly the dates of the fixtures |
| Sampler.GatherIsPermutation | app2.js:69-75 | gathering fixtures date by date over a list of distinct dates that covers them is a permutation |
| Sampler.PlayedIsPermutation | app2.js:71-75 | the play order holds every fixture exactly once |
| Sampler.GroupByDate | app2.js:69-71 | `byDate` has a key exactly for each date, in first-appearance order, holding that date's fixtures in input order |
| Sampler.PlayOne | app2.js:78-81 | recording one more result awards its outcome to its fixture |
| Sampler.PlayDay | app2.js:75-82 | each of the day's results is its fixture with the outcome its draw picks, and the table after the day is the replay of those results |
| Sampler.PlayDate | app2.js:72-87 | one date extends the results, the table and the snapshots consistently |
| Sampler.SimulateProb | app2.js:64-89 | every fixture is played once, grouped by date; each result comes from its draw; the final table is the replay of all results; there is one ranked snapshot per date, holding the table after that date |
| Sampler.FinalTable | app2.js:110-119 | the final rows are a ranked permutation of one row per club with its current points, final points and W/D/L tally over the results |
| Solver.FindRivalAbove | app.js:63-66 | no rival is reported iff every rival is within the bound; a reported rival is the first in key order above it |
| Solver.BestOther | app.js:101 | the best rival score is absent exactly when there are no rivals; otherwise it is some rival's points and at least every rival's points |
| Solver.LeafTest | app.js:99-103 | the leaf test succeeds iff the club is strictly first (no rivals counts as first) |
| Solver.TryOrder | app.js:107-112 | the try order is [home, draw, away] when home has no more points than away, and [away, draw, away] otherwise; a home win is tried iff home does not lead |
| Solver.ReplayGain | app.js:115-118 | replaying assignments gives each club its starting points plus the sum of its gains |
| Solver.TargetMax | app.js:59-60 | the target maximum is at least the club's points; TargetMaxReached shows it is exactly what the club finishes on under any plan that follows the fixtures |
| Solver.UnassignedFacts | app.js:79 | the free fixtures are exactly the indices not forced, each once, in input order |
| Solver.ForceWins | app.js:69-76 | the club gains 3 points per own fixture, and the forced set is exactly its own fixtures |
| Solver.Stake | app.js:83-84 | a free fixture's stake is the larger of its two sides' points: at least each, and equal to one |
| Solver.OrderFree | app.js:79-86 | `remaining` is a permutation of the free fixtures, ordered by non-increasing stake (the larger side's points) |
| Solver.Search.TimeIsUp | app.js:93 | each clock reading counts one step; time is up once the budget of readings is spent |
| Solver.Search.ExtendSolution | app.js:126-128 | a solution from the next position after a within-bound outcome is a solution from this position |
| Solver.Search.LeafSolves | app.js:99-103 | a complete assignment that leaves rivals within bound and the club strictly first is a solution |
| Solver.Search.Dfs | app.js:92-132 | a result has one assignment per remaining fixture, in order; no rival exceeds the maximum in any state along it; the club ends strictly first; a failed call restores the assignment stack |
| Solver.Search.TryOutcome | app.js:115-129 | one outcome pushed, searched below and popped on failure; any result it returns is a solution |
| Solver.RunSearch | app.js:134-136 | a found solution covers `remaining` in order and leaves the club strictly first; with no budget nothing is found |
| Solver.LookupAt | app.js:145 | the outcome found for a fixture is the one its first assignment carries |
| Solver.LookupByKey | app.js:145 | the lookup as written finds nothing exactly when no assignment is for a fixture with the same date, home and away; otherwise it finds the outcome of the first such assignment |
| Solver.PlanByKey | app.js:139-149 | the plan as written has one line per fixture, in input order, with a win for the club in its own fixtures; PlanByKeyByIdentity and DuplicateFixtureMisreported state when it agrees with the search |
| Solver.BuildPlan | app.js:139-149 | one plan line per input fixture, in input order: a win for the club in its own fixtures, the searched outcome elsewhere |
| Solver.PlanAgreesWithSearch | app.js:139-149 | replaying the plan onto the original table gives every club the points the search ended with |
| Solver.ClubUntouched | app.js:79 | outcomes of free fixtures never change the club's points |
| Solver.FreeFixturesDecided | app.js:141-147 | every fixture not involving the club gets an outcome from a solution |
| Solver.NoRivalsNothingFree | app.js:79 | with no rivals there are no free fixtures |
| Solver.CountBetween | app.js:157 | fixtures against the club are among the rival's own fixtures |
| Solver.RivalBoundOf | app.js:157-159 | a rival's bound lies between its points and its points plus 3 per fixture it plays; RivalBoundHolds shows no plan that follows the fixtures takes the rival above it |
| Solver.FollowedGains | app.js:69-76 | along any plan that follows the fixtures, the club gains exactly 3 per own fixture and another club at most 3 per fixture it plays that is not against the club |
| Solver.TargetMaxReached | app.js:59-60 | under any plan that follows the fixtures the club finishes on exactly its target maximum |
| Solver.RivalBoundHolds | app.js:155-159 | under any plan that follows the fixtures no rival finishes above its bound, so the bound the explanation reports is a true upper bound |
| Solver.FirstReachingAt | app.js:162 | a rival whose bound reaches the maximum, with every rival before it below it, is the first rival to reach it |
| Solver.WorstRival | app.js:160-162 | the entry the stable sort puts first names a rival, its bound, a bound no rival exceeds, and the first rival in key order with that bound |
| Solver.Others | app.js:63 | the rivals are exactly the other clubs |
| Solver.Explain | app.js:155-164 | the reason names a rival and its bound, which is the largest rival bound, and the rival is the first in key order with that bound; the generic message is used exactly when there are no rivals |
| Solver.PlanFinishesFirst | app.js:137-150 | a plan built from a solution follows the fixtures and leaves the club on its maximum, strictly above every rival |
| Solver.SimulateForClub | app.js:53-165 | the result is sound for every budget (see above); a fallback names the first rival in key order with the largest bound; with no budget it is never "possible"; with some budget it is always "possible" when there are no rivals, and when no fixtures remain and the club is strictly first |
| Solver.RecordClub | app.js:46-49 | running one more club records its result and keeps the result map sound |
| Solver.AllSoundUpdate | app.js:46-49 | recording one more sound result keeps the map sound |
| Solver.SimulateAll | app.js:43-51 | clubs are taken in non-increasing points order; each club's run has its own clock budget; there is one sound result per club |
| Solver.KeyLookupByIdentity | app.js:145 | when no fixture is listed twice, the lookup by (date, home, away) finds the same outcome as the lookup by fixture identity |
| Solver.PlanByKeyByIdentity | app.js:139-149 | when no fixture is listed twice, the plan built with the lookup as written equals the plan built by identity |
| Solver.DuplicateFixtureSolved | app.js:107-112 | with two identical fixtures B-C, the solution made of the first outcome tried at each step (home, then away) keeps B and C on 3 and A on 4, so A is strictly first; that the search returns this solution is a hand trace of lines 92-132, not a proved fact |
| Solver.DuplicateFixtureMisreported | app.js:145 | looking the outcome up by (date, home, away) gives both lines a home win; replayed, B reaches 6 and A is no longer first |
| Solver.DuplicateFixtureByIdentity | app.js:145 | looking the outcome up by fixture identity gives a plan that keeps A first |
| Parse.HeaderMode | app2.js:10-14 | a header opens the league, tier, fixtures or no section; tier sections exist only in the second script |
| Parse.ReadSections | app.js:14-39 | fixtures, points and tiers are exactly what the lines give: the fixtures read under a current date, in order; each club's last listed points, or 0 if only a fixture named it; each club's last tier; the clubs in key order, each at the first line that names it |
| Parse.KeysReadGrow | app.js:23-36 | key order is never changed by later lines: the keys after some lines are a prefix of the keys after more lines |
| Parse.ReadLine | app2.js:8-33 | reading one line keeps the section, the current date, the parsed contents and the key order equal to what the first lines give |
| Parse.LineIgnored | app.js:21-25 | a header, a date line, or a line the section does not use changes nothing parsed and adds no key |
| Parse.StandingRead | app.js:23 | a league line sets its club's points, and a later line overrides an earlier one; the club becomes the last key unless it is one already |
| Parse.TiersRead | app2.js:24 | a tier line gives every club it names that tier |
| Parse.FixtureRead | app.js:32-36 | a pairing under a current date appends its fixture and creates missing clubs with 0 points, home before away, as the last keys |
| Parse.AddFixture | app.js:33-36 | the fixture is appended; unseen sides are added with 0 points, home then away, at the end of the key order; existing points are kept |
| Parse.SetTiers | app2.js:24 | every named club gets the tier; other tiers are kept |
| Parse.DefaultTiers | app2.js:35 | every club without a tier gets 2; given tiers are kept; the tier read for any club is unchanged |
| Parse.NoTiersWithout | app.js:15-19 | the first script never records a tier |
| Parse.ParseSim | app.js:8-41 | the table, its key order and the fixtures are exactly what the lines give, with no tiers |
| Parse.ParseSim2 | app2.js:4-37 | the table, its key order and the fixtures are what the lines give; every club in the table has a tier, its last given tier or 2 |

## Left out

- DOM and UI wiring are not modelled: `byId`, event listeners, HTML and table building, `renderPredicted`, and the page handlers.
- File and network input are not modelled: `fetch`, `FileReader` and `alert`.
- `performance.now()` is replaced by a budget of clock readings (`Search.budget`). Each `dfs` call reads the clock once. Soundness is proved for every budget.
- `Math.random()` is replaced by one draw per match, in hundredths (0 to 9999). The percentages become integer hundredths, and `r < p` on reals becomes the same test on `floor(100 * r)`. The unused initial table of `pickOutcomeByTier` is dropped, since both branches overwrite it.
- SVG chart geometry is not modelled, because it is floating point.
- Regular expressions are not modelled. Each line arrives classified as a header (with the words it contains) or as a body line (with the standing, tier list, date or pairing it matches). A blank line is a body line that matches nothing. The first script's blank-line filter and the second's skip of empty lines therefore change nothing.
- `window._lastParsed` is not modelled. The projection receives the parsed table as a parameter.
- Reason and explain strings are kept as tagged data (`Solver.Reason`).
- `localeCompare` is replaced by code-point order on names (`Ordering.NameLe`).
- The key order of JavaScript objects is modelled as a sequence of distinct clubs. Integer-like keys, which JavaScript lists first, are not treated specially.
- Solver.SimulateForClub: the code returns the same fallback result whether the search ran out of time or explored every branch, and the model follows the code. No answer separates "no scenario exists" from "the search ran out of time".
- Solver.SimulateForClub: completeness is not claimed, and cannot be. The try order `[away, draw, away]` never tries a home win when home leads, so a fallback answer does not prove that no scenario exists.
- Solver.OrderFree: states a permutation ordered by non-increasing stake. The order among fixtures with equal stakes, which a stable JavaScript sort keeps as input order, is not stated.
- Solver.SimulateAll: the order among clubs with equal points, which the stable sort keeps as key order, is not stated.
- Malformed fixtures are not rejected, as in the code. A fixture whose two sides are the same club is accepted, and clubs that only fixtures name are created with 0 points.
- Solver.BuildPlan: the plan, and so the plan `Solver.SimulateForClub` returns, looks each outcome up by fixture identity (see Findings). When a fixture is listed twice, the page instead shows the plan `Solver.PlanByKey` builds with the lookup by (date, home, away). `Solver.PlanByKeyByIdentity` proves the two plans equal whenever no fixture is listed twice.
- Copying the inputs (`{...teamsPointsOrig}`, `matchesOrig.map(...)`, `{...parsed.teams}`) and not mutating the caller's maps hold automatically, because the model passes values.

## Findings

| source | as written | input that shows it | evidently intended | confidence | as-written member | corrected member |
|---|---|---|---|---|---|---|
| app.js:145 | each plan line looks up the searched outcome by (date, home, away), so every copy of a repeated fixture gets the first copy's outcome | table A:4, B:0, C:0; fixtures (d, B, C) twice; target A. By a hand trace of the search, it picks home then away, leaving B:3, C:3; the plan reports two home wins and B reaches 6 | each plan line carries the outcome the search chose for that very fixture | not executed | Solver.DuplicateFixtureMisreported | Solver.PlanFinishesFirst |
