/** The tier-based predictor of app2.js: outcome probabilities by tier,
    sampling, the matchday-by-matchday simulation with standings snapshots,
    and the final table. `Math.random()` is replaced by a list of draws, one
    per match in the order the script plays them. */
module Sampler {
  import opened League
  import opened Ordering
  import opened Projection

  /** Outcome probabilities in hundredths of a percent (33.33% is 3333). */
  datatype Chances = Chances(home: int, draw: int, away: int)

  /** The probability table of `pickOutcomeByTier` (lines 41-57): level
      tiers give 33.33 / 33.34 / 33.33; otherwise the stronger (lower) tier
      wins 50% against a side two or more tiers weaker and 45% against one
      tier weaker, draws are 20%, and the weaker side wins the rest. */
  function TierChances(homeTier: int, awayTier: int): (c: Chances)
    ensures c.home + c.draw + c.away == 10000
    ensures 0 <= c.home && 0 <= c.draw && 0 <= c.away
    ensures c.draw == if homeTier == awayTier then 3334 else 2000
  {
    var d := homeTier - awayTier;
    if d == 0 then Chances(3333, 3334, 3333)
    else
      var homeStronger := d < 0;
      var strongerTier := if homeTier < awayTier then homeTier else awayTier;
      var weakerTier := if homeTier < awayTier then awayTier else homeTier;
      var diff := weakerTier - strongerTier;
      var strongWin := if diff >= 2 then 5000 else 4500;
      var drawP := 2000;
      var strongLose := if diff >= 2 then 3000 else 3500;
      if homeStronger then Chances(strongWin, drawP, strongLose)
      else Chances(strongLose, drawP, strongWin)
  }

  /** Swapping the sides swaps the home and away chances. */
  lemma TierChancesMirror(homeTier: int, awayTier: int)
    ensures TierChances(awayTier, homeTier)
         == Chances(TierChances(homeTier, awayTier).away, TierChances(homeTier, awayTier).draw,
                    TierChances(homeTier, awayTier).home)
  {
  }

  /** The stronger (lower) tier is favoured, level tiers are even, and the
      favourite's margin depends on the tier gap. */
  lemma TierChancesFavour(homeTier: int, awayTier: int)
    ensures TierChances(homeTier, awayTier).home > TierChances(homeTier, awayTier).away <==> homeTier < awayTier
    ensures TierChances(homeTier, awayTier).home == TierChances(homeTier, awayTier).away <==> homeTier == awayTier
    ensures homeTier <= awayTier - 2 ==> TierChances(homeTier, awayTier).home == 5000
    ensures homeTier == awayTier - 1 ==> TierChances(homeTier, awayTier).home == 4500
  {
  }

  /** `pickOutcomeByTier(homeTier, awayTier)` with the random number
      `Math.random() * 100` given as `r` hundredths. Every draw in range gets
      exactly one outcome: home below the home chance, draw in the next band
      of the draw chance's width, away in the band above, which reaches the
      end of the range (lines 58-61). */
  function PickOutcomeByTier(homeTier: int, awayTier: int, r: nat): (o: Outcome)
    requires r < 10000
    ensures var c := TierChances(homeTier, awayTier);
      && (o == Home <==> r < c.home)
      && (o == Draw <==> c.home <= r < c.home + c.draw)
      && (o == Away <==> c.home + c.draw <= r < 10000)
  {
    var c := TierChances(homeTier, awayTier);
    if r < c.home then Home
    else if r < c.home + c.draw then Draw
    else Away
  }

  /** Number of draws below `n` that land on outcome `o`. */
  function Hits(homeTier: int, awayTier: int, o: Outcome, n: nat): nat
    requires n <= 10000
  {
    if n == 0 then 0
    else Hits(homeTier, awayTier, o, n - 1) + (if PickOutcomeByTier(homeTier, awayTier, n - 1) == o then 1 else 0)
  }

  function Min(a: int, b: int): int { if a < b then a else b }
  function Max(a: int, b: int): int { if a < b then b else a }

  /** Among the first `n` draws, the home bucket takes the first `home`, the
      draw bucket the next `draw`, and the away bucket the rest. */
  lemma {:induction false} HitsPrefix(homeTier: int, awayTier: int, n: nat)
    requires n <= 10000
    ensures var c := TierChances(homeTier, awayTier);
      && Hits(homeTier, awayTier, Home, n) == Min(n, c.home)
      && Hits(homeTier, awayTier, Draw, n) == Max(0, Min(n, c.home + c.draw) - c.home)
      && Hits(homeTier, awayTier, Away, n) == Max(0, n - (c.home + c.draw))
  {
    if n > 0 {
      HitsPrefix(homeTier, awayTier, n - 1);
    }
  }

  /** Each outcome is picked for exactly as many of the 10000 equally likely
      draws as its table entry says: the sampling realises the table. */
  lemma OutcomeShares(homeTier: int, awayTier: int)
    ensures Hits(homeTier, awayTier, Home, 10000) == TierChances(homeTier, awayTier).home
    ensures Hits(homeTier, awayTier, Draw, 10000) == TierChances(homeTier, awayTier).draw
    ensures Hits(homeTier, awayTier, Away, 10000) == TierChances(homeTier, awayTier).away
  {
    HitsPrefix(homeTier, awayTier, 10000);
  }

  /** `tiers[c] || 2`: a club without a tier, or with tier 0, plays as tier 2. */
  function TierOf(tiers: map<Club, int>, c: Club): (t: int)
    ensures c in tiers && tiers[c] != 0 ==> t == tiers[c]
    ensures !(c in tiers && tiers[c] != 0) ==> t == 2
  {
    if c in tiers && tiers[c] != 0 then tiers[c] else 2
  }

  /** One simulated match as the script records it. */
  datatype MatchResult = MatchResult(date: string, home: Club, away: Club, outcome: Outcome)

  /** Standings after one matchday. */
  datatype Snapshot = Snapshot(date: string, standings: seq<Standing>)

  function AsEntry(r: MatchResult): PlanEntry {
    PlanEntry(r.date, r.home, r.away, Some(Picked(r.outcome)))
  }

  function AsEntries(results: seq<MatchResult>): (plan: seq<PlanEntry>)
    ensures |plan| == |results|
    ensures forall k :: 0 <= k < |results| ==> plan[k] == AsEntry(results[k])
  {
    if results == [] then []
    else AsEntries(results[..|results| - 1]) + [AsEntry(results[|results| - 1])]
  }

  lemma {:induction false} AsEntriesAppend(a: seq<MatchResult>, b: seq<MatchResult>)
    ensures AsEntries(a + b) == AsEntries(a) + AsEntries(b)
  {
    if b == [] {
      assert a + b == a;
    } else {
      var b' := b[..|b| - 1];
      assert (a + b)[..|a + b| - 1] == a + b';
      AsEntriesAppend(a, b');
    }
  }

  /** The match dates in order of first appearance (`Object.keys(byDate)`;
      a date label always contains a space, so no key is integer-like and
      insertion order is kept). */
  function DatesOf(ms: seq<Fixture>): seq<string> {
    if ms == [] then []
    else
      var ds := DatesOf(ms[..|ms| - 1]);
      if ms[|ms| - 1].date in ds then ds else ds + [ms[|ms| - 1].date]
  }

  /** Every date appears once, and exactly the dates of some match appear. */
  lemma {:induction false} DatesOfFacts(ms: seq<Fixture>)
    ensures Distinct(DatesOf(ms))
    ensures forall d :: d in DatesOf(ms) <==> exists m :: m in ms && m.date == d
  {
    if ms != [] {
      var init := ms[..|ms| - 1];
      DatesOfFacts(init);
      assert ms == init + [ms[|ms| - 1]];
      assert forall m :: m in ms <==> m in init || m == ms[|ms| - 1];
    }
  }

  /** `byDate[d]`: the matches on date `d`, in input order. */
  function OnDate(ms: seq<Fixture>, d: string): seq<Fixture> {
    if ms == [] then []
    else OnDate(ms[..|ms| - 1], d) + (if ms[|ms| - 1].date == d then [ms[|ms| - 1]] else [])
  }

  /** The matches of the listed dates, date by date. */
  function Gather(ms: seq<Fixture>, ds: seq<string>): seq<Fixture> {
    if ds == [] then [] else Gather(ms, ds[..|ds| - 1]) + OnDate(ms, ds[|ds| - 1])
  }

  /** The order in which the simulation plays the matches. */
  function Played(ms: seq<Fixture>): seq<Fixture> {
    Gather(ms, DatesOf(ms))
  }

  /** How many matches have been played once matchday `j` is over. */
  function DayEnd(ms: seq<Fixture>, j: nat): nat
    requires j < |DatesOf(ms)|
  {
    |Gather(ms, DatesOf(ms)[..j + 1])|
  }

  lemma GatherNext(ms: seq<Fixture>, ds: seq<string>, j: nat)
    requires j < |ds|
    ensures Gather(ms, ds[..j + 1]) == Gather(ms, ds[..j]) + OnDate(ms, ds[j])
  {
    assert ds[..j + 1][..j] == ds[..j];
  }

  /** Appending a match to the input adds it once to the gathered list when
      its date is listed once. */
  lemma {:induction false} GatherSnoc(ms: seq<Fixture>, m: Fixture, ds: seq<string>)
    requires Distinct(ds)
    ensures multiset(Gather(ms + [m], ds))
         == multiset(Gather(ms, ds)) + (if m.date in ds then multiset{m} else multiset{})
  {
    if ds != [] {
      var init := ds[..|ds| - 1];
      var d := ds[|ds| - 1];
      assert ds == init + [d];
      assert (ms + [m])[..|ms|] == ms;
      GatherSnoc(ms, m, init);
      assert m.date in ds <==> m.date in init || m.date == d;
    }
  }

  /** Gathering over a list naming every date once yields every match once. */
  lemma {:induction false} GatherIsPermutation(ms: seq<Fixture>, ds: seq<string>)
    requires Distinct(ds)
    requires forall m :: m in ms ==> m.date in ds
    ensures multiset(Gather(ms, ds)) == multiset(ms)
  {
    if ms == [] {
      EmptyGather(ds);
    } else {
      var init := ms[..|ms| - 1];
      var m := ms[|ms| - 1];
      assert ms == init + [m];
      GatherIsPermutation(init, ds);
      GatherSnoc(init, m, ds);
    }
  }

  lemma {:induction false} EmptyGather(ds: seq<string>)
    ensures Gather([], ds) == []
  {
    if ds != [] {
      EmptyGather(ds[..|ds| - 1]);
    }
  }

  /** Every match is played exactly once. */
  lemma PlayedIsPermutation(ms: seq<Fixture>)
    ensures multiset(Played(ms)) == multiset(ms)
    ensures |Played(ms)| == |ms|
  {
    DatesOfFacts(ms);
    GatherIsPermutation(ms, DatesOf(ms));
    assert |multiset(Played(ms))| == |multiset(ms)|;
  }

  /** Lines 69-71: group the matches by date, remembering the order in which
      dates first appear. */
  method GroupByDate(ms: seq<Fixture>) returns (dates: seq<string>, byDate: map<string, seq<Fixture>>)
    ensures dates == DatesOf(ms)
    ensures forall d :: d in byDate <==> d in dates
    ensures forall d :: d in byDate ==> byDate[d] == OnDate(ms, d)
  {
    dates := [];
    byDate := map[];
    for i := 0 to |ms|
      invariant dates == DatesOf(ms[..i])
      invariant forall d :: d in byDate <==> d in dates
      invariant forall d :: d in byDate ==> byDate[d] == OnDate(ms[..i], d)
    {
      var m := ms[i];
      assert ms[..i + 1][..i] == ms[..i];
      DatesOfFacts(ms[..i]);
      forall d | d !in dates ensures OnDate(ms[..i], d) == [] {
        OnDateAbsent(ms[..i], d);
      }
      if m.date !in byDate {
        byDate := byDate[m.date := []];
        dates := dates + [m.date];
      }
      byDate := byDate[m.date := byDate[m.date] + [m]];
    }
    assert ms[..|ms|] == ms;
  }

  /** A date with no match has no matches. */
  lemma {:induction false} OnDateAbsent(ms: seq<Fixture>, d: string)
    requires d !in DatesOf(ms)
    ensures OnDate(ms, d) == []
  {
    DatesOfFacts(ms);
    if ms != [] {
      assert ms[|ms| - 1] in ms;
      var init := ms[..|ms| - 1];
      assert forall m :: m in init ==> m in ms;
      DatesOfFacts(init);
      OnDateAbsent(init, d);
    }
  }

  /** The record line 81 makes for match `m` and draw `r`. */
  function Simulated(tiers: map<Club, int>, m: Fixture, r: nat): MatchResult
    requires r < 10000
  {
    MatchResult(m.date, m.home, m.away,
                PickOutcomeByTier(TierOf(tiers, m.home), TierOf(tiers, m.away), r))
  }

  /** `Object.entries(teams).map(([team, pts]) => ({team, pts}))`. */
  function Table(clubs: seq<Club>, p: map<Club, int>): seq<Standing> {
    seq(|clubs|, i requires 0 <= i < |clubs| => Standing(clubs[i], Pts(p, clubs[i])))
  }

  function StandingKey(s: Standing): Standing { s }

  /** Replaying one more result awards its outcome to its fixture. */
  lemma PlayOne(p: map<Club, int>, rs: seq<MatchResult>, r: MatchResult)
    ensures Projected(p, AsEntries(rs + [r]))
         == Award(Projected(p, AsEntries(rs)), FixtureOf(AsEntry(r)), r.outcome)
  {
    assert (rs + [r])[..|rs|] == rs;
    var plan := AsEntries(rs + [r]);
    assert plan == AsEntries(rs) + [AsEntry(r)];
    assert plan[..|plan| - 1] == AsEntries(rs);
  }

  /** Lines 72-82 for one date: play its matches in order, each with the
      next draw. */
  method PlayDay(tiers: map<Club, int>, d: string, dayMatches: seq<Fixture>, draws: seq<nat>,
                 clubs: seq<Club>, points: map<Club, int>)
    returns (dayResults: seq<MatchResult>, after: map<Club, int>)
    requires |draws| == |dayMatches| && DrawsInRange(draws)
    requires forall m :: m in dayMatches ==> m.date == d && m.home in clubs && m.away in clubs
    requires Keyed(clubs, points)
    ensures |dayResults| == |dayMatches|
    ensures AllPlayed(tiers, dayMatches, draws, dayResults)
    ensures after == Projected(points, AsEntries(dayResults))
    ensures Keyed(clubs, after)
  {
    dayResults := [];
    after := points;
    for i := 0 to |dayMatches|
      invariant |dayResults| == i
      invariant forall k :: 0 <= k < i ==> ResultAt(tiers, dayMatches, draws, dayResults, k)
      invariant after == Projected(points, AsEntries(dayResults))
      invariant Keyed(clubs, after)
    {
      var m := dayMatches[i];
      assert m in dayMatches;
      var ht := TierOf(tiers, m.home);
      var at := TierOf(tiers, m.away);
      var out := PickOutcomeByTier(ht, at, draws[i]);
      var r := MatchResult(d, m.home, m.away, out);
      assert r == Simulated(tiers, m, draws[i]);
      PlayStep(clubs, points, dayResults, after, m, r);
      after := Award(after, m, out);
      ResultsExtend(tiers, dayMatches, draws, dayResults, r);
      dayResults := dayResults + [r];
    }
  }

  lemma ResultsExtend(tiers: map<Club, int>, ms: seq<Fixture>, draws: seq<nat>, rs: seq<MatchResult>, r: MatchResult)
    requires |rs| < |ms| && |rs| < |draws| && draws[|rs|] < 10000
    requires forall k :: 0 <= k < |rs| ==> ResultAt(tiers, ms, draws, rs, k)
    requires r == Simulated(tiers, ms[|rs|], draws[|rs|])
    ensures forall k :: 0 <= k < |rs| + 1 ==> ResultAt(tiers, ms, draws, rs + [r], k)
  {
    forall k | 0 <= k < |rs| + 1 ensures ResultAt(tiers, ms, draws, rs + [r], k) {
      if k < |rs| { assert ResultAt(tiers, ms, draws, rs, k); }
    }
  }

  /** Playing result `r` of fixture `m` moves the table on by that result. */
  lemma PlayStep(clubs: seq<Club>, points: map<Club, int>, rs: seq<MatchResult>, after: map<Club, int>,
                 m: Fixture, r: MatchResult)
    requires Keyed(clubs, after) && m.home in clubs && m.away in clubs
    requires after == Projected(points, AsEntries(rs))
    requires r.date == m.date && r.home == m.home && r.away == m.away
    ensures Award(after, m, r.outcome) == Projected(points, AsEntries(rs + [r]))
    ensures Keyed(clubs, Award(after, m, r.outcome))
  {
    assert FixtureOf(AsEntry(r)) == m;
    PlayOne(points, rs, r);
  }

  /** Snapshot `snap` is the standings after matchday `j`: the table replayed
      up to the end of that date, sorted by points and then name. */
  ghost predicate SnapshotAfter(clubs: seq<Club>, teams: map<Club, int>, ms: seq<Fixture>,
                                results: seq<MatchResult>, snap: Snapshot, j: nat) {
    && j < |DatesOf(ms)|
    && snap.date == DatesOf(ms)[j]
    && DayEnd(ms, j) <= |results|
    && Ranked(snap.standings, StandingKey)
    && multiset(snap.standings) == multiset(Table(clubs, Projected(teams, AsEntries(results[..DayEnd(ms, j)]))))
  }

  /** Later results do not change an earlier snapshot's meaning. */
  lemma SnapshotKept(clubs: seq<Club>, teams: map<Club, int>, ms: seq<Fixture>,
                     results: seq<MatchResult>, more: seq<MatchResult>, snap: Snapshot, j: nat)
    requires SnapshotAfter(clubs, teams, ms, results, snap, j)
    ensures SnapshotAfter(clubs, teams, ms, results + more, snap, j)
  {
    assert (results + more)[..DayEnd(ms, j)] == results[..DayEnd(ms, j)];
  }

  /** The results so far are the played matches with their draws. */
  ghost predicate PlayedWith(tiers: map<Club, int>, played: seq<Fixture>, draws: seq<nat>, results: seq<MatchResult>) {
    && |results| == |played| <= |draws|
    && (forall k :: 0 <= k < |draws| ==> draws[k] < 10000)
    && AllPlayed(tiers, played, draws, results)
  }

  /** Every result so far is its fixture played with its draw. */
  ghost predicate AllPlayed(tiers: map<Club, int>, played: seq<Fixture>, draws: seq<nat>, results: seq<MatchResult>) {
    forall k :: 0 <= k < |results| ==> ResultAt(tiers, played, draws, results, k)
  }

  /** Every draw is a number of hundredths of a percent below 100%. */
  predicate DrawsInRange(draws: seq<nat>) {
    forall k :: 0 <= k < |draws| ==> draws[k] < 10000
  }

  /** Result `k` is fixture `k` played with draw `k`. */
  ghost predicate ResultAt(tiers: map<Club, int>, played: seq<Fixture>, draws: seq<nat>,
                           results: seq<MatchResult>, k: nat) {
    k < |results| && k < |played| && k < |draws| && draws[k] < 10000
    && results[k] == Simulated(tiers, played[k], draws[k])
  }

  /** Playing a day's matches with the next draws extends the record. */
  lemma PlayedExtend(tiers: map<Club, int>, played: seq<Fixture>, draws: seq<nat>, results: seq<MatchResult>,
                     day: seq<Fixture>, dayResults: seq<MatchResult>)
    requires PlayedWith(tiers, played, draws, results)
    requires |played| + |day| <= |draws|
    requires |dayResults| == |day|
    requires AllPlayed(tiers, day, draws[|results| .. |results| + |dayResults|], dayResults)
    ensures PlayedWith(tiers, played + day, draws, results + dayResults)
  {
    forall k | 0 <= k < |results| + |day|
      ensures ResultAt(tiers, played + day, draws, results + dayResults, k)
    {
      if k < |results| {
        assert ResultAt(tiers, played, draws, results, k);
      } else {
        assert ResultAt(tiers, day, draws[|results| .. |results| + |dayResults|], dayResults, k - |results|);
        assert draws[|results| .. |results| + |dayResults|][k - |results|] == draws[k];
      }
    }
  }

  /** One pass of the date loop keeps the simulation's bookkeeping: the
      record of played matches, the table, and one snapshot per date so far. */
  lemma DayStep(clubs: seq<Club>, teams: map<Club, int>, tiers: map<Club, int>, matches: seq<Fixture>,
                draws: seq<nat>, j: nat, played: seq<Fixture>, results: seq<MatchResult>,
                dayResults: seq<MatchResult>, after: map<Club, int>)
    requires j < |DatesOf(matches)|
    requires played == Gather(matches, DatesOf(matches)[..j])
    requires PlayedWith(tiers, played, draws, results)
    requires |played| + |OnDate(matches, DatesOf(matches)[j])| <= |draws|
    requires |dayResults| == |OnDate(matches, DatesOf(matches)[j])|
    requires AllPlayed(tiers, OnDate(matches, DatesOf(matches)[j]), draws[|results| .. |results| + |dayResults|], dayResults)
    requires after == Projected(Projected(teams, AsEntries(results)), AsEntries(dayResults))
    ensures played + OnDate(matches, DatesOf(matches)[j]) == Gather(matches, DatesOf(matches)[..j + 1])
    ensures PlayedWith(tiers, played + OnDate(matches, DatesOf(matches)[j]), draws, results + dayResults)
    ensures after == Projected(teams, AsEntries(results + dayResults))
  {
    var dates := DatesOf(matches);
    var day := OnDate(matches, dates[j]);
    GatherNext(matches, dates, j);
    PlayedExtend(tiers, played, draws, results, day, dayResults);
    AsEntriesAppend(results, dayResults);
    ProjectedConcat(teams, AsEntries(results), AsEntries(dayResults));
  }

  /** The snapshot taken at the end of date `j` joins the earlier ones. */
  lemma SnapshotStep(clubs: seq<Club>, teams: map<Club, int>, matches: seq<Fixture>, j: nat,
                     results: seq<MatchResult>, snapshots: seq<Snapshot>, dayResults: seq<MatchResult>,
                     snap: seq<Standing>)
    requires j < |DatesOf(matches)|
    requires |snapshots| == j
    requires forall jj :: 0 <= jj < j ==> SnapshotAfter(clubs, teams, matches, results, snapshots[jj], jj)
    requires DayEnd(matches, j) == |results + dayResults|
    requires Ranked(snap, StandingKey)
    requires multiset(snap) == multiset(Table(clubs, Projected(teams, AsEntries(results + dayResults))))
    ensures forall jj :: 0 <= jj <= j ==>
      SnapshotAfter(clubs, teams, matches, results + dayResults,
                    (snapshots + [Snapshot(DatesOf(matches)[j], snap)])[jj], jj)
  {
    var dates := DatesOf(matches);
    var all := results + dayResults;
    var snaps := snapshots + [Snapshot(dates[j], snap)];
    assert all[..DayEnd(matches, j)] == all;
    forall jj | 0 <= jj <= j
      ensures SnapshotAfter(clubs, teams, matches, all, snaps[jj], jj)
    {
      if jj < j {
        assert snaps[jj] == snapshots[jj];
        SnapshotKept(clubs, teams, matches, results, dayResults, snapshots[jj], jj);
      }
    }
  }

  /** Matchday `j` fits in what is left of the input, and its matches are
      between known clubs. */
  lemma DayFacts(clubs: seq<Club>, teams: map<Club, int>, matches: seq<Fixture>, j: nat)
    requires WellFormed(clubs, teams, matches)
    requires j < |DatesOf(matches)|
    ensures |Gather(matches, DatesOf(matches)[..j])| + |OnDate(matches, DatesOf(matches)[j])| <= |matches|
    ensures forall m :: m in OnDate(matches, DatesOf(matches)[j]) ==>
      m.date == DatesOf(matches)[j] && m.home in clubs && m.away in clubs
  {
    var dates := DatesOf(matches);
    GatherNext(matches, dates, j);
    GatherLength(matches, dates[..j + 1], dates);
    OnDateFacts(matches, dates[j]);
  }

  /** The state of `simulateProb` once the first `j` dates are played: the
      matches of those dates in order with their draws, the table they give,
      and one snapshot per date. */
  ghost predicate SimulatedThrough(clubs: seq<Club>, teams: map<Club, int>, tiers: map<Club, int>,
                                   matches: seq<Fixture>, draws: seq<nat>, j: nat,
                                   results: seq<MatchResult>, points: map<Club, int>,
                                   snapshots: seq<Snapshot>) {
    && j <= |DatesOf(matches)|
    && PlayedWith(tiers, Gather(matches, DatesOf(matches)[..j]), draws, results)
    && points == Projected(teams, AsEntries(results))
    && Keyed(clubs, points)
    && |snapshots| == j
    && forall jj :: 0 <= jj < j ==> SnapshotAfter(clubs, teams, matches, results, snapshots[jj], jj)
  }

  /** Playing date `j` and recording its sorted standings moves the state
      from `j` dates played to `j + 1`. */
  lemma DateStep(clubs: seq<Club>, teams: map<Club, int>, tiers: map<Club, int>,
                 matches: seq<Fixture>, draws: seq<nat>, j: nat,
                 results: seq<MatchResult>, points: map<Club, int>, snapshots: seq<Snapshot>,
                 dayResults: seq<MatchResult>, after: map<Club, int>, snap: seq<Standing>)
    requires WellFormed(clubs, teams, matches) && |draws| == |matches|
    requires j < |DatesOf(matches)|
    requires SimulatedThrough(clubs, teams, tiers, matches, draws, j, results, points, snapshots)
    requires |dayResults| == |OnDate(matches, DatesOf(matches)[j])|
    requires |results| + |dayResults| <= |draws|
    requires AllPlayed(tiers, OnDate(matches, DatesOf(matches)[j]), draws[|results| .. |results| + |dayResults|], dayResults)
    requires after == Projected(points, AsEntries(dayResults)) && Keyed(clubs, after)
    requires Ranked(snap, StandingKey) && multiset(snap) == multiset(Table(clubs, after))
    ensures SimulatedThrough(clubs, teams, tiers, matches, draws, j + 1, results + dayResults, after,
                             snapshots + [Snapshot(DatesOf(matches)[j], snap)])
  {
    var played := Gather(matches, DatesOf(matches)[..j]);
    DayStep(clubs, teams, tiers, matches, draws, j, played, results, dayResults, after);
    SnapshotStep(clubs, teams, matches, j, results, snapshots, dayResults, snap);
  }

  /** What playing date `j` needs: its matches fit in the draws that are
      left, those draws are in range, and its clubs are in the table. */
  lemma DateReady(clubs: seq<Club>, teams: map<Club, int>, tiers: map<Club, int>,
                  matches: seq<Fixture>, draws: seq<nat>, j: nat,
                  results: seq<MatchResult>, dayMatches: seq<Fixture>)
    requires WellFormed(clubs, teams, matches) && |draws| == |matches|
    requires j < |DatesOf(matches)| && dayMatches == OnDate(matches, DatesOf(matches)[j])
    requires PlayedWith(tiers, Gather(matches, DatesOf(matches)[..j]), draws, results)
    ensures |results| + |dayMatches| <= |draws|
    ensures DrawsInRange(draws[|results|..|results| + |dayMatches|])
    ensures forall m :: m in dayMatches ==> m.date == DatesOf(matches)[j] && m.home in clubs && m.away in clubs
  {
    DayFacts(clubs, teams, matches, j);
    var dayDraws := draws[|results|..|results| + |dayMatches|];
    forall k | 0 <= k < |dayDraws| ensures dayDraws[k] < 10000 {
      assert dayDraws[k] == draws[|results| + k];
    }
  }

  /** Lines 72-85 for date `j`: play its matches, then record the sorted
      standings. */
  method PlayDate(clubs: seq<Club>, teams: map<Club, int>, tiers: map<Club, int>,
                  matches: seq<Fixture>, draws: seq<nat>, j: nat, dayMatches: seq<Fixture>,
                  results: seq<MatchResult>, points: map<Club, int>, snapshots: seq<Snapshot>)
    returns (results': seq<MatchResult>, points': map<Club, int>, snapshots': seq<Snapshot>)
    requires WellFormed(clubs, teams, matches)
    requires |draws| == |matches|
    requires j < |DatesOf(matches)| && dayMatches == OnDate(matches, DatesOf(matches)[j])
    requires SimulatedThrough(clubs, teams, tiers, matches, draws, j, results, points, snapshots)
    ensures SimulatedThrough(clubs, teams, tiers, matches, draws, j + 1, results', points', snapshots')
  {
    var d := DatesOf(matches)[j];
    DateReady(clubs, teams, tiers, matches, draws, j, results, dayMatches);
    var dayDraws := draws[|results|..|results| + |dayMatches|];
    var dayResults, after := PlayDay(tiers, d, dayMatches, dayDraws, clubs, points);
    var snap := SortStandings(Table(clubs, after), StandingKey);
    assert dayDraws == draws[|results| .. |results| + |dayResults|];
    DateStep(clubs, teams, tiers, matches, draws, j, results, points, snapshots, dayResults, after, snap);
    results' := results + dayResults;
    points' := after;
    snapshots' := snapshots + [Snapshot(d, snap)];
  }

  /** `simulateProb(parsed)` (lines 64-89). */
  method SimulateProb(clubs: seq<Club>, teams: map<Club, int>, tiers: map<Club, int>,
                      matches: seq<Fixture>, draws: seq<nat>)
    returns (results: seq<MatchResult>, snapshots: seq<Snapshot>, final: map<Club, int>)
    requires WellFormed(clubs, teams, matches)
    requires |draws| == |matches| && forall k :: 0 <= k < |draws| ==> draws[k] < 10000
    ensures |results| == |Played(matches)| == |matches|
    ensures multiset(Played(matches)) == multiset(matches)
    ensures forall k :: 0 <= k < |results| ==> results[k] == Simulated(tiers, Played(matches)[k], draws[k])
    ensures final == Projected(teams, AsEntries(results))
    ensures Keyed(clubs, final)
    ensures |snapshots| == |DatesOf(matches)|
    ensures forall j :: 0 <= j < |snapshots| ==> SnapshotAfter(clubs, teams, matches, results, snapshots[j], j)
  {
    var dates, byDate := GroupByDate(matches);
    var points := teams;
    results := [];
    snapshots := [];
    assert dates[..0] == [];
    for j := 0 to |dates|
      invariant SimulatedThrough(clubs, teams, tiers, matches, draws, j, results, points, snapshots)
    {
      results, points, snapshots := PlayDate(clubs, teams, tiers, matches, draws, j, byDate[dates[j]],
                                             results, points, snapshots);
    }
    assert dates[..|dates|] == dates;
    PlayedIsPermutation(matches);
    forall k | 0 <= k < |results|
      ensures results[k] == Simulated(tiers, Played(matches)[k], draws[k])
    {
      assert ResultAt(tiers, Played(matches), draws, results, k);
    }
    final := points;
  }

  /** The matches of a date all carry it and come from the input. */
  lemma {:induction false} OnDateFacts(ms: seq<Fixture>, d: string)
    ensures forall m :: m in OnDate(ms, d) ==> m in ms && m.date == d
  {
    if ms != [] {
      OnDateFacts(ms[..|ms| - 1], d);
      assert forall m :: m in ms[..|ms| - 1] ==> m in ms;
    }
  }

  /** A prefix of the date list gathers no more than the whole list. */
  lemma GatherLength(ms: seq<Fixture>, pre: seq<string>, ds: seq<string>)
    requires pre <= ds
    requires ds == DatesOf(ms)
    ensures |Gather(ms, pre)| <= |ms|
  {
    DatesOfFacts(ms);
    GatherPrefix(ms, pre, ds);
    PlayedIsPermutation(ms);
    assert |multiset(Gather(ms, ds))| == |multiset(ms)|;
  }

  /** Gathering a prefix of the dates yields a prefix of the gathered list. */
  lemma {:induction false} GatherPrefix(ms: seq<Fixture>, pre: seq<string>, ds: seq<string>)
    requires pre <= ds
    ensures |Gather(ms, pre)| <= |Gather(ms, ds)|
    decreases |ds|
  {
    if |pre| < |ds| {
      var init := ds[..|ds| - 1];
      assert pre <= init;
      GatherPrefix(ms, pre, init);
    } else {
      assert pre == ds;
    }
  }

  /** `renderFinal(parsed, finalTeams)` without the DOM (lines 110-119): the
      simulated results counted into W/D/L records and sorted. */
  method FinalTable(clubs: seq<Club>, teams: map<Club, int>, final: map<Club, int>, results: seq<MatchResult>)
    returns (rows: seq<TableRow>)
    requires Keyed(clubs, teams)
    requires forall r :: r in results ==> r.home in teams && r.away in teams
    ensures Ranked(rows, RowStanding)
    ensures multiset(rows) == multiset(UnsortedRows(clubs, teams, final, AsEntries(results)))
  {
    var plan := AsEntries(results);
    forall e | e in plan ensures e.home in teams && e.away in teams {
      var k :| 0 <= k < |plan| && plan[k] == e;
      assert results[k] in results;
    }
    rows := SortedTable(clubs, teams, final, plan);
  }
}
