/** The scenario projection of app.js (the arithmetic inside `showScenario`):
    replay a plan into final points and win/draw/loss tallies, then sort the
    rows of the final table. */
module Projection {
  import opened League
  import opened Ordering

  /** How a plan settles one fixture: a forced win for the target club, or an
      outcome chosen by the search. */
  datatype Decision = Winner(club: Club) | Picked(outcome: Outcome)

  /** One line of a plan; `decision` is `None` where the plan left the fixture
      undecided. */
  datatype PlanEntry = PlanEntry(date: string, home: Club, away: Club, decision: Option<Decision>)

  function FixtureOf(e: PlanEntry): Fixture {
    Fixture(e.date, e.home, e.away)
  }

  /** Points club `c` receives from plan entry `e`. */
  function EntryGain(e: PlanEntry, c: Club): int {
    match e.decision
    case None => 0
    case Some(Winner(w)) => if c == w then 3 else 0
    case Some(Picked(o)) => Gain(FixtureOf(e), o, c)
  }

  function GainsOf(c: Club): PlanEntry -> int {
    e => EntryGain(e, c)
  }

  /** One step of the replay loop: skip an undecided entry, add 3 to a forced
      winner, or award the picked outcome. */
  function Settle(p: map<Club, int>, e: PlanEntry): (r: map<Club, int>)
    ensures forall c {:trigger Pts(r, c)} :: Pts(r, c) == Pts(p, c) + EntryGain(e, c)
    ensures p.Keys <= r.Keys
  {
    match e.decision
    case None => p
    case Some(Winner(w)) => p[w := Pts(p, w) + 3]
    case Some(Picked(o)) => Award(p, FixtureOf(e), o)
  }

  /** Points after replaying `plan` in order, starting from `p`. Replaying
      never drops a club from the table. */
  function Projected(p: map<Club, int>, plan: seq<PlanEntry>): (r: map<Club, int>)
    ensures p.Keys <= r.Keys
  {
    if plan == [] then p else Settle(Projected(p, plan[..|plan| - 1]), plan[|plan| - 1])
  }

  /** Replaying two plans one after the other is replaying their
      concatenation. */
  lemma {:induction false} ProjectedConcat(p: map<Club, int>, a: seq<PlanEntry>, b: seq<PlanEntry>)
    ensures Projected(p, a + b) == Projected(Projected(p, a), b)
  {
    if b == [] {
      assert a + b == a;
    } else {
      var b' := b[..|b| - 1];
      assert (a + b)[..|a + b| - 1] == a + b';
      ProjectedConcat(p, a, b');
    }
  }

  /** Final points are the starting points plus what every decided entry of
      the plan hands the club. */
  lemma {:induction false} ProjectedGain(p: map<Club, int>, plan: seq<PlanEntry>, c: Club)
    ensures Pts(Projected(p, plan), c) == Pts(p, c) + Sum(plan, GainsOf(c))
  {
    if plan != [] {
      ProjectedGain(p, plan[..|plan| - 1], c);
    }
  }

  /** A forced win for `w` counts as a loss for the other side of the fixture. */
  function Loser(e: PlanEntry, w: Club): Club {
    if w == e.home then e.away else e.home
  }

  function EntryWins(e: PlanEntry, c: Club): int {
    match e.decision
    case None => 0
    case Some(Winner(w)) => if c == w then 1 else 0
    case Some(Picked(o)) =>
      if o == Home then (if c == e.home then 1 else 0)
      else if o == Away then (if c == e.away then 1 else 0)
      else 0
  }

  function EntryDraws(e: PlanEntry, c: Club): int {
    if e.decision == Some(Picked(Draw)) then
      (if c == e.home then 1 else 0) + (if c == e.away then 1 else 0)
    else 0
  }

  function EntryLosses(e: PlanEntry, c: Club): int {
    match e.decision
    case None => 0
    case Some(Winner(w)) => if c == Loser(e, w) then 1 else 0
    case Some(Picked(o)) =>
      if o == Home then (if c == e.away then 1 else 0)
      else if o == Away then (if c == e.home then 1 else 0)
      else 0
  }

  function WinsOf(c: Club): PlanEntry -> int { e => EntryWins(e, c) }
  function DrawsOf(c: Club): PlanEntry -> int { e => EntryDraws(e, c) }
  function LossesOf(c: Club): PlanEntry -> int { e => EntryLosses(e, c) }

  /** Number of decided entries naming `c` as a side (twice if both sides). */
  function Appearances(e: PlanEntry, c: Club): int {
    if e.decision.None? then 0
    else (if c == e.home then 1 else 0) + (if c == e.away then 1 else 0)
  }

  function AppearancesOf(c: Club): PlanEntry -> int { e => Appearances(e, c) }

  /** The row the final table shows for club `c`. */
  function RowFor(teams: map<Club, int>, final: map<Club, int>, plan: seq<PlanEntry>, c: Club): TableRow {
    TableRow(c, Pts(teams, c), Pts(final, c),
             Sum(plan, WinsOf(c)), Sum(plan, DrawsOf(c)), Sum(plan, LossesOf(c)))
  }

  /** The rows of the final table in the table's key order, before sorting. */
  function UnsortedRows(clubs: seq<Club>, teams: map<Club, int>, final: map<Club, int>, plan: seq<PlanEntry>): seq<TableRow> {
    seq(|clubs|, i requires 0 <= i < |clubs| => RowFor(teams, final, plan, clubs[i]))
  }

  /** Every club a decided entry credits is in the table (the replay would
      otherwise index a missing `stats` record). */
  ghost predicate Credited(teams: map<Club, int>, plan: seq<PlanEntry>) {
    forall e :: e in plan ==>
      e.home in teams && e.away in teams &&
      (e.decision.Some? && e.decision.value.Winner? ==> e.decision.value.club in teams)
  }

  /** Every forced winner is one of the two sides of its fixture. */
  ghost predicate WinnersAreSides(plan: seq<PlanEntry>) {
    forall e :: e in plan && e.decision.Some? && e.decision.value.Winner? ==>
      e.decision.value.club == e.home || e.decision.value.club == e.away
  }

  /** One pass of the counting loop (lines 266-283) over entry `e`: bump the
      winner's wins and the loser's losses, or both sides' draws. */
  function Credit(stats: map<Club, TableRow>, e: PlanEntry): (r: map<Club, TableRow>)
    requires e.home in stats && e.away in stats
    requires e.decision.Some? && e.decision.value.Winner? ==> e.decision.value.club in stats
    ensures r.Keys == stats.Keys
    ensures forall c :: c in stats ==>
      r[c] == stats[c].(w := stats[c].w + EntryWins(e, c), d := stats[c].d + EntryDraws(e, c),
                        l := stats[c].l + EntryLosses(e, c))
  {
    match e.decision
    case None => stats
    case Some(Winner(w)) =>
      var loser := Loser(e, w);
      var s := stats[w := stats[w].(w := stats[w].w + 1)];
      s[loser := s[loser].(l := s[loser].l + 1)]
    case Some(Picked(o)) =>
      if o == Home then
        var s := stats[e.home := stats[e.home].(w := stats[e.home].w + 1)];
        s[e.away := s[e.away].(l := s[e.away].l + 1)]
      else if o == Away then
        var s := stats[e.away := stats[e.away].(w := stats[e.away].w + 1)];
        s[e.home := s[e.home].(l := s[e.home].l + 1)]
      else
        var s := stats[e.home := stats[e.home].(d := stats[e.home].d + 1)];
        s[e.away := s[e.away].(d := s[e.away].d + 1)]
  }

  /** Lines 248-258: start from the current points and apply each decision. */
  method ReplayPlan(clubs: seq<Club>, teams: map<Club, int>, plan: seq<PlanEntry>)
    returns (final: map<Club, int>)
    requires Keyed(clubs, teams)
    ensures final == Projected(teams, plan)
  {
    final := map[];
    for i := 0 to |clubs|
      invariant forall c :: c in final <==> c in clubs[..i]
      invariant forall c :: c in final ==> final[c] == teams[c]
    {
      final := final[clubs[i] := Pts(teams, clubs[i])];
    }
    assert clubs[..|clubs|] == clubs;
    assert final == teams;
    for i := 0 to |plan|
      invariant final == Projected(teams, plan[..i])
    {
      assert plan[..i + 1][..i] == plan[..i];
      final := Settle(final, plan[i]);
    }
    assert plan[..|plan|] == plan;
  }

  /** The records after counting the first `i` entries of the plan. */
  ghost predicate CountedThrough(clubs: seq<Club>, teams: map<Club, int>, final: map<Club, int>,
                                 plan: seq<PlanEntry>, i: nat, stats: map<Club, TableRow>)
    requires i <= |plan|
  {
    && (forall c :: c in stats <==> c in clubs)
    && forall c :: c in stats ==>
         stats[c] == TableRow(c, Pts(teams, c), Pts(final, c),
                              Sum(plan[..i], WinsOf(c)), Sum(plan[..i], DrawsOf(c)), Sum(plan[..i], LossesOf(c)))
  }

  /** Counting entry `i` into the records accounts for one more entry. */
  lemma CountStep(clubs: seq<Club>, teams: map<Club, int>, final: map<Club, int>,
                  plan: seq<PlanEntry>, i: nat, stats: map<Club, TableRow>)
    requires Keyed(clubs, teams) && Credited(teams, plan)
    requires i < |plan| && CountedThrough(clubs, teams, final, plan, i, stats)
    ensures CountedThrough(clubs, teams, final, plan, i + 1, Credit(stats, plan[i]))
  {
    var e := plan[i];
    assert e in plan;
    forall c | c in stats
      ensures Credit(stats, e)[c]
           == TableRow(c, Pts(teams, c), Pts(final, c), Sum(plan[..i + 1], WinsOf(c)),
                       Sum(plan[..i + 1], DrawsOf(c)), Sum(plan[..i + 1], LossesOf(c)))
    {
      CountStepAt(teams, final, plan, i, stats, c);
    }
  }

  /** `CountStep` for one club's record. */
  lemma CountStepAt(teams: map<Club, int>, final: map<Club, int>, plan: seq<PlanEntry>, i: nat,
                    stats: map<Club, TableRow>, c: Club)
    requires i < |plan| && plan[i].home in stats && plan[i].away in stats
    requires plan[i].decision.Some? && plan[i].decision.value.Winner? ==> plan[i].decision.value.club in stats
    requires c in stats
    requires stats[c] == TableRow(c, Pts(teams, c), Pts(final, c), Sum(plan[..i], WinsOf(c)),
                                  Sum(plan[..i], DrawsOf(c)), Sum(plan[..i], LossesOf(c)))
    ensures Credit(stats, plan[i])[c]
         == TableRow(c, Pts(teams, c), Pts(final, c), Sum(plan[..i + 1], WinsOf(c)),
                     Sum(plan[..i + 1], DrawsOf(c)), Sum(plan[..i + 1], LossesOf(c)))
  {
    SumPrefixStep(plan, i, WinsOf(c));
    SumPrefixStep(plan, i, DrawsOf(c));
    SumPrefixStep(plan, i, LossesOf(c));
  }

  /** Lines 263-283: one record per key holding current and final points,
      then count every decided entry into the records. */
  method CountResults(clubs: seq<Club>, teams: map<Club, int>, final: map<Club, int>, plan: seq<PlanEntry>)
    returns (stats: map<Club, TableRow>)
    requires Keyed(clubs, teams)
    requires Credited(teams, plan)
    ensures forall c :: c in stats <==> c in clubs
    ensures forall c :: c in stats ==>
      stats[c] == TableRow(c, Pts(teams, c), Pts(final, c),
                           Sum(plan, WinsOf(c)), Sum(plan, DrawsOf(c)), Sum(plan, LossesOf(c)))
  {
    stats := map[];
    for i := 0 to |clubs|
      invariant forall c :: c in stats <==> c in clubs[..i]
      invariant forall c :: c in stats ==> stats[c] == TableRow(c, Pts(teams, c), Pts(final, c), 0, 0, 0)
    {
      var t := clubs[i];
      stats := stats[t := TableRow(t, Pts(teams, t), Pts(final, t), 0, 0, 0)];
    }
    assert clubs[..|clubs|] == clubs;
    assert plan[..0] == [];
    for i := 0 to |plan|
      invariant CountedThrough(clubs, teams, final, plan, i, stats)
    {
      CountStep(clubs, teams, final, plan, i, stats);
      stats := Credit(stats, plan[i]);
    }
    assert plan[..|plan|] == plan;
  }

  /** The final table: one record per key with current and final points and
      the counted results, listed in key order (`Object.entries`) and sorted
      by final points, then name. */
  method SortedTable(clubs: seq<Club>, teams: map<Club, int>, final: map<Club, int>, plan: seq<PlanEntry>)
    returns (rows: seq<TableRow>)
    requires Keyed(clubs, teams)
    requires Credited(teams, plan)
    ensures Ranked(rows, RowStanding)
    ensures multiset(rows) == multiset(UnsortedRows(clubs, teams, final, plan))
  {
    var stats := CountResults(clubs, teams, final, plan);
    var unsorted: seq<TableRow> := [];
    for i := 0 to |clubs|
      invariant unsorted == UnsortedRows(clubs[..i], teams, final, plan)
    {
      unsorted := unsorted + [stats[clubs[i]]];
    }
    assert clubs[..|clubs|] == clubs;
    rows := SortStandings(unsorted, RowStanding);
  }

  /** Final standings of a scenario (lines 246-286): replay the plan into
      points, then build and sort the table. */
  method ProjectScenario(clubs: seq<Club>, teams: map<Club, int>, plan: seq<PlanEntry>)
    returns (rows: seq<TableRow>)
    requires Keyed(clubs, teams)
    requires Credited(teams, plan)
    ensures Ranked(rows, RowStanding)
    ensures multiset(rows) == multiset(UnsortedRows(clubs, teams, Projected(teams, plan), plan))
  {
    var final := ReplayPlan(clubs, teams, plan);
    rows := SortedTable(clubs, teams, final, plan);
  }

  /** Points one entry hands out in total: 3 for a win, 2 for a draw,
      none when undecided. */
  function EntryPoints(e: PlanEntry): int {
    match e.decision
    case None => 0
    case Some(Winner(_)) => 3
    case Some(Picked(o)) => if o == Draw then 2 else 3
  }

  /** A forced win raises the league total by 3. */
  lemma WinnerTotal(clubs: seq<Club>, q: map<Club, int>, w: Club)
    requires Distinct(clubs) && w in clubs
    ensures Total(clubs, q[w := Pts(q, w) + 3]) == Total(clubs, q) + 3
  {
    SumAdd(clubs, PointsIn(q), Indicator(w, 3), PointsIn(q[w := Pts(q, w) + 3]));
    SumIndicator(clubs, w, 3);
  }

  /** Points conservation over a plan: the league total grows by exactly
      the points its entries hand out. */
  lemma {:induction false} ProjectedTotal(clubs: seq<Club>, p: map<Club, int>, plan: seq<PlanEntry>)
    requires Distinct(clubs)
    requires forall e :: e in plan ==> e.home in clubs && e.away in clubs
    requires forall e :: e in plan && e.decision.Some? && e.decision.value.Winner? ==> e.decision.value.club in clubs
    ensures Total(clubs, Projected(p, plan)) == Total(clubs, p) + Sum(plan, EntryPoints)
  {
    if plan != [] {
      var init := plan[..|plan| - 1];
      var e := plan[|plan| - 1];
      assert e in plan;
      assert forall x :: x in init ==> x in plan;
      ProjectedTotal(clubs, p, init);
      var q := Projected(p, init);
      match e.decision
      case None =>
      case Some(Winner(w)) => WinnerTotal(clubs, q, w);
      case Some(Picked(o)) => AwardTotal(clubs, q, FixtureOf(e), o);
    }
  }

  /** Each club's wins, draws and losses add up to the number of decided
      entries it plays in, provided every forced winner is a side. */
  lemma {:induction false} TallyCoversAppearances(plan: seq<PlanEntry>, c: Club)
    requires WinnersAreSides(plan)
    ensures Sum(plan, WinsOf(c)) + Sum(plan, DrawsOf(c)) + Sum(plan, LossesOf(c))
         == Sum(plan, AppearancesOf(c))
  {
    if plan != [] {
      var init := plan[..|plan| - 1];
      assert forall e :: e in init ==> e in plan;
      TallyCoversAppearances(init, c);
    }
  }

  /** A decided entry with a winner (forced or picked). */
  predicate Decisive(e: PlanEntry) {
    e.decision.Some? && (e.decision.value.Winner? || e.decision.value.outcome != Draw)
  }

  function DecisiveCount(e: PlanEntry): int {
    if Decisive(e) then 1 else 0
  }

  function TotalWins(plan: seq<PlanEntry>): Club -> int { c => Sum(plan, WinsOf(c)) }
  function TotalLosses(plan: seq<PlanEntry>): Club -> int { c => Sum(plan, LossesOf(c)) }

  function WinsAt(e: PlanEntry): Club -> int { c => EntryWins(e, c) }
  function LossesAt(e: PlanEntry): Club -> int { c => EntryLosses(e, c) }

  /** One entry hands out one win and one loss if decisive, none otherwise. */
  lemma EntryBalance(clubs: seq<Club>, e: PlanEntry)
    requires Distinct(clubs) && e.home in clubs && e.away in clubs
    requires e.decision.Some? && e.decision.value.Winner? ==>
      e.decision.value.club == e.home || e.decision.value.club == e.away
    ensures Sum(clubs, WinsAt(e)) == DecisiveCount(e)
    ensures Sum(clubs, LossesAt(e)) == DecisiveCount(e)
  {
    var (winner, loser) :=
      match e.decision
      case None => (e.home, e.away)
      case Some(Winner(w)) => (w, Loser(e, w))
      case Some(Picked(o)) => if o == Away then (e.away, e.home) else (e.home, e.away);
    var k := DecisiveCount(e);
    SumAgree(clubs, WinsAt(e), Indicator(winner, k));
    SumAgree(clubs, LossesAt(e), Indicator(loser, k));
    SumIndicator(clubs, winner, k);
    SumIndicator(clubs, loser, k);
  }

  /** Summed over all clubs, the wins and the losses of the final table both
      equal the number of decisive entries: every win has its loss. */
  lemma {:induction false} WinsBalanceLosses(clubs: seq<Club>, plan: seq<PlanEntry>)
    requires Distinct(clubs)
    requires forall e :: e in plan ==> e.home in clubs && e.away in clubs
    requires WinnersAreSides(plan)
    ensures Sum(clubs, TotalWins(plan)) == Sum(plan, DecisiveCount)
    ensures Sum(clubs, TotalLosses(plan)) == Sum(plan, DecisiveCount)
  {
    if plan == [] {
      SumAgree(clubs, TotalWins(plan), Indicator("", 0));
      SumAgree(clubs, TotalLosses(plan), Indicator("", 0));
      SumIndicator(clubs, "", 0);
    } else {
      var init := plan[..|plan| - 1];
      var e := plan[|plan| - 1];
      assert e in plan;
      assert forall x :: x in init ==> x in plan;
      WinsBalanceLosses(clubs, init);
      SumAdd(clubs, TotalWins(init), WinsAt(e), TotalWins(plan));
      SumAdd(clubs, TotalLosses(init), LossesAt(e), TotalLosses(plan));
      EntryBalance(clubs, e);
    }
  }
}
