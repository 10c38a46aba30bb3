/** The feasibility solver of app.js: `simulateForClub` with its inner `dfs`,
    and the batch runner `simulateAll`. */
module Solver {
  import opened League
  import opened Ordering
  import opened Projection

  /** One outcome chosen by the search. A match object's identity in the
      script is its position in the fixture list, so `index` is that position. */
  datatype Assignment = Assignment(index: nat, outcome: Outcome)

  /** Why a club cannot be shown to finish first (the script's `reason`
      strings, kept as data). */
  datatype Reason =
    | OutOfReach(club: Club, targetMax: int, rival: Club, rivalPoints: int)
    | RivalBound(club: Club, targetMax: int, rival: Club, bound: int)
    | NoScenarioInTime

  datatype ClubResult = Possible(plan: seq<PlanEntry>) | Impossible(reason: Reason)

  /** The most the club can finish with: its points plus 3 per own fixture. */
  function TargetMax(teams: map<Club, int>, fixtures: seq<Fixture>, club: Club): (tm: int)
    ensures tm >= Pts(teams, club)
  {
    Pts(teams, club) + 3 * CountInvolving(fixtures, club)
  }

  /** No club other than `club` has more than `bound`. */
  ghost predicate RivalsWithin(clubs: seq<Club>, p: map<Club, int>, club: Club, bound: int) {
    forall t :: t in clubs && t != club ==> Pts(p, t) <= bound
  }

  /** `club` has strictly more points than every other club. */
  ghost predicate StrictlyFirst(clubs: seq<Club>, p: map<Club, int>, club: Club) {
    forall t :: t in clubs && t != club ==> Pts(p, t) < Pts(p, club)
  }

  /** `o` is the first club in key order, other than `club`, above `bound`. */
  ghost predicate FirstAbove(clubs: seq<Club>, p: map<Club, int>, club: Club, bound: int, o: Club) {
    exists k :: 0 <= k < |clubs| && clubs[k] == o && o != club && Pts(p, o) > bound &&
      forall j :: 0 <= j < k ==> clubs[j] == club || Pts(p, clubs[j]) <= bound
  }

  /** The scan `for (t of Object.keys(p)) if (t !== club && p[t] > bound) ...`
      (lines 63-66, 95-98 and 121-124): the first rival above `bound`, if any. */
  method FindRivalAbove(clubs: seq<Club>, p: map<Club, int>, club: Club, bound: int)
    returns (hit: Option<Club>)
    ensures hit.None? <==> RivalsWithin(clubs, p, club, bound)
    ensures hit.Some? ==> FirstAbove(clubs, p, club, bound, hit.value)
  {
    for k := 0 to |clubs|
      invariant forall j :: 0 <= j < k ==> clubs[j] == club || Pts(p, clubs[j]) <= bound
    {
      if clubs[k] != club && Pts(p, clubs[k]) > bound {
        return Some(clubs[k]);
      }
    }
    return None;
  }

  /** `Math.max(...others' points)`, with `None` for the maximum of an empty
      list (`-Infinity`). */
  function BestOther(clubs: seq<Club>, p: map<Club, int>, club: Club): (best: Option<int>)
    ensures best.None? <==> forall t :: t in clubs ==> t == club
    ensures best.Some? ==> exists t :: t in clubs && t != club && Pts(p, t) == best.value
    ensures best.Some? ==> forall t :: t in clubs && t != club ==> Pts(p, t) <= best.value
  {
    if clubs == [] then None
    else
      var init := clubs[..|clubs| - 1];
      var t := clubs[|clubs| - 1];
      assert clubs == init + [t];
      assert t in clubs && forall u :: u in clubs <==> u in init || u == t;
      var rest := BestOther(init, p, club);
      if t == club then rest
      else if rest.None? then Some(Pts(p, t))
      else if Pts(p, t) > rest.value then Some(Pts(p, t))
      else rest
  }

  /** The leaf test `points[club] > bestOther` holds exactly when the club is
      strictly first; with no rivals it always holds. */
  lemma LeafTest(clubs: seq<Club>, p: map<Club, int>, club: Club)
    ensures (var best := BestOther(clubs, p, club); best.None? || Pts(p, club) > best.value)
            <==> StrictlyFirst(clubs, p, club)
  {
    var best := BestOther(clubs, p, club);
    if best.Some? && StrictlyFirst(clubs, p, club) {
      var t :| t in clubs && t != club && Pts(p, t) == best.value;
    }
  }

  /** The order in which the search tries outcomes (lines 108-112). The
      script means to try the lower side's win first, but
      `order.splice(0, 1, 'away')` overwrites 'home' instead of swapping:
      when the home side leads, a home win is never tried and an away win
      is tried twice. */
  function TryOrder(hv: int, av: int): (order: seq<Outcome>)
    ensures |order| == 3 && order[1] == Draw && order[2] == Away
    ensures Home in order <==> hv <= av
    ensures hv > av ==> order == [Away, Draw, Away]
  {
    var order := [Home, Draw, Away];
    if hv > av then [Away] + order[1..] else order
  }

  /** One step of the search: award outcome `a.outcome` to fixture `a.index`. */
  function Apply(fixtures: seq<Fixture>, p: map<Club, int>, a: Assignment): map<Club, int> {
    if a.index < |fixtures| then Award(p, fixtures[a.index], a.outcome) else p
  }

  /** Points after the search's assignments, in the order it made them. */
  function Replay(fixtures: seq<Fixture>, p: map<Club, int>, s: seq<Assignment>): map<Club, int>
    decreases |s|
  {
    if s == [] then p else Replay(fixtures, Apply(fixtures, p, s[0]), s[1..])
  }

  function AssignedGain(fixtures: seq<Fixture>, c: Club, a: Assignment): int {
    if a.index < |fixtures| then Gain(fixtures[a.index], a.outcome, c) else 0
  }

  function AssignedGainOf(fixtures: seq<Fixture>, c: Club): Assignment -> int {
    a => AssignedGain(fixtures, c, a)
  }

  /** Points after a run of assignments are the starting points plus what each
      assignment hands the club. */
  lemma {:induction false} ReplayGain(fixtures: seq<Fixture>, p: map<Club, int>, s: seq<Assignment>, c: Club)
    ensures Pts(Replay(fixtures, p, s), c) == Pts(p, c) + Sum(s, AssignedGainOf(fixtures, c))
    decreases |s|
  {
    if s != [] {
      ReplayGain(fixtures, Apply(fixtures, p, s[0]), s[1..], c);
      assert s == [s[0]] + s[1..];
      SumCons(s[0], s[1..], AssignedGainOf(fixtures, c));
    }
  }

  /** Replaying keeps the table's keys when every fixture side is a key. */
  lemma {:induction false} ReplayKeys(fixtures: seq<Fixture>, clubs: seq<Club>, p: map<Club, int>, s: seq<Assignment>)
    requires Keyed(clubs, p)
    requires forall i :: 0 <= i < |fixtures| ==> fixtures[i].home in clubs && fixtures[i].away in clubs
    ensures Keyed(clubs, Replay(fixtures, p, s))
    decreases |s|
  {
    if s != [] {
      ReplayKeys(fixtures, clubs, Apply(fixtures, p, s[0]), s[1..]);
    }
  }

  /** Indices of the fixtures the club plays in: the keys of `assigned`. */
  function OwnIndices(fixtures: seq<Fixture>, club: Club): set<nat> {
    set i: nat | i < |fixtures| && Involves(fixtures[i], club)
  }

  /** `matches.filter(m => !assigned.has(m))` over the first `n` fixtures. */
  function Unassigned(n: nat, forced: set<nat>): seq<nat> {
    if n == 0 then [] else Unassigned(n - 1, forced) + (if n - 1 in forced then [] else [n - 1])
  }

  /** The free fixtures are exactly the unassigned ones, once each, in order. */
  lemma {:induction false} UnassignedFacts(n: nat, forced: set<nat>)
    ensures forall i: nat :: i in Unassigned(n, forced) <==> i < n && i !in forced
    ensures forall k :: 0 <= k < |Unassigned(n, forced)| ==> Unassigned(n, forced)[k] < n
    ensures Distinct(Unassigned(n, forced))
  {
    if n > 0 {
      UnassignedFacts(n - 1, forced);
    }
  }

  /** When every fixture is forced, nothing is left unassigned. */
  lemma {:induction false} UnassignedAllForced(n: nat, forced: set<nat>)
    requires forall i: nat :: i < n ==> i in forced
    ensures Unassigned(n, forced) == []
  {
    if n > 0 {
      UnassignedAllForced(n - 1, forced);
    }
  }

  /** The table after the forced wins: 3 more points per own fixture. */
  function Boosted(teams: map<Club, int>, fixtures: seq<Fixture>, club: Club): map<Club, int> {
    teams[club := TargetMax(teams, fixtures, club)]
  }

  /** Lines 69-76: every fixture the club plays in becomes a win for it. */
  method ForceWins(club: Club, fixtures: seq<Fixture>, teams: map<Club, int>)
    returns (boosted: map<Club, int>, forced: set<nat>)
    requires club in teams
    ensures boosted == Boosted(teams, fixtures, club)
    ensures forced == OwnIndices(fixtures, club)
  {
    boosted := teams;
    forced := {};
    for i := 0 to |fixtures|
      invariant boosted == teams[club := Pts(teams, club) + 3 * CountInvolving(fixtures[..i], club)]
      invariant forced == set j: nat | j < i && Involves(fixtures[j], club)
    {
      assert fixtures[..i + 1][..i] == fixtures[..i];
      if Involves(fixtures[i], club) {
        boosted := boosted[club := boosted[club] + 3];
        forced := forced + {i};
      }
    }
    assert fixtures[..|fixtures|] == fixtures;
  }

  /** The sort key of lines 83-84: the higher of the two sides' points. */
  function Stake(fixtures: seq<Fixture>, p: map<Club, int>, i: nat): (st: int)
    ensures i < |fixtures| ==> st >= Pts(p, fixtures[i].home) && st >= Pts(p, fixtures[i].away)
    ensures i < |fixtures| ==> st == Pts(p, fixtures[i].home) || st == Pts(p, fixtures[i].away)
  {
    if i < |fixtures| then
      var h := Pts(p, fixtures[i].home);
      var a := Pts(p, fixtures[i].away);
      if h > a then h else a
    else 0
  }

  function StakeOf(fixtures: seq<Fixture>, p: map<Club, int>): nat -> int {
    (i: nat) => Stake(fixtures, p, i)
  }

  /** The search state the `dfs` closure shares: the fixed inputs it reads,
      the `assignments` stack it pushes and pops, and the clock. The wall
      clock is abstracted as a number of readings (`budget`) that fall within
      the time limit; every later reading reports the limit passed. */
  class Search {
    const club: Club
    const clubs: seq<Club>
    const fixtures: seq<Fixture>
    const remaining: seq<nat>
    const targetMax: int
    const budget: nat
    var readings: nat
    var assignments: seq<Assignment>

    ghost predicate Valid() {
      && Distinct(clubs)
      && (forall k :: 0 <= k < |remaining| ==> remaining[k] < |fixtures|)
      && (forall i :: 0 <= i < |fixtures| ==> fixtures[i].home in clubs && fixtures[i].away in clubs)
    }

    constructor (club: Club, clubs: seq<Club>, fixtures: seq<Fixture>, remaining: seq<nat>,
                 targetMax: int, budget: nat)
      ensures this.club == club && this.clubs == clubs && this.fixtures == fixtures
      ensures this.remaining == remaining && this.targetMax == targetMax && this.budget == budget
      ensures readings == 0 && assignments == []
    {
      this.club := club;
      this.clubs := clubs;
      this.fixtures := fixtures;
      this.remaining := remaining;
      this.targetMax := targetMax;
      this.budget := budget;
      readings := 0;
      assignments := [];
    }

    /** `performance.now() - start > timeLimit`. */
    method TimeIsUp() returns (up: bool)
      modifies this`readings
      ensures readings == old(readings) + 1
      ensures up <==> old(readings) >= budget
    {
      up := readings >= budget;
      readings := readings + 1;
    }

    /** `s` completes the search from position `idx` and table `p`: one
        assignment per remaining fixture, in order; no rival above
        `targetMax` in any state along the way; the club strictly first at
        the end. */
    ghost predicate Solves(idx: nat, p: map<Club, int>, s: seq<Assignment>) {
      && |s| == |remaining|
      && idx <= |s|
      && (forall k :: 0 <= k < |s| ==> s[k].index == remaining[k])
      && (forall k :: idx <= k <= |s| ==> RivalsWithin(clubs, Replay(fixtures, p, s[idx..k]), club, targetMax))
      && StrictlyFirst(clubs, Replay(fixtures, p, s[idx..]), club)
    }

    /** A solution from `idx + 1` after assigning `o` to fixture `idx` is a
        solution from `idx`. */
    lemma ExtendSolution(idx: nat, p: map<Club, int>, o: Outcome, s: seq<Assignment>)
      requires Valid()
      requires idx < |remaining| && idx < |s|
      requires s[idx] == Assignment(remaining[idx], o)
      requires RivalsWithin(clubs, p, club, targetMax)
      requires Solves(idx + 1, Award(p, fixtures[remaining[idx]], o), s)
      ensures Solves(idx, p, s)
    {
      var np := Award(p, fixtures[remaining[idx]], o);
      assert Apply(fixtures, p, s[idx]) == np;
      forall k | idx < k <= |s|
        ensures Replay(fixtures, p, s[idx..k]) == Replay(fixtures, np, s[idx + 1..k])
      {
        assert s[idx..k][0] == s[idx] && s[idx..k][1..] == s[idx + 1..k];
      }
      assert s[idx..idx] == [];
      assert s[idx..] == s[idx..|s|];
      assert s[idx + 1..] == s[idx + 1..|s|];
    }

    /** A full stack of assignments reached with no rival above the bound
        and the club strictly first is a solution from the leaf. */
    lemma LeafSolves(idx: nat, p: map<Club, int>, s: seq<Assignment>)
      requires idx == |remaining| == |s|
      requires forall k :: 0 <= k < idx ==> s[k].index == remaining[k]
      requires RivalsWithin(clubs, p, club, targetMax) && StrictlyFirst(clubs, p, club)
      ensures Solves(idx, p, s) && s[..idx] == s
    {
      assert s[idx..] == [] && s[idx..idx] == [];
    }

    /** The table after assigning `o` to fixture `idx` keeps the clubs as keys. */
    lemma StepReady(idx: nat, p: map<Club, int>, o: Outcome)
      requires Valid() && idx < |remaining| && Keyed(clubs, p)
      ensures Keyed(clubs, Award(p, fixtures[remaining[idx]], o))
    {
      var m := fixtures[remaining[idx]];
      assert m.home in clubs && m.away in clubs;
    }

    /** Pushing the assignment for position `idx` keeps the stack in step
        with `remaining`, and popping it gives the old stack back. */
    lemma Pushed(idx: nat, before: seq<Assignment>, o: Outcome)
      requires idx < |remaining| && |before| == idx
      requires forall k :: 0 <= k < idx ==> before[k].index == remaining[k]
      ensures var after := before + [Assignment(remaining[idx], o)];
        && |after| == idx + 1
        && (forall k :: 0 <= k < idx + 1 ==> after[k].index == remaining[k])
        && after[..|after| - 1] == before
    {
    }

    /** The solution found below the pushed assignment `o` extends the stack
        as it was before the push and solves the search from `idx`. */
    lemma StepSolves(idx: nat, p: map<Club, int>, o: Outcome, before: seq<Assignment>, s: seq<Assignment>)
      requires Valid()
      requires idx < |remaining| && |before| == idx
      requires RivalsWithin(clubs, p, club, targetMax)
      requires idx + 1 <= |s| && s[..idx + 1] == before + [Assignment(remaining[idx], o)]
      requires Solves(idx + 1, Award(p, fixtures[remaining[idx]], o), s)
      ensures Solves(idx, p, s) && s[..idx] == before
    {
      assert s[idx] == s[..idx + 1][idx];
      assert s[..idx] == s[..idx + 1][..idx];
      ExtendSolution(idx, p, o, s);
    }

    /** The recursive search `dfs(idx, points, assignments)` (lines 92-132). */
    method Dfs(idx: nat, points: map<Club, int>) returns (r: Option<seq<Assignment>>)
      requires Valid()
      requires idx <= |remaining|
      requires |assignments| == idx && forall k :: 0 <= k < idx ==> assignments[k].index == remaining[k]
      requires Keyed(clubs, points)
      modifies this`readings, this`assignments
      decreases |remaining| - idx, 1
      ensures readings > old(readings)
      ensures old(readings) >= budget ==> r.None?
      ensures r.None? ==> assignments == old(assignments)
      ensures r.Some? ==> Solves(idx, points, r.value)
      ensures r.Some? ==> assignments == r.value && r.value[..idx] == old(assignments)
      ensures (idx == |remaining| && old(readings) < budget && StrictlyFirst(clubs, points, club)
               && RivalsWithin(clubs, points, club, targetMax)) ==> r.Some?
    {
      var up := TimeIsUp();
      if up {
        return None;
      }
      var over := FindRivalAbove(clubs, points, club, targetMax);
      if over.Some? {
        return None;
      }
      if idx >= |remaining| {
        var best := BestOther(clubs, points, club);
        LeafTest(clubs, points, club);
        if best.None? || Pts(points, club) > best.value {
          LeafSolves(idx, points, assignments);
          return Some(assignments);
        }
        return None;
      }
      var m := fixtures[remaining[idx]];
      var order := TryOrder(Pts(points, m.home), Pts(points, m.away));
      var i := 0;
      while i < |order|
        invariant 0 <= i <= |order|
        invariant assignments == old(assignments)
        invariant readings > old(readings)
      {
        r := TryOutcome(idx, points, order[i]);
        if r.Some? {
          return;
        }
        i := i + 1;
      }
      return None;
    }

    /** One pass of the loop over the try order (lines 114-129): award `o`,
        skip it if a rival passes `targetMax`, otherwise push it, search
        deeper, and pop it again if that fails. */
    method TryOutcome(idx: nat, points: map<Club, int>, o: Outcome) returns (r: Option<seq<Assignment>>)
      requires Valid()
      requires idx < |remaining|
      requires |assignments| == idx && forall k :: 0 <= k < idx ==> assignments[k].index == remaining[k]
      requires Keyed(clubs, points) && RivalsWithin(clubs, points, club, targetMax)
      modifies this`readings, this`assignments
      decreases |remaining| - idx, 0
      ensures readings >= old(readings)
      ensures r.None? ==> assignments == old(assignments)
      ensures r.Some? ==> Solves(idx, points, r.value)
      ensures r.Some? ==> assignments == r.value && r.value[..idx] == old(assignments)
    {
      var np := Award(points, fixtures[remaining[idx]], o);
      var bad := FindRivalAbove(clubs, np, club, targetMax);
      if bad.Some? {
        return None;
      }
      StepReady(idx, points, o);
      Pushed(idx, assignments, o);
      assignments := assignments + [Assignment(remaining[idx], o)];
      r := Dfs(idx + 1, np);
      if r.Some? {
        StepSolves(idx, points, o, old(assignments), r.value);
        return;
      }
      assignments := assignments[..|assignments| - 1];
    }
  }

  /** `solution.find(x => x.index === m)`: the outcome the search chose for the
      fixture object at position `i` (object identity). */
  function Lookup(solution: seq<Assignment>, i: nat): Option<Outcome> {
    if solution == [] then None
    else if solution[0].index == i then Some(solution[0].outcome)
    else Lookup(solution[1..], i)
  }

  /** `find` returns the first assignment naming the fixture. */
  lemma {:induction false} LookupAt(solution: seq<Assignment>, k: nat, i: nat)
    requires k < |solution| && solution[k].index == i
    requires forall j :: 0 <= j < k ==> solution[j].index != i
    ensures Lookup(solution, i) == Some(solution[k].outcome)
  {
    if k > 0 {
      LookupAt(solution[1..], k - 1, i);
    }
  }

  /** Line 145 as written: the first assignment whose fixture has the same
      date, home and away as `m`. */
  function LookupByKey(solution: seq<Assignment>, fixtures: seq<Fixture>, m: Fixture): (found: Option<Outcome>)
    ensures found.None? <==> forall k :: 0 <= k < |solution| ==> !KeyAt(solution, fixtures, k, m)
    ensures forall k :: 0 <= k < |solution| && KeyAt(solution, fixtures, k, m)
                        && (forall j :: 0 <= j < k ==> !KeyAt(solution, fixtures, j, m))
                        ==> found == Some(solution[k].outcome)
  {
    if solution == [] then None
    else if solution[0].index < |fixtures| && fixtures[solution[0].index] == m then
      assert KeyAt(solution, fixtures, 0, m);
      Some(solution[0].outcome)
    else
      assert !KeyAt(solution, fixtures, 0, m);
      assert forall k :: 0 <= k < |solution| - 1 ==> KeyAt(solution[1..], fixtures, k, m) == KeyAt(solution, fixtures, k + 1, m);
      assert forall k :: 1 <= k < |solution| ==> KeyAt(solution, fixtures, k, m) == KeyAt(solution[1..], fixtures, k - 1, m);
      LookupByKey(solution[1..], fixtures, m)
  }

  /** Assignment `k` is for a fixture with the same date, home and away as `m`. */
  predicate KeyAt(solution: seq<Assignment>, fixtures: seq<Fixture>, k: nat, m: Fixture)
    requires k < |solution|
  {
    solution[k].index < |fixtures| && fixtures[solution[k].index] == m
  }

  /** The plan lines 139-149 produce with the lookup as written. */
  function PlanByKey(fixtures: seq<Fixture>, club: Club, solution: seq<Assignment>): (plan: seq<PlanEntry>)
    ensures |plan| == |fixtures|
    ensures forall i :: 0 <= i < |plan| ==> FixtureOf(plan[i]) == fixtures[i]
    ensures forall i :: 0 <= i < |plan| && Involves(fixtures[i], club) ==> plan[i].decision == Some(Winner(club))
  {
    seq(|fixtures|, i requires 0 <= i < |fixtures| =>
      EntryFor(fixtures, club, i, LookupByKey(solution, fixtures, fixtures[i])))
  }

  /** When no fixture is listed twice, the lookup by (date, home, away) finds
      the same assignment as the lookup by identity. */
  lemma {:induction false} KeyLookupByIdentity(solution: seq<Assignment>, fixtures: seq<Fixture>, i: nat)
    requires Distinct(fixtures) && i < |fixtures|
    requires forall k :: 0 <= k < |solution| ==> solution[k].index < |fixtures|
    ensures LookupByKey(solution, fixtures, fixtures[i]) == Lookup(solution, i)
  {
    if solution != [] {
      KeyLookupByIdentity(solution[1..], fixtures, i);
    }
  }

  /** When no fixture is listed twice, the plan lines 139-149 build as written
      is the plan built by identity. */
  lemma PlanByKeyByIdentity(fixtures: seq<Fixture>, club: Club, solution: seq<Assignment>, plan: seq<PlanEntry>)
    requires Distinct(fixtures)
    requires forall k :: 0 <= k < |solution| ==> solution[k].index < |fixtures|
    requires |plan| == |fixtures|
    requires forall i :: 0 <= i < |fixtures| ==> plan[i] == EntryFor(fixtures, club, i, Lookup(solution, i))
    ensures PlanByKey(fixtures, club, solution) == plan
  {
    forall i: nat | i < |fixtures| {
      KeyLookupByIdentity(solution, fixtures, i);
    }
  }

  /* Two fixtures with the same date, home and away (a league lists a
     pairing twice when the sides meet twice under one matchday label). */
  const DupClubs: seq<Club> := ["A", "B", "C"]
  const DupTeams: map<Club, int> := map["A" := 4, "B" := 0, "C" := 0]
  const DupFixtures: seq<Fixture> := [Fixture("d", "B", "C"), Fixture("d", "B", "C")]
  /* What the search assigns: it settles the first fixture as a home win
     (the sides are level, so `TryOrder` starts with Home) and, with the
     home side now ahead, the second as an away win. */
  const DupSolution: seq<Assignment> := [Assignment(0, TryOrder(0, 0)[0]), Assignment(1, TryOrder(3, 0)[0])]

  /** The search's assignments keep both rivals on 3 and A first on 4. */
  lemma DuplicateFixtureSolved()
    ensures DupSolution == [Assignment(0, Home), Assignment(1, Away)]
    ensures Replay(DupFixtures, Boosted(DupTeams, DupFixtures, "A"), DupSolution)
         == map["A" := 4, "B" := 3, "C" := 3]
    ensures StrictlyFirst(DupClubs, Replay(DupFixtures, Boosted(DupTeams, DupFixtures, "A"), DupSolution), "A")
  {
    var m := Fixture("d", "B", "C");
    assert CountInvolving(DupFixtures, "A") == 0 by {
      assert DupFixtures[..1] == [m];
      assert [m][..0] == [];
    }
    assert DupSolution == [Assignment(0, Home), Assignment(1, Away)];
    var boosted := Boosted(DupTeams, DupFixtures, "A");
    assert boosted == DupTeams;
    var afterFirst := Apply(DupFixtures, boosted, DupSolution[0]);
    assert afterFirst == map["A" := 4, "B" := 3, "C" := 0];
    assert Apply(DupFixtures, afterFirst, DupSolution[1]) == map["A" := 4, "B" := 3, "C" := 3];
    assert DupSolution[1..] == [DupSolution[1]] && DupSolution[1..][1..] == [];
    assert Replay(DupFixtures, afterFirst, DupSolution[1..]) == map["A" := 4, "B" := 3, "C" := 3];
  }

  /** Looked up by key (line 145 as written), both plan lines report the
      first assignment: the reported scenario hands B 6 points, so A does
      not finish first under the plan the script shows. */
  lemma DuplicateFixtureMisreported()
    ensures Pts(Projected(DupTeams, PlanByKey(DupFixtures, "A", DupSolution)), "B") == 6
    ensures !FinishesFirst(DupClubs, DupTeams, "A", TargetMax(DupTeams, DupFixtures, "A"),
                           PlanByKey(DupFixtures, "A", DupSolution))
  {
    DuplicateFixtureSolved();
    var byKey := PlanByKey(DupFixtures, "A", DupSolution);
    assert byKey == [PlanEntry("d", "B", "C", Some(Picked(Home))), PlanEntry("d", "B", "C", Some(Picked(Home)))];
    assert byKey[..1] == [byKey[0]] && byKey[..1][..0] == [];
    assert Projected(DupTeams, byKey[..1])["B"] == 3;
  }

  /** Looked up by identity, the plan reproduces the search's table and A
      finishes first. */
  lemma DuplicateFixtureByIdentity()
    ensures FinishesFirst(DupClubs, DupTeams, "A", TargetMax(DupTeams, DupFixtures, "A"),
              seq(2, i requires 0 <= i < 2 => EntryFor(DupFixtures, "A", i, Lookup(DupSolution, i))))
  {
    var m := Fixture("d", "B", "C");
    assert CountInvolving(DupFixtures, "A") == 0 by {
      assert DupFixtures[..1] == [m];
      assert [m][..0] == [];
    }
    DuplicateFixtureSolved();
    assert Lookup(DupSolution, 1) == Some(Away);
    var byId := seq(2, i requires 0 <= i < 2 => EntryFor(DupFixtures, "A", i, Lookup(DupSolution, i)));
    assert byId == [PlanEntry("d", "B", "C", Some(Picked(Home))), PlanEntry("d", "B", "C", Some(Picked(Away)))];
    assert byId[..1] == [byId[0]] && byId[..1][..0] == [];
    assert Projected(DupTeams, byId[..1]) == DupTeams["B" := 3];
    assert Projected(DupTeams, byId) == DupTeams["B" := 3]["C" := 3];
  }

  /** The plan line for fixture `i`, given the outcome the lookup found. */
  function EntryFor(fixtures: seq<Fixture>, club: Club, i: nat, found: Option<Outcome>): PlanEntry
    requires i < |fixtures|
  {
    var m := fixtures[i];
    PlanEntry(m.date, m.home, m.away,
      if Involves(m, club) then Some(Winner(club))
      else match found
        case None => None
        case Some(o) => Some(Picked(o)))
  }

  /** Lines 139-149 with the lookup by object identity. */
  method BuildPlan(fixtures: seq<Fixture>, club: Club, solution: seq<Assignment>)
    returns (plan: seq<PlanEntry>)
    ensures |plan| == |fixtures|
    ensures forall i :: 0 <= i < |fixtures| ==> plan[i] == EntryFor(fixtures, club, i, Lookup(solution, i))
  {
    plan := [];
    for i := 0 to |fixtures|
      invariant |plan| == i
      invariant forall j :: 0 <= j < i ==> plan[j] == EntryFor(fixtures, club, j, Lookup(solution, j))
    {
      var m := fixtures[i];
      var out: Option<Decision> := None;
      if Involves(m, club) {
        out := Some(Winner(club));
      } else {
        var s := Lookup(solution, i);
        if s.Some? {
          out := Some(Picked(s.value));
        }
      }
      plan := plan + [PlanEntry(m.date, m.home, m.away, out)];
    }
  }

  /** The points a free fixture `i` hands club `c` under the plan's lookup. */
  function FreeGain(fixtures: seq<Fixture>, solution: seq<Assignment>, c: Club, i: nat): int {
    if i < |fixtures| then
      match Lookup(solution, i)
      case None => 0
      case Some(o) => Gain(fixtures[i], o, c)
    else 0
  }

  function FreeGainOf(fixtures: seq<Fixture>, solution: seq<Assignment>, c: Club): nat -> int {
    (i: nat) => FreeGain(fixtures, solution, c, i)
  }

  /** What the first `n` plan lines hand club `c`: 3 per forced win if `c` is
      the club, plus the free fixtures' gains. */
  lemma {:induction false} PlanSum(fixtures: seq<Fixture>, club: Club, solution: seq<Assignment>,
                                   plan: seq<PlanEntry>, c: Club, n: nat)
    requires n <= |fixtures| == |plan|
    requires forall i :: 0 <= i < |fixtures| ==> plan[i] == EntryFor(fixtures, club, i, Lookup(solution, i))
    ensures Sum(plan[..n], GainsOf(c))
         == (if c == club then 3 else 0) * CountInvolving(fixtures[..n], club)
          + Sum(Unassigned(n, OwnIndices(fixtures, club)), FreeGainOf(fixtures, solution, c))
  {
    if n > 0 {
      PlanSum(fixtures, club, solution, plan, c, n - 1);
      var A := OwnIndices(fixtures, club);
      var free := FreeGainOf(fixtures, solution, c);
      var own := if c == club then 3 else 0;
      var before := Sum(plan[..n - 1], GainsOf(c));
      var after := Sum(plan[..n], GainsOf(c));
      var countBefore := CountInvolving(fixtures[..n - 1], club);
      var countAfter := CountInvolving(fixtures[..n], club);
      var freeBefore := Sum(Unassigned(n - 1, A), free);
      var freeAfter := Sum(Unassigned(n, A), free);
      assert before == own * countBefore + freeBefore;
      PlanSumStep(fixtures, club, solution, plan, c, n);
      assert after - before == own * countAfter - own * countBefore + freeAfter - freeBefore;
    }
  }

  /** One more plan line adds its share to each side of `PlanSum`. */
  lemma PlanSumStep(fixtures: seq<Fixture>, club: Club, solution: seq<Assignment>, plan: seq<PlanEntry>,
                    c: Club, n: nat)
    requires 0 < n <= |fixtures| && n <= |plan|
    requires plan[n - 1] == EntryFor(fixtures, club, n - 1, Lookup(solution, n - 1))
    ensures
      var A := OwnIndices(fixtures, club);
      var free := FreeGainOf(fixtures, solution, c);
      && Sum(plan[..n], GainsOf(c)) - Sum(plan[..n - 1], GainsOf(c))
         == (if c == club then 3 else 0) * CountInvolving(fixtures[..n], club)
          - (if c == club then 3 else 0) * CountInvolving(fixtures[..n - 1], club)
          + Sum(Unassigned(n, A), free) - Sum(Unassigned(n - 1, A), free)
  {
    var prefix := plan[..n];
    assert prefix[..n - 1] == plan[..n - 1];
    var A := OwnIndices(fixtures, club);
    var tail: seq<nat> := if n - 1 in A then [] else [n - 1];
    var free := FreeGainOf(fixtures, solution, c);
    assert Sum(prefix, GainsOf(c)) == Sum(prefix[..n - 1], GainsOf(c)) + EntryGain(prefix[n - 1], c);
    assert fixtures[..n] == fixtures[..n - 1] + [fixtures[n - 1]];
    CountInvolvingSnoc(fixtures[..n - 1], fixtures[n - 1], club);
    assert Unassigned(n, A) == Unassigned(n - 1, A) + tail;
    SumAppend<nat>(Unassigned(n - 1, A), tail, free);
    EntryGainSplit(fixtures, club, solution, prefix[n - 1], c, n - 1);
  }

  /** A plan line hands `c` the forced win's 3 points or the free fixture's
      gain. */
  lemma EntryGainSplit(fixtures: seq<Fixture>, club: Club, solution: seq<Assignment>,
                       e: PlanEntry, c: Club, i: nat)
    requires i < |fixtures| && e == EntryFor(fixtures, club, i, Lookup(solution, i))
    ensures EntryGain(e, c)
         == (if Involves(fixtures[i], club) then (if c == club then 3 else 0) else 0)
          + Sum<nat>(if i in OwnIndices(fixtures, club) then [] else [i], FreeGainOf(fixtures, solution, c))
  {
    var tail: seq<nat> := if i in OwnIndices(fixtures, club) then [] else [i];
    assert Sum(tail, FreeGainOf(fixtures, solution, c))
        == if tail == [] then 0 else FreeGain(fixtures, solution, c, i) by {
      if tail != [] {
        assert tail[..0] == [];
      }
    }
  }

  /** Summing free gains along the sorted order equals summing the search's
      assignment gains, when each sorted fixture's lookup finds its own
      assignment. */
  lemma {:induction false} SumAlong(fixtures: seq<Fixture>, solution: seq<Assignment>, remaining: seq<nat>, c: Club)
    requires |solution| == |remaining|
    requires forall k :: 0 <= k < |remaining| ==>
      solution[k].index == remaining[k] && Lookup(solution, remaining[k]) == Some(solution[k].outcome)
    ensures Sum(remaining, FreeGainOf(fixtures, solution, c)) == Sum(solution, AssignedGainOf(fixtures, c))
  {
    if remaining != [] {
      var n := |remaining| - 1;
      SumAlongPrefix(fixtures, solution, remaining, c, n);
      assert remaining[..|remaining|] == remaining && solution[..|solution|] == solution;
    }
  }

  lemma {:induction false} SumAlongPrefix(fixtures: seq<Fixture>, solution: seq<Assignment>, remaining: seq<nat>, c: Club, n: nat)
    requires n < |solution| == |remaining|
    requires forall k :: 0 <= k < |remaining| ==>
      solution[k].index == remaining[k] && Lookup(solution, remaining[k]) == Some(solution[k].outcome)
    ensures Sum(remaining[..n + 1], FreeGainOf(fixtures, solution, c))
         == Sum(solution[..n + 1], AssignedGainOf(fixtures, c))
  {
    assert remaining[..n + 1][..n] == remaining[..n];
    assert solution[..n + 1][..n] == solution[..n];
    if n > 0 {
      SumAlongPrefix(fixtures, solution, remaining, c, n - 1);
    }
  }

  /** Round trip: projecting the plan (fixture order, forced wins included)
      gives the same points as the search's own replay (sorted order, from
      the boosted table). */
  lemma PlanAgreesWithSearch(fixtures: seq<Fixture>, club: Club, teams: map<Club, int>,
                             remaining: seq<nat>, solution: seq<Assignment>, plan: seq<PlanEntry>, c: Club)
    requires multiset(remaining) == multiset(Unassigned(|fixtures|, OwnIndices(fixtures, club)))
    requires |solution| == |remaining| && forall k :: 0 <= k < |solution| ==> solution[k].index == remaining[k]
    requires |plan| == |fixtures|
    requires forall i :: 0 <= i < |fixtures| ==> plan[i] == EntryFor(fixtures, club, i, Lookup(solution, i))
    ensures Pts(Projected(teams, plan), c) == Pts(Replay(fixtures, Boosted(teams, fixtures, club), solution), c)
  {
    PlanSide(fixtures, club, teams, solution, plan, c);
    FreeSumAlong(fixtures, club, remaining, solution, c);
    ReplayGain(fixtures, Boosted(teams, fixtures, club), solution, c);
  }

  /** Replayed, the plan gives `c` its points, the club's forced wins, and the
      free fixtures' gains summed in fixture order. */
  lemma PlanSide(fixtures: seq<Fixture>, club: Club, teams: map<Club, int>,
                 solution: seq<Assignment>, plan: seq<PlanEntry>, c: Club)
    requires |plan| == |fixtures|
    requires forall i :: 0 <= i < |fixtures| ==> plan[i] == EntryFor(fixtures, club, i, Lookup(solution, i))
    ensures Pts(Projected(teams, plan), c)
         == Pts(Boosted(teams, fixtures, club), c)
          + Sum(Unassigned(|fixtures|, OwnIndices(fixtures, club)), FreeGainOf(fixtures, solution, c))
  {
    ProjectedGain(teams, plan, c);
    PlanSum(fixtures, club, solution, plan, c, |fixtures|);
    assert plan[..|fixtures|] == plan && fixtures[..|fixtures|] == fixtures;
  }

  /** The free fixtures' gains, summed in fixture order, are the gains of the
      search's assignments. */
  lemma FreeSumAlong(fixtures: seq<Fixture>, club: Club, remaining: seq<nat>, solution: seq<Assignment>, c: Club)
    requires multiset(remaining) == multiset(Unassigned(|fixtures|, OwnIndices(fixtures, club)))
    requires |solution| == |remaining| && forall k :: 0 <= k < |solution| ==> solution[k].index == remaining[k]
    ensures Sum(Unassigned(|fixtures|, OwnIndices(fixtures, club)), FreeGainOf(fixtures, solution, c))
         == Sum(solution, AssignedGainOf(fixtures, c))
  {
    var free := Unassigned(|fixtures|, OwnIndices(fixtures, club));
    UnassignedFacts(|fixtures|, OwnIndices(fixtures, club));
    DistinctPermutation(free, remaining);
    forall k | 0 <= k < |remaining|
      ensures Lookup(solution, remaining[k]) == Some(solution[k].outcome)
    {
      LookupAt(solution, k, remaining[k]);
    }
    SumPermutation<nat>(free, remaining, FreeGainOf(fixtures, solution, c));
    SumAlong(fixtures, solution, remaining, c);
  }

  /** The club's own points are untouched by the free fixtures. */
  lemma ClubUntouched(fixtures: seq<Fixture>, club: Club, remaining: seq<nat>, solution: seq<Assignment>, p: map<Club, int>)
    requires multiset(remaining) == multiset(Unassigned(|fixtures|, OwnIndices(fixtures, club)))
    requires |solution| == |remaining| && forall k :: 0 <= k < |solution| ==> solution[k].index == remaining[k]
    ensures Pts(Replay(fixtures, p, solution), club) == Pts(p, club)
  {
    var A := OwnIndices(fixtures, club);
    UnassignedFacts(|fixtures|, A);
    forall k | 0 <= k < |solution|
      ensures AssignedGainOf(fixtures, club)(solution[k]) == 0
    {
      assert remaining[k] in multiset(remaining);
      assert remaining[k] in Unassigned(|fixtures|, A);
    }
    SumOfZeros(solution, AssignedGainOf(fixtures, club));
    ReplayGain(fixtures, p, solution, club);
  }

  /** Upper bound of line 159: a rival's points plus 3 per fixture it has
      left that is not against the club. */
  function RivalBoundOf(teams: map<Club, int>, fixtures: seq<Fixture>, club: Club, r: Club): (b: int)
    ensures Pts(teams, r) <= b <= Pts(teams, r) + 3 * CountInvolving(fixtures, r)
  {
    Pts(teams, r) + 3 * (CountInvolving(fixtures, r) - CountBetween(fixtures, r, club))
  }

  /** Fixtures between `r` and `c`, either way round. */
  function CountBetween(ms: seq<Fixture>, r: Club, c: Club): (n: nat)
    ensures n <= CountInvolving(ms, r)
  {
    if ms == [] then 0
    else
      var m := ms[|ms| - 1];
      CountBetween(ms[..|ms| - 1], r, c)
        + (if (m.home == r && m.away == c) || (m.away == r && m.home == c) then 1 else 0)
  }

  /** `Object.keys(teams).filter(t => t !== club)` (line 63). */
  function Others(clubs: seq<Club>, club: Club): (others: seq<Club>)
    ensures forall t :: t in others <==> t in clubs && t != club
  {
    if clubs == [] then []
    else Others(clubs[..|clubs| - 1], club) + (if clubs[|clubs| - 1] == club then [] else [clubs[|clubs| - 1]])
  }

  function BoundOf(e: (Club, int)): int { e.1 }

  /** The fallback explanation (lines 155-164): each rival's upper bound, the
      entries sorted by bound, and the first one reported. */
  method Explain(clubs: seq<Club>, teams: map<Club, int>, fixtures: seq<Fixture>, club: Club, targetMax: int)
    returns (reason: Reason)
    ensures reason.RivalBound? || reason.NoScenarioInTime?
    ensures reason.NoScenarioInTime? <==> forall t :: t in clubs ==> t == club
    ensures reason.RivalBound? ==> reason.club == club && reason.targetMax == targetMax
    ensures reason.RivalBound? ==> reason.rival in clubs && reason.rival != club
    ensures reason.RivalBound? ==> reason.bound == RivalBoundOf(teams, fixtures, club, reason.rival)
    ensures reason.RivalBound? ==>
      forall t :: t in clubs && t != club ==> RivalBoundOf(teams, fixtures, club, t) <= reason.bound
    ensures reason.RivalBound? ==> FirstWithBound(clubs, teams, fixtures, club, reason.rival, reason.bound)
  {
    var others := Others(clubs, club);
    var rivalBounds: map<Club, int> := map[];
    for k := 0 to |others|
      invariant forall t :: t in rivalBounds <==> t in others[..k]
      invariant forall t :: t in rivalBounds ==> rivalBounds[t] == RivalBoundOf(teams, fixtures, club, t)
    {
      var r := others[k];
      var remAgainstClub := CountBetween(fixtures, r, club);
      var remTotal := CountInvolving(fixtures, r);
      var ub := Pts(teams, r) + 3 * (remTotal - remAgainstClub);
      rivalBounds := rivalBounds[r := ub];
    }
    assert others[..|others|] == others;
    var entries := seq(|others|, k requires 0 <= k < |others| => (others[k], rivalBounds[others[k]]));
    var sorted := SortDescending(entries, BoundOf);
    if |sorted| > 0 {
      var worst := sorted[0];
      assert |entries| > 0 by {
        assert |sorted| == |multiset(sorted)| == |multiset(entries)| == |entries|;
      }
      WorstRival(clubs, teams, fixtures, club, others, entries, worst);
      reason := RivalBound(club, targetMax, worst.0, worst.1);
    } else {
      assert |multiset(entries)| == 0;
      reason := NoScenarioInTime;
    }
  }

  /** The first of `rivals` whose bound reaches `bound`. */
  ghost function FirstReaching(teams: map<Club, int>, fixtures: seq<Fixture>, club: Club,
                               rivals: seq<Club>, bound: int): Option<Club>
  {
    if rivals == [] then None
    else if RivalBoundOf(teams, fixtures, club, rivals[0]) >= bound then Some(rivals[0])
    else FirstReaching(teams, fixtures, club, rivals[1..], bound)
  }

  /** `rival` is the first rival in key order with bound `bound`: every
      rival listed before it has a strictly smaller bound. */
  ghost predicate FirstWithBound(clubs: seq<Club>, teams: map<Club, int>, fixtures: seq<Fixture>,
                                 club: Club, rival: Club, bound: int) {
    FirstReaching(teams, fixtures, club, Others(clubs, club), bound) == Some(rival)
  }

  /** A rival that reaches the bound, with every rival before it below the
      bound, is the first to reach it. */
  lemma {:induction false} FirstReachingAt(teams: map<Club, int>, fixtures: seq<Fixture>, club: Club,
                                           rivals: seq<Club>, bound: int, k: nat)
    requires k < |rivals| && RivalBoundOf(teams, fixtures, club, rivals[k]) >= bound
    requires forall j :: 0 <= j < k ==> RivalBoundOf(teams, fixtures, club, rivals[j]) < bound
    ensures FirstReaching(teams, fixtures, club, rivals, bound) == Some(rivals[k])
  {
    if k > 0 {
      assert RivalBoundOf(teams, fixtures, club, rivals[0]) < bound;
      FirstReachingAt(teams, fixtures, club, rivals[1..], bound, k - 1);
    }
  }

  /** The entry a stable sort by bound puts first names the first rival in
      key order with the largest bound. */
  lemma WorstRival(clubs: seq<Club>, teams: map<Club, int>, fixtures: seq<Fixture>, club: Club,
                   others: seq<Club>, entries: seq<(Club, int)>, worst: (Club, int))
    requires others == Others(clubs, club) && |entries| == |others| > 0
    requires forall k :: 0 <= k < |others| ==> entries[k] == (others[k], RivalBoundOf(teams, fixtures, club, others[k]))
    requires worst == entries[Leader(entries, BoundOf, |entries|)]
    ensures worst.0 in clubs && worst.0 != club
    ensures worst.1 == RivalBoundOf(teams, fixtures, club, worst.0)
    ensures forall t :: t in clubs && t != club ==> RivalBoundOf(teams, fixtures, club, t) <= worst.1
    ensures FirstWithBound(clubs, teams, fixtures, club, worst.0, worst.1)
  {
    LeaderLeads(entries, BoundOf, |entries|);
    assert entries[..|entries|] == entries;
    LeaderFirst(teams, fixtures, club, others, entries, Leader(entries, BoundOf, |entries|));
  }

  /** The leader of the bound entries, listed in rival order, is the first
      rival with the largest bound. */
  lemma LeaderFirst(teams: map<Club, int>, fixtures: seq<Fixture>, club: Club, others: seq<Club>,
                    entries: seq<(Club, int)>, lead: nat)
    requires |entries| == |others|
    requires forall k :: 0 <= k < |others| ==> entries[k] == (others[k], RivalBoundOf(teams, fixtures, club, others[k]))
    requires LeadsAt(entries, lead, BoundOf)
    ensures entries[lead].0 in others
    ensures entries[lead].1 == RivalBoundOf(teams, fixtures, club, entries[lead].0)
    ensures forall t :: t in others ==> RivalBoundOf(teams, fixtures, club, t) <= entries[lead].1
    ensures FirstReaching(teams, fixtures, club, others, entries[lead].1) == Some(entries[lead].0)
  {
    forall t | t in others ensures RivalBoundOf(teams, fixtures, club, t) <= entries[lead].1 {
      var k :| 0 <= k < |others| && others[k] == t;
      assert BoundOf(entries[k]) <= BoundOf(entries[lead]);
    }
    forall j | 0 <= j < lead ensures RivalBoundOf(teams, fixtures, club, others[j]) < entries[lead].1 {
      assert BoundOf(entries[j]) < BoundOf(entries[lead]);
    }
    FirstReachingAt(teams, fixtures, club, others, entries[lead].1, lead);
  }

  /** The plan has one line per input fixture, in input order: the club's
      own fixtures carry a win for it, all others an outcome. */
  ghost predicate FollowsFixtures(fixtures: seq<Fixture>, club: Club, plan: seq<PlanEntry>) {
    && |plan| == |fixtures|
    && forall i :: 0 <= i < |plan| ==>
         && FixtureOf(plan[i]) == fixtures[i]
         && plan[i].decision.Some?
         && (if Involves(fixtures[i], club) then plan[i].decision.value == Winner(club)
             else plan[i].decision.value.Picked?)
  }

  /** Replayed onto the current table, the plan leaves the club on exactly
      its maximum and every rival strictly below it. */
  ghost predicate FinishesFirst(clubs: seq<Club>, teams: map<Club, int>, club: Club, tm: int, plan: seq<PlanEntry>) {
    var final := Projected(teams, plan);
    Pts(final, club) == tm && forall t :: t in clubs && t != club ==> Pts(final, t) < tm
  }

  /** Along any plan that follows the fixtures, the club gains exactly 3 per
      own fixture, and any other club at most 3 per fixture it plays that is
      not against the club (which the club wins). */
  lemma {:induction false} FollowedGains(fixtures: seq<Fixture>, club: Club, plan: seq<PlanEntry>, c: Club, n: nat)
    requires FollowsFixtures(fixtures, club, plan) && n <= |fixtures|
    ensures c == club ==> Sum(plan[..n], GainsOf(c)) == 3 * CountInvolving(fixtures[..n], c)
    ensures c != club ==>
      Sum(plan[..n], GainsOf(c)) <= 3 * (CountInvolving(fixtures[..n], c) - CountBetween(fixtures[..n], c, club))
  {
    if n > 0 {
      FollowedGains(fixtures, club, plan, c, n - 1);
      assert plan[..n][..n - 1] == plan[..n - 1];
      assert fixtures[..n][..n - 1] == fixtures[..n - 1];
      var m := fixtures[n - 1];
      assert FixtureOf(plan[n - 1]) == m;
    }
  }

  /** The target maximum of lines 59-60 is what the club finishes on under
      any plan that follows the fixtures. */
  lemma TargetMaxReached(teams: map<Club, int>, fixtures: seq<Fixture>, club: Club, plan: seq<PlanEntry>)
    requires FollowsFixtures(fixtures, club, plan)
    ensures Pts(Projected(teams, plan), club) == TargetMax(teams, fixtures, club)
  {
    ProjectedGain(teams, plan, club);
    FollowedGains(fixtures, club, plan, club, |fixtures|);
    assert plan[..|fixtures|] == plan && fixtures[..|fixtures|] == fixtures;
  }

  /** The bound of line 159 is a true upper bound: no plan that follows the
      fixtures takes a rival above it. */
  lemma RivalBoundHolds(teams: map<Club, int>, fixtures: seq<Fixture>, club: Club, plan: seq<PlanEntry>, r: Club)
    requires FollowsFixtures(fixtures, club, plan) && r != club
    ensures Pts(Projected(teams, plan), r) <= RivalBoundOf(teams, fixtures, club, r)
  {
    ProjectedGain(teams, plan, r);
    FollowedGains(fixtures, club, plan, r, |fixtures|);
    assert plan[..|fixtures|] == plan && fixtures[..|fixtures|] == fixtures;
  }

  /** Everything `simulateForClub` promises about its result. */
  ghost predicate Sound(clubs: seq<Club>, teams: map<Club, int>, fixtures: seq<Fixture>, club: Club, res: ClubResult) {
    var tm := TargetMax(teams, fixtures, club);
    && (res.Impossible? && res.reason.OutOfReach? <==> !RivalsWithin(clubs, teams, club, tm))
    && (res.Impossible? && res.reason.OutOfReach? ==>
          && res.reason.club == club && res.reason.targetMax == tm
          && res.reason.rivalPoints == Pts(teams, res.reason.rival)
          && FirstAbove(clubs, teams, club, tm, res.reason.rival))
    && (res.Possible? ==> FollowsFixtures(fixtures, club, res.plan) && FinishesFirst(clubs, teams, club, tm, res.plan))
    && (res.Impossible? && res.reason.RivalBound? ==>
          && res.reason.club == club && res.reason.targetMax == tm
          && res.reason.rival in clubs && res.reason.rival != club
          && res.reason.bound == RivalBoundOf(teams, fixtures, club, res.reason.rival)
          && forall t :: t in clubs && t != club ==> RivalBoundOf(teams, fixtures, club, t) <= res.reason.bound)
    && (res.Impossible? && res.reason.NoScenarioInTime? ==> forall t :: t in clubs ==> t == club)
  }

  /** The plan built from a solution of the search is a complete schedule
      that leaves the club strictly first on its maximum. */
  lemma PlanFinishesFirst(clubs: seq<Club>, teams: map<Club, int>, fixtures: seq<Fixture>, club: Club,
                          remaining: seq<nat>, s: seq<Assignment>, plan: seq<PlanEntry>)
    requires multiset(remaining) == multiset(Unassigned(|fixtures|, OwnIndices(fixtures, club)))
    requires |s| == |remaining| && forall k :: 0 <= k < |s| ==> s[k].index == remaining[k]
    requires |plan| == |fixtures|
    requires forall i :: 0 <= i < |fixtures| ==> plan[i] == EntryFor(fixtures, club, i, Lookup(s, i))
    requires StrictlyFirst(clubs, Replay(fixtures, Boosted(teams, fixtures, club), s), club)
    ensures FollowsFixtures(fixtures, club, plan)
    ensures FinishesFirst(clubs, teams, club, TargetMax(teams, fixtures, club), plan)
  {
    var boosted := Boosted(teams, fixtures, club);
    var free := Unassigned(|fixtures|, OwnIndices(fixtures, club));
    UnassignedFacts(|fixtures|, OwnIndices(fixtures, club));
    DistinctPermutation(free, remaining);
    forall t | t in clubs
      ensures Pts(Projected(teams, plan), t) == Pts(Replay(fixtures, boosted, s), t)
    {
      PlanAgreesWithSearch(fixtures, club, teams, remaining, s, plan, t);
    }
    PlanAgreesWithSearch(fixtures, club, teams, remaining, s, plan, club);
    ClubUntouched(fixtures, club, remaining, s, boosted);
    FreeFixturesDecided(fixtures, club, remaining, s);
  }

  /** The search settles every fixture the club does not play in. */
  lemma FreeFixturesDecided(fixtures: seq<Fixture>, club: Club, remaining: seq<nat>, s: seq<Assignment>)
    requires multiset(remaining) == multiset(Unassigned(|fixtures|, OwnIndices(fixtures, club)))
    requires |s| == |remaining| && forall k :: 0 <= k < |s| ==> s[k].index == remaining[k]
    ensures forall i :: 0 <= i < |fixtures| && !Involves(fixtures[i], club) ==> Lookup(s, i).Some?
  {
    forall i | 0 <= i < |fixtures| && !Involves(fixtures[i], club)
      ensures Lookup(s, i).Some?
    {
      FreeFixtureDecided(fixtures, club, remaining, s, i);
    }
  }

  lemma FreeFixtureDecided(fixtures: seq<Fixture>, club: Club, remaining: seq<nat>, s: seq<Assignment>, i: nat)
    requires multiset(remaining) == multiset(Unassigned(|fixtures|, OwnIndices(fixtures, club)))
    requires |s| == |remaining| && forall k :: 0 <= k < |s| ==> s[k].index == remaining[k]
    requires i < |fixtures| && !Involves(fixtures[i], club)
    ensures Lookup(s, i).Some?
  {
    var A := OwnIndices(fixtures, club);
    assert i !in A;
    UnassignedHas(|fixtures|, A, i);
    assert i in multiset(remaining);
    var k :| 0 <= k < |remaining| && remaining[k] == i;
    FirstIndexOf(s, k, i);
  }

  /** An index below `n` that is not forced is left unassigned. */
  lemma {:induction false} UnassignedHas(n: nat, forced: set<nat>, i: nat)
    requires i < n && i !in forced
    ensures i in Unassigned(n, forced)
  {
    if i < n - 1 {
      UnassignedHas(n - 1, forced, i);
    }
  }

  /** If some assignment names fixture `i`, the lookup finds one. */
  lemma {:induction false} FirstIndexOf(s: seq<Assignment>, k: nat, i: nat)
    requires k < |s| && s[k].index == i
    ensures Lookup(s, i).Some?
  {
    if s[0].index != i {
      FirstIndexOf(s[1..], k - 1, i);
    }
  }

  /** With no rival listed, every fixture involves the club, so nothing is
      left for the search. */
  lemma NoRivalsNothingFree(clubs: seq<Club>, teams: map<Club, int>, fixtures: seq<Fixture>, club: Club,
                            remaining: seq<nat>)
    requires WellFormed(clubs, teams, fixtures)
    requires forall t :: t in clubs ==> t == club
    requires multiset(remaining) == multiset(Unassigned(|fixtures|, OwnIndices(fixtures, club)))
    ensures remaining == []
  {
    var free := Unassigned(|fixtures|, OwnIndices(fixtures, club));
    UnassignedFacts(|fixtures|, OwnIndices(fixtures, club));
    forall i: nat | i < |fixtures| ensures i in OwnIndices(fixtures, club) {
      var m := fixtures[i];
      assert m in fixtures;
      assert m.home in clubs && m.away in clubs;
    }
    UnassignedAllForced(|fixtures|, OwnIndices(fixtures, club));
    assert |remaining| == |multiset(remaining)| == 0;
  }

  /** Lines 79-86: the fixtures not forced, ordered by the larger of their
      two sides' boosted points, highest first. */
  method OrderFree(fixtures: seq<Fixture>, forced: set<nat>, boosted: map<Club, int>) returns (remaining: seq<nat>)
    ensures multiset(remaining) == multiset(Unassigned(|fixtures|, forced))
    ensures NonIncreasing(remaining, StakeOf(fixtures, boosted))
    ensures forall k :: 0 <= k < |remaining| ==> remaining[k] < |fixtures| && remaining[k] !in forced
  {
    var free := Unassigned(|fixtures|, forced);
    UnassignedFacts(|fixtures|, forced);
    remaining := SortDescending<nat>(free, StakeOf(fixtures, boosted));
    forall k | 0 <= k < |remaining| ensures remaining[k] < |fixtures| && remaining[k] !in forced {
      assert remaining[k] in multiset(remaining);
      assert remaining[k] in free;
    }
  }

  /** Lines 134-136: a fresh search from the boosted table with an empty
      stack. A solution assigns every remaining fixture in order and leaves
      the club strictly first. */
  method RunSearch(clubs: seq<Club>, fixtures: seq<Fixture>, club: Club, targetMax: int, budget: nat,
                   boosted: map<Club, int>, remaining: seq<nat>)
    returns (solution: Option<seq<Assignment>>)
    requires Keyed(clubs, boosted)
    requires forall k :: 0 <= k < |remaining| ==> remaining[k] < |fixtures|
    requires forall i :: 0 <= i < |fixtures| ==> fixtures[i].home in clubs && fixtures[i].away in clubs
    ensures solution.Some? ==> |solution.value| == |remaining|
    ensures solution.Some? ==> forall k :: 0 <= k < |remaining| ==> solution.value[k].index == remaining[k]
    ensures solution.Some? ==> StrictlyFirst(clubs, Replay(fixtures, boosted, solution.value), club)
    ensures budget == 0 ==> solution.None?
    ensures (budget > 0 && remaining == [] && StrictlyFirst(clubs, boosted, club)
             && RivalsWithin(clubs, boosted, club, targetMax)) ==> solution.Some?
  {
    var search := new Search(club, clubs, fixtures, remaining, targetMax, budget);
    solution := search.Dfs(0, boosted);
    if solution.Some? {
      assert solution.value[0..] == solution.value;
    }
  }

  /** A plan found after the prefilter passed keeps the promise. */
  lemma PossibleSound(clubs: seq<Club>, teams: map<Club, int>, fixtures: seq<Fixture>, club: Club, plan: seq<PlanEntry>)
    requires RivalsWithin(clubs, teams, club, TargetMax(teams, fixtures, club))
    requires FollowsFixtures(fixtures, club, plan)
    requires FinishesFirst(clubs, teams, club, TargetMax(teams, fixtures, club), plan)
    ensures Sound(clubs, teams, fixtures, club, Possible(plan))
  {
  }

  /** An explanation given after the prefilter passed keeps the promise. */
  lemma ExplainedSound(clubs: seq<Club>, teams: map<Club, int>, fixtures: seq<Fixture>, club: Club, reason: Reason)
    requires RivalsWithin(clubs, teams, club, TargetMax(teams, fixtures, club))
    requires reason.RivalBound? || reason.NoScenarioInTime?
    requires reason.NoScenarioInTime? <==> forall t :: t in clubs ==> t == club
    requires reason.RivalBound? ==> reason.club == club && reason.targetMax == TargetMax(teams, fixtures, club)
    requires reason.RivalBound? ==> reason.rival in clubs && reason.rival != club
    requires reason.RivalBound? ==> reason.bound == RivalBoundOf(teams, fixtures, club, reason.rival)
    requires reason.RivalBound? ==>
      forall t :: t in clubs && t != club ==> RivalBoundOf(teams, fixtures, club, t) <= reason.bound
    ensures Sound(clubs, teams, fixtures, club, Impossible(reason))
  {
  }

  /** `simulateForClub(club, teams, matches)` (lines 53-165), with the time
      limit given as a clock budget. Sound for every budget; not complete. */
  method SimulateForClub(clubs: seq<Club>, teams: map<Club, int>, fixtures: seq<Fixture>, club: Club, budget: nat)
    returns (res: ClubResult)
    requires WellFormed(clubs, teams, fixtures) && club in teams
    ensures Sound(clubs, teams, fixtures, club, res)
    ensures budget == 0 ==> res.Impossible?
    ensures budget > 0 && (forall t :: t in clubs ==> t == club) ==> res.Possible?
    ensures budget > 0 && fixtures == [] && StrictlyFirst(clubs, teams, club) ==> res.Possible?
    ensures res.Impossible? && res.reason.RivalBound? ==>
      FirstWithBound(clubs, teams, fixtures, club, res.reason.rival, res.reason.bound)
  {
    var targetMax := Pts(teams, club) + 3 * CountInvolving(fixtures, club);
    var hit := FindRivalAbove(clubs, teams, club, targetMax);
    if hit.Some? {
      return Impossible(OutOfReach(club, targetMax, hit.value, Pts(teams, hit.value)));
    }
    var boosted, forced := ForceWins(club, fixtures, teams);
    var remaining := OrderFree(fixtures, forced, boosted);
    assert forall i :: 0 <= i < |fixtures| ==> fixtures[i] in fixtures;
    if forall t :: t in clubs ==> t == club {
      NoRivalsNothingFree(clubs, teams, fixtures, club, remaining);
      assert StrictlyFirst(clubs, boosted, club);
    }
    if fixtures == [] {
      assert |remaining| == |multiset(remaining)| == 0;
      assert boosted == teams;
    }
    var solution := RunSearch(clubs, fixtures, club, targetMax, budget, boosted, remaining);
    if solution.Some? {
      var s := solution.value;
      var plan := BuildPlan(fixtures, club, s);
      PlanFinishesFirst(clubs, teams, fixtures, club, remaining, s, plan);
      PossibleSound(clubs, teams, fixtures, club, plan);
      return Possible(plan);
    }
    var reason := Explain(clubs, teams, fixtures, club, targetMax);
    ExplainedSound(clubs, teams, fixtures, club, reason);
    return Impossible(reason);
  }

  /** Every recorded result meets its club's promise. */
  ghost predicate AllSound(clubs: seq<Club>, teams: map<Club, int>, fixtures: seq<Fixture>, results: map<Club, ClubResult>) {
    forall c :: c in results ==> Sound(clubs, teams, fixtures, c, results[c])
  }

  lemma AllSoundUpdate(clubs: seq<Club>, teams: map<Club, int>, fixtures: seq<Fixture>,
                       results: map<Club, ClubResult>, club: Club, res: ClubResult)
    requires AllSound(clubs, teams, fixtures, results) && Sound(clubs, teams, fixtures, club, res)
    ensures AllSound(clubs, teams, fixtures, results[club := res])
  {
  }

  /** `simulateAll` (lines 43-51): clubs in descending order of points, one
      independent solver run per club. Each run starts its own clock, so each
      club has its own budget of clock readings. */
  /** One pass of the loop of lines 46-49: run the club and record its
      result. */
  method RecordClub(clubs: seq<Club>, teams: map<Club, int>, fixtures: seq<Fixture>, club: Club, budget: nat,
                    results: map<Club, ClubResult>)
    returns (results': map<Club, ClubResult>)
    requires WellFormed(clubs, teams, fixtures) && club in clubs
    requires AllSound(clubs, teams, fixtures, results)
    ensures results'.Keys == results.Keys + {club}
    ensures AllSound(clubs, teams, fixtures, results')
  {
    var res := SimulateForClub(clubs, teams, fixtures, club, budget);
    AllSoundUpdate(clubs, teams, fixtures, results, club, res);
    results' := results[club := res];
  }

  method SimulateAll(clubs: seq<Club>, teams: map<Club, int>, fixtures: seq<Fixture>, budgets: Club -> nat)
    returns (order: seq<Club>, results: map<Club, ClubResult>)
    requires WellFormed(clubs, teams, fixtures)
    ensures multiset(order) == multiset(clubs) && NonIncreasing(order, PointsIn(teams))
    ensures forall c :: c in results <==> c in clubs
    ensures AllSound(clubs, teams, fixtures, results)
  {
    order := SortDescending(clubs, PointsIn(teams));
    results := map[];
    for i := 0 to |order|
      invariant forall c :: c in results <==> c in order[..i]
      invariant AllSound(clubs, teams, fixtures, results)
    {
      var club := order[i];
      assert club in multiset(clubs);
      results := RecordClub(clubs, teams, fixtures, club, budgets(club), results);
    }
    assert order[..|order|] == order;
    forall c ensures c in order <==> c in clubs {
      assert c in order <==> c in multiset(order);
      assert c in clubs <==> c in multiset(clubs);
    }
  }
}
