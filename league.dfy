/** Shared vocabulary of both league scripts: clubs, fixtures, outcomes, the
    points table, and the arithmetic facts about sums that the other modules
    build on. */
module League {

  datatype Option<+T> = None | Some(value: T)

  /** A club is identified by its name. */
  type Club = string

  /** A remaining fixture: the date label it was listed under and the two sides. */
  datatype Fixture = Fixture(date: string, home: Club, away: Club)

  datatype Outcome = Home | Draw | Away

  predicate Involves(m: Fixture, c: Club) {
    m.home == c || m.away == c
  }

  /** The points the scripts read for club `c`: `p[c] || 0`, so a club that is
      not in the table reads as 0. */
  function Pts(p: map<Club, int>, c: Club): int {
    if c in p then p[c] else 0
  }

  /** Points club `c` receives from fixture `m` ending in `o`. */
  function Gain(m: Fixture, o: Outcome, c: Club): (g: int)
    ensures 0 <= g <= 3
    ensures !Involves(m, c) ==> g == 0
  {
    match o
    case Home => if c == m.home then 3 else 0
    case Away => if c == m.away then 3 else 0
    case Draw => (if c == m.home then 1 else 0) + (if c == m.away then 1 else 0)
  }

  /** Both sides' share of one fixture: a decisive result hands out 3 + 0, a
      draw 1 + 1. */
  lemma FixtureShares(m: Fixture, o: Outcome)
    requires m.home != m.away
    ensures o == Home ==> Gain(m, o, m.home) == 3 && Gain(m, o, m.away) == 0
    ensures o == Away ==> Gain(m, o, m.home) == 0 && Gain(m, o, m.away) == 3
    ensures o == Draw ==> Gain(m, o, m.home) == 1 && Gain(m, o, m.away) == 1
    ensures Gain(m, o, m.home) + Gain(m, o, m.away) == if o == Draw then 2 else 3
  {
  }

  /** The update both scripts perform for one decided fixture:
      `p[home] = (p[home]||0) + 3`, the same for away, or `+ 1` to each side
      (home first) for a draw. */
  function Award(p: map<Club, int>, m: Fixture, o: Outcome): (r: map<Club, int>)
    ensures forall c :: Pts(r, c) == Pts(p, c) + Gain(m, o, c)
    ensures m.home in p && m.away in p ==> r.Keys == p.Keys
  {
    match o
    case Home => p[m.home := Pts(p, m.home) + 3]
    case Away => p[m.away := Pts(p, m.away) + 3]
    case Draw =>
      var q := p[m.home := Pts(p, m.home) + 1];
      q[m.away := Pts(q, m.away) + 1]
  }

  predicate Distinct<T(==)>(s: seq<T>) {
    forall i, j :: 0 <= i < j < |s| ==> s[i] != s[j]
  }

  /** `clubs` lists the keys of the points table `p` once each. The order is
      the table's key order (the order `Object.keys` reports), which this
      predicate does not fix: Parse.KeysRead states it for a parsed table. */
  ghost predicate Keyed(clubs: seq<Club>, p: map<Club, int>) {
    Distinct(clubs) && forall c :: c in p <==> c in clubs
  }

  /** Every side of every fixture is a key of the table. */
  predicate Covers(p: map<Club, int>, ms: seq<Fixture>) {
    forall m :: m in ms ==> m.home in p && m.away in p
  }

  /** What the parsers hand to the simulators. */
  ghost predicate WellFormed(clubs: seq<Club>, p: map<Club, int>, ms: seq<Fixture>) {
    Keyed(clubs, p) && Covers(p, ms)
  }

  /** Number of fixtures in which `c` is home or away (`filter(...).length`). */
  function CountInvolving(ms: seq<Fixture>, c: Club): (n: nat)
    ensures n <= |ms|
  {
    if ms == [] then 0
    else CountInvolving(ms[..|ms| - 1], c) + (if Involves(ms[|ms| - 1], c) then 1 else 0)
  }

  lemma CountInvolvingSnoc(ms: seq<Fixture>, m: Fixture, c: Club)
    ensures CountInvolving(ms + [m], c) == CountInvolving(ms, c) + (if Involves(m, c) then 1 else 0)
  {
    assert (ms + [m])[..|ms|] == ms;
  }

  /** Sum of `f` over `s`, accumulated from the left as a loop would. */
  function Sum<T>(s: seq<T>, f: T -> int): int {
    if s == [] then 0 else Sum(s[..|s| - 1], f) + f(s[|s| - 1])
  }

  lemma {:induction false} SumAppend<T>(a: seq<T>, b: seq<T>, f: T -> int)
    ensures Sum(a + b, f) == Sum(a, f) + Sum(b, f)
  {
    if b == [] {
      assert a + b == a;
    } else {
      var b' := b[..|b| - 1];
      assert (a + b)[..|a + b| - 1] == a + b';
      SumAppend(a, b', f);
    }
  }

  /** Extending a prefix by one element adds that element's term. */
  lemma SumPrefixStep<T>(s: seq<T>, i: nat, f: T -> int)
    requires i < |s|
    ensures Sum(s[..i + 1], f) == Sum(s[..i], f) + f(s[i])
  {
    assert s[..i + 1][..i] == s[..i];
  }

  lemma SumCons<T>(x: T, s: seq<T>, f: T -> int)
    ensures Sum([x] + s, f) == f(x) + Sum(s, f)
  {
    SumAppend([x], s, f);
    assert [x][..0] == [];
  }

  /** Dropping the element at `j` removes one copy of it from the multiset. */
  lemma MultisetRemoveAt<T>(b: seq<T>, j: nat)
    requires j < |b|
    ensures multiset(b[..j] + b[j + 1..]) == multiset(b) - multiset{b[j]}
  {
    assert b == b[..j] + [b[j]] + b[j + 1..];
  }

  /** Dropping the element at `j` removes its term from the sum. */
  lemma {:induction false} SumRemoveAt<T>(b: seq<T>, j: nat, f: T -> int)
    requires j < |b|
    ensures Sum(b, f) == Sum(b[..j] + b[j + 1..], f) + f(b[j])
  {
    var pre, x, post := b[..j], b[j], b[j + 1..];
    assert b == (pre + [x]) + post;
    assert [x][..0] == [];
    SumAppend(pre + [x], post, f);
    SumAppend(pre, [x], f);
    SumAppend(pre, post, f);
  }

  /** A sum depends only on the multiset of its terms. */
  lemma {:induction false} SumPermutation<T>(a: seq<T>, b: seq<T>, f: T -> int)
    requires multiset(a) == multiset(b)
    ensures Sum(a, f) == Sum(b, f)
  {
    if a == [] {
      assert |b| == |multiset(b)| == 0;
    } else {
      var x := a[|a| - 1];
      var a' := a[..|a| - 1];
      assert a == a' + [x];
      assert multiset(a') == multiset(a) - multiset{x};
      assert x in multiset(b);
      var j :| 0 <= j < |b| && b[j] == x;
      MultisetRemoveAt(b, j);
      SumRemoveAt(b, j, f);
      SumPermutation(a', b[..j] + b[j + 1..], f);
    }
  }

  /** Two term functions that agree on `s` give the same sum. */
  lemma {:induction false} SumAgree<T>(s: seq<T>, f: T -> int, g: T -> int)
    requires forall i :: 0 <= i < |s| ==> f(s[i]) == g(s[i])
    ensures Sum(s, f) == Sum(s, g)
  {
    if s != [] {
      SumAgree(s[..|s| - 1], f, g);
    }
  }

  /** Sums are additive in their terms. */
  lemma {:induction false} SumAdd<T>(s: seq<T>, f: T -> int, g: T -> int, h: T -> int)
    requires forall i :: 0 <= i < |s| ==> h(s[i]) == f(s[i]) + g(s[i])
    ensures Sum(s, h) == Sum(s, f) + Sum(s, g)
  {
    if s != [] {
      SumAdd(s[..|s| - 1], f, g, h);
    }
  }

  lemma {:induction false} SumOfZeros<T>(s: seq<T>, f: T -> int)
    requires forall i :: 0 <= i < |s| ==> f(s[i]) == 0
    ensures Sum(s, f) == 0
  {
    if s != [] {
      SumOfZeros(s[..|s| - 1], f);
    }
  }

  /** `Indicator(x, k)` is `k` at `x` and 0 elsewhere. */
  function Indicator(x: Club, k: int): Club -> int {
    c => if c == x then k else 0
  }

  /** Summed over a list that names every club once, an indicator of `x` picks
      up its weight exactly when `x` is listed. */
  lemma {:induction false} SumIndicator(clubs: seq<Club>, x: Club, k: int)
    requires Distinct(clubs)
    ensures Sum(clubs, Indicator(x, k)) == if x in clubs then k else 0
  {
    if clubs != [] {
      var init := clubs[..|clubs| - 1];
      assert clubs == init + [clubs[|clubs| - 1]];
      SumIndicator(init, x, k);
    }
  }

  /** League total of a points table over the listed clubs. */
  function Total(clubs: seq<Club>, p: map<Club, int>): int {
    Sum(clubs, PointsIn(p))
  }

  function PointsIn(p: map<Club, int>): Club -> int {
    c => Pts(p, c)
  }

  /** Points conservation: one decided fixture between listed clubs raises
      the league total by 3 when decisive and by 2 when drawn. A fixture whose
      two sides are the same club, which both parsers accept, conserves too:
      its club takes the 3, or the 1 twice. */
  lemma AwardTotal(clubs: seq<Club>, p: map<Club, int>, m: Fixture, o: Outcome)
    requires Distinct(clubs) && m.home in clubs && m.away in clubs
    ensures Total(clubs, Award(p, m, o)) == Total(clubs, p) + if o == Draw then 2 else 3
  {
    var r := Award(p, m, o);
    if m.home == m.away {
      var g := Gain(m, o, m.home);
      SumAdd(clubs, PointsIn(p), Indicator(m.home, g), PointsIn(r));
      SumIndicator(clubs, m.home, g);
    } else {
      var hg := Gain(m, o, m.home);
      var ag := Gain(m, o, m.away);
      var homePart := Indicator(m.home, hg);
      var awayPart := Indicator(m.away, ag);
      var both := c => homePart(c) + awayPart(c);
      SumAdd(clubs, PointsIn(p), both, PointsIn(r));
      SumAdd(clubs, homePart, awayPart, both);
      SumIndicator(clubs, m.home, hg);
      SumIndicator(clubs, m.away, ag);
      FixtureShares(m, o);
    }
  }

  /** A list with no repeats has every multiplicity at most one, and back. */
  lemma {:induction false} DistinctMultiplicity<T>(s: seq<T>)
    ensures Distinct(s) <==> forall x :: multiset(s)[x] <= 1
  {
    if s == [] {
    } else {
      var init := s[..|s| - 1];
      var x := s[|s| - 1];
      assert s == init + [x];
      DistinctMultiplicity(init);
      if Distinct(s) {
        assert x !in init;
      } else {
        var i, j :| 0 <= i < j < |s| && s[i] == s[j];
        if j < |s| - 1 {
          assert !Distinct(init);
          var y :| multiset(init)[y] > 1;
          assert multiset(s)[y] >= multiset(init)[y];
        } else {
          assert init[i] == x;
          assert multiset(s)[x] == multiset(init)[x] + 1;
        }
      }
    }
  }

  /** A permutation of a list without repeats has no repeats. */
  lemma DistinctPermutation<T>(a: seq<T>, b: seq<T>)
    requires Distinct(a) && multiset(a) == multiset(b)
    ensures Distinct(b)
  {
    DistinctMultiplicity(a);
    DistinctMultiplicity(b);
  }
}
