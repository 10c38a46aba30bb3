/** The two orders the scripts sort by, and the sorts themselves.
    `Array.prototype.sort` is stable, so both sorts here are stable insertion
    sorts: elements the comparator calls equal keep their input order. */
module Ordering {

  /** Name order: lexicographic by character code. It stands in for
      `localeCompare`, whose result depends on the user's locale. */
  predicate NameLe(a: string, b: string) {
    a == [] || (b != [] && (a[0] < b[0] || (a[0] == b[0] && NameLe(a[1..], b[1..]))))
  }

  lemma {:induction false} NameLeTotal(a: string, b: string)
    ensures NameLe(a, b) || NameLe(b, a)
  {
    if a != [] && b != [] && a[0] == b[0] {
      NameLeTotal(a[1..], b[1..]);
    }
  }

  lemma {:induction false} NameLeTransitive(a: string, b: string, c: string)
    requires NameLe(a, b) && NameLe(b, c)
    ensures NameLe(a, c)
  {
    if a != [] && b != [] && c != [] && a[0] == b[0] == c[0] {
      NameLeTransitive(a[1..], b[1..], c[1..]);
    }
  }

  lemma {:induction false} NameLeAntisymmetric(a: string, b: string)
    requires NameLe(a, b) && NameLe(b, a)
    ensures a == b
  {
    if a != [] && b != [] {
      NameLeAntisymmetric(a[1..], b[1..]);
      assert a == [a[0]] + a[1..] && b == [b[0]] + b[1..];
    }
  }

  /** One line of a standings table. */
  datatype Standing = Standing(team: string, pts: int)

  /** `a` may be listed before `b` under the comparator
      `b.pts - a.pts || a.team.localeCompare(b.team)`: more points first,
      equal points by name. */
  predicate RanksAbove(a: Standing, b: Standing) {
    a.pts > b.pts || (a.pts == b.pts && NameLe(a.team, b.team))
  }

  lemma RanksAboveTotal(a: Standing, b: Standing)
    ensures RanksAbove(a, b) || RanksAbove(b, a)
  {
    NameLeTotal(a.team, b.team);
  }

  lemma RanksAboveTransitive(a: Standing, b: Standing, c: Standing)
    requires RanksAbove(a, b) && RanksAbove(b, c)
    ensures RanksAbove(a, c)
  {
    if a.pts == b.pts == c.pts {
      NameLeTransitive(a.team, b.team, c.team);
    }
  }

  /** Two lines naming different clubs are never tied. */
  lemma RanksAboveStrict(a: Standing, b: Standing)
    requires RanksAbove(a, b) && RanksAbove(b, a)
    ensures a.team == b.team && a.pts == b.pts
  {
    NameLeAntisymmetric(a.team, b.team);
  }

  /** `s` is in standings order, each element read through `key`. */
  predicate Ranked<T>(s: seq<T>, key: T -> Standing) {
    forall i, j :: 0 <= i < j < |s| ==> RanksAbove(key(s[i]), key(s[j]))
  }

  /** Putting `h` in front of a list in standings order keeps the order when
      `h` ranks above every element. */
  lemma RankedCons<T>(h: T, t: seq<T>, key: T -> Standing)
    requires Ranked(t, key)
    requires forall j :: 0 <= j < |t| ==> RanksAbove(key(h), key(t[j]))
    ensures Ranked([h] + t, key)
  {
    var r := [h] + t;
    forall i, j | 0 <= i < j < |r| ensures RanksAbove(key(r[i]), key(r[j])) {
      if i > 0 {
        assert r[i] == t[i - 1] && r[j] == t[j - 1];
      }
    }
  }

  /** An element that the head of a ranked list does not rank above ranks
      above the whole list. */
  lemma AboveAll<T>(s: seq<T>, x: T, key: T -> Standing)
    requires Ranked(s, key) && s != [] && !RanksAbove(key(s[0]), key(x))
    ensures forall j :: 0 <= j < |s| ==> RanksAbove(key(x), key(s[j]))
  {
    RanksAboveTotal(key(s[0]), key(x));
    forall j | 0 <= j < |s| ensures RanksAbove(key(x), key(s[j])) {
      if j > 0 { RanksAboveTransitive(key(x), key(s[0]), key(s[j])); }
    }
  }

  /** The head of a ranked list ranks above everything in a list holding
      the rest of it and one element it ranks above. */
  lemma HeadAbove<T>(s: seq<T>, x: T, rest: seq<T>, key: T -> Standing)
    requires Ranked(s, key) && s != [] && RanksAbove(key(s[0]), key(x))
    requires multiset(rest) == multiset(s[1..]) + multiset{x}
    ensures forall j :: 0 <= j < |rest| ==> RanksAbove(key(s[0]), key(rest[j]))
  {
    forall j | 0 <= j < |rest| ensures RanksAbove(key(s[0]), key(rest[j])) {
      assert rest[j] in multiset(rest);
      if rest[j] != x {
        assert rest[j] in multiset(s[1..]);
        var k :| 0 <= k < |s[1..]| && s[1..][k] == rest[j];
        assert s[k + 1] == rest[j];
      }
    }
  }

  /** Stable insertion of `x` into a list already in standings order: `x`
      goes after every element it does not strictly precede. */
  function InsertRanked<T>(s: seq<T>, x: T, key: T -> Standing): (r: seq<T>)
    requires Ranked(s, key)
    ensures Ranked(r, key)
    ensures multiset(r) == multiset(s) + multiset{x}
  {
    if s == [] then [x]
    else if !RanksAbove(key(s[0]), key(x)) then
      AboveAll(s, x, key);
      RankedCons(x, s, key);
      [x] + s
    else
      var rest := InsertRanked(s[1..], x, key);
      assert s == [s[0]] + s[1..];
      HeadAbove(s, x, rest, key);
      RankedCons(s[0], rest, key);
      [s[0]] + rest
  }

  /** `rows.sort(byPointsThenName)`: the result is in standings order and is
      a permutation of the input. */
  method SortStandings<T>(s: seq<T>, key: T -> Standing) returns (r: seq<T>)
    ensures Ranked(r, key)
    ensures multiset(r) == multiset(s)
  {
    r := [];
    for i := 0 to |s|
      invariant Ranked(r, key)
      invariant multiset(r) == multiset(s[..i])
    {
      assert s[..i + 1] == s[..i] + [s[i]];
      r := InsertRanked(r, s[i], key);
    }
    assert s[..|s|] == s;
  }

  /** `s` is in non-increasing order of `key`. */
  predicate NonIncreasing<T>(s: seq<T>, key: T -> int) {
    forall i, j :: 0 <= i < j < |s| ==> key(s[i]) >= key(s[j])
  }

  /** Putting `h` in front of a non-increasing list keeps it non-increasing
      when `h`'s key is at least every other key. */
  lemma NonIncreasingCons<T>(h: T, t: seq<T>, key: T -> int)
    requires NonIncreasing(t, key)
    requires forall j :: 0 <= j < |t| ==> key(h) >= key(t[j])
    ensures NonIncreasing([h] + t, key)
  {
    var r := [h] + t;
    forall i, j | 0 <= i < j < |r| ensures key(r[i]) >= key(r[j]) {
      if i > 0 {
        assert r[i] == t[i - 1] && r[j] == t[j - 1];
      }
    }
  }

  /** The head of a non-increasing list has a key at least that of everything
      in a list holding the rest of it and one element of smaller or equal key. */
  lemma HeadAtLeast<T>(s: seq<T>, x: T, rest: seq<T>, key: T -> int)
    requires NonIncreasing(s, key) && s != [] && key(s[0]) >= key(x)
    requires multiset(rest) == multiset(s[1..]) + multiset{x}
    ensures forall j :: 0 <= j < |rest| ==> key(s[0]) >= key(rest[j])
  {
    forall j | 0 <= j < |rest| ensures key(s[0]) >= key(rest[j]) {
      assert rest[j] in multiset(rest);
      if rest[j] != x {
        assert rest[j] in multiset(s[1..]);
        var k :| 0 <= k < |s[1..]| && s[1..][k] == rest[j];
        assert s[k + 1] == rest[j];
      }
    }
  }

  /** Stable insertion of `x` into a list already in non-increasing key order. */
  function InsertDescending<T>(s: seq<T>, x: T, key: T -> int): (r: seq<T>)
    requires NonIncreasing(s, key)
    ensures NonIncreasing(r, key)
    ensures multiset(r) == multiset(s) + multiset{x}
    ensures s != [] ==> r[0] == if key(s[0]) < key(x) then x else s[0]
  {
    if s == [] then [x]
    else if key(s[0]) < key(x) then
      NonIncreasingCons(x, s, key);
      [x] + s
    else
      var rest := InsertDescending(s[1..], x, key);
      assert s == [s[0]] + s[1..];
      HeadAtLeast(s, x, rest, key);
      NonIncreasingCons(s[0], rest, key);
      [s[0]] + rest
  }

  /** `s.sort((a, b) => key(b) - key(a))`: the result is in non-increasing key
      order and is a permutation of the input. */
  method SortDescending<T>(s: seq<T>, key: T -> int) returns (r: seq<T>)
    ensures NonIncreasing(r, key)
    ensures multiset(r) == multiset(s)
    ensures s != [] ==> r[0] == s[Leader(s, key, |s|)]
  {
    r := [];
    for i := 0 to |s|
      invariant NonIncreasing(r, key)
      invariant multiset(r) == multiset(s[..i])
      invariant i > 0 ==> r != [] && r[0] == s[Leader(s, key, i)]
    {
      assert s[..i + 1] == s[..i] + [s[i]];
      if i == 0 {
        assert |r| == |multiset(r)| == 0;
      }
      r := InsertDescending(r, s[i], key);
      assert s[i] in multiset(r);
    }
    assert s[..|s|] == s;
  }

  /** Where a stable sort by descending key finds the element it puts first
      among the first `n`: the first one whose key no later one beats. */
  ghost function Leader<T>(s: seq<T>, key: T -> int, n: nat): (k: nat)
    requires 0 < n <= |s|
    ensures k < n
  {
    if n == 1 then 0
    else
      var k := Leader(s, key, n - 1);
      if key(s[k]) < key(s[n - 1]) then n - 1 else k
  }

  /** `s[k]` has the largest key in `s`, and everything before it has a
      strictly smaller key. */
  ghost predicate LeadsAt<T>(s: seq<T>, k: nat, key: T -> int) {
    && k < |s|
    && (forall j :: 0 <= j < k ==> key(s[j]) < key(s[k]))
    && (forall j :: k <= j < |s| ==> key(s[j]) <= key(s[k]))
  }

  /** The leader has the largest key, and every element before it a strictly
      smaller one. */
  lemma {:induction false} LeaderLeads<T>(s: seq<T>, key: T -> int, n: nat)
    requires 0 < n <= |s|
    ensures LeadsAt(s[..n], Leader(s, key, n), key)
  {
    if n > 1 {
      LeaderLeads(s, key, n - 1);
      LeadsSnoc(s, n - 1, Leader(s, key, n - 1), key);
    }
  }

  /** Reading one more element moves the leader to it exactly when its key
      is strictly larger. */
  lemma LeadsSnoc<T>(s: seq<T>, i: nat, k: nat, key: T -> int)
    requires k < i < |s| && LeadsAt(s[..i], k, key)
    ensures LeadsAt(s[..i + 1], if key(s[k]) < key(s[i]) then i else k, key)
  {
    var t := s[..i + 1];
    forall j | 0 <= j < i ensures t[j] == s[..i][j] == s[j] {
    }
  }

  /** One row of a final table: club, points before and after the simulated
      matches, and its simulated wins, draws and losses. */
  datatype TableRow = TableRow(team: string, current: int, pts: int, w: int, d: int, l: int)

  /** Final tables are sorted by final points, then name. */
  function RowStanding(r: TableRow): Standing {
    Standing(r.team, r.pts)
  }
}
