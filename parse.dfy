/** The section machine shared by `parseSim` (app.js) and `parseSim2`
    (app2.js), over lines that are already trimmed and classified: the
    regular expressions that recognise a standing, a tier list, a date or a
    pairing are not modelled, only what the parsers do with each reading. */
module Parse {
  import opened League
  import Sampler

  /** A header line (it starts with `[`) and the words its upper-cased text
      contains. */
  datatype Line =
    | Header(league: bool, clubTier: bool, future: bool)
    | Body(standing: Option<(Club, nat)>,       // `name : points`
           tierList: Option<(int, seq<Club>)>,  // `tier : name, name, ...`
           date: Option<string>,                // a date label
           pairing: Option<(Club, Club)>)       // `home - away`

  datatype Mode = NoSection | LeagueMode | TierMode | FutureMode

  /** The section a header opens. Only the second script knows tier
      sections; in the first a `[CLUB TIER]` header closes the section. */
  function HeaderMode(h: Line, withTiers: bool): (mode: Mode)
    requires h.Header?
    ensures mode == TierMode ==> withTiers
    ensures h.league ==> mode == LeagueMode
  {
    if h.league then LeagueMode
    else if withTiers && h.clubTier then TierMode
    else if h.future then FutureMode
    else NoSection
  }

  /** The section in effect when line `i` is read. */
  function ModeAt(lines: seq<Line>, i: nat, withTiers: bool): Mode
    requires i <= |lines|
  {
    if i == 0 then NoSection
    else if lines[i - 1].Header? then HeaderMode(lines[i - 1], withTiers)
    else ModeAt(lines, i - 1, withTiers)
  }

  /** Line `i` sets `c`'s points in a league section. */
  ghost predicate ListedAt(lines: seq<Line>, withTiers: bool, i: nat, c: Club) {
    i < |lines| && ModeAt(lines, i, withTiers) == LeagueMode
    && lines[i].Body? && lines[i].standing.Some? && lines[i].standing.value.0 == c
  }

  /** Line `i` assigns its tier to `c` in a tier section. */
  ghost predicate TieredAt(lines: seq<Line>, withTiers: bool, i: nat, c: Club) {
    i < |lines| && ModeAt(lines, i, withTiers) == TierMode
    && lines[i].Body? && lines[i].tierList.Some? && c in lines[i].tierList.value.1
  }

  /** The points the last league line among the first `n` gives `c`. */
  ghost function LastListed(lines: seq<Line>, withTiers: bool, n: nat, c: Club): Option<nat>
    requires n <= |lines|
  {
    if n == 0 then None
    else if ListedAt(lines, withTiers, n - 1, c) then Some(lines[n - 1].standing.value.1)
    else LastListed(lines, withTiers, n - 1, c)
  }

  /** The tier the last tier line among the first `n` gives `c`. */
  ghost function LastTier(lines: seq<Line>, withTiers: bool, n: nat, c: Club): Option<int>
    requires n <= |lines|
  {
    if n == 0 then None
    else if TieredAt(lines, withTiers, n - 1, c) then Some(lines[n - 1].tierList.value.0)
    else LastTier(lines, withTiers, n - 1, c)
  }

  /** The current date once the first `n` lines are read: the last date line
      read in a fixtures section. It survives later headers. */
  ghost function DateAt(lines: seq<Line>, withTiers: bool, n: nat): Option<string>
    requires n <= |lines|
  {
    if n == 0 then None
    else if ModeAt(lines, n - 1, withTiers) == FutureMode && lines[n - 1].Body? && lines[n - 1].date.Some?
    then lines[n - 1].date
    else DateAt(lines, withTiers, n - 1)
  }

  /** The fixtures the first `n` lines record: every pairing in a fixtures
      section once a date has been seen, under the current date, in order. */
  ghost function FixturesRead(lines: seq<Line>, withTiers: bool, n: nat): seq<Fixture>
    requires n <= |lines|
  {
    if n == 0 then []
    else
      var line := lines[n - 1];
      var date := DateAt(lines, withTiers, n - 1);
      FixturesRead(lines, withTiers, n - 1)
        + if ModeAt(lines, n - 1, withTiers) == FutureMode && line.Body? && line.date.None?
             && line.pairing.Some? && date.Some?
          then [Fixture(date.value, line.pairing.value.0, line.pairing.value.1)]
          else []
  }

  /** `c`'s points after the first `n` lines, if it is in the table: its last
      listed points, or 0 when only fixtures named it. */
  ghost function PointsRead(lines: seq<Line>, withTiers: bool, n: nat, c: Club): int
    requires n <= |lines|
  {
    match LastListed(lines, withTiers, n, c)
    case Some(p) => p
    case None => 0
  }

  /** The table after the first `n` lines: every listed club and every side
      of a fixture read, at its last listed points or 0. */
  ghost predicate TableRead(lines: seq<Line>, withTiers: bool, n: nat, teams: map<Club, int>, matches: seq<Fixture>)
    requires n <= |lines|
  {
    && (forall c :: c in teams <==>
          LastListed(lines, withTiers, n, c).Some? || exists m :: m in matches && Involves(m, c))
    && (forall c :: c in teams ==> teams[c] == PointsRead(lines, withTiers, n, c))
  }

  /** The tiers after the first `n` lines: the last tier given to each club. */
  ghost predicate TiersGiven(lines: seq<Line>, withTiers: bool, n: nat, tiers: map<Club, int>)
    requires n <= |lines|
  {
    && (forall c :: c in tiers <==> LastTier(lines, withTiers, n, c).Some?)
    && (forall c :: c in tiers ==> tiers[c] == LastTier(lines, withTiers, n, c).value)
  }

  /** `keys` with `c` added at the end unless it is already there, as
      assigning to a new key of a JavaScript object does. */
  ghost function WithKey(keys: seq<Club>, c: Club): seq<Club> {
    if c in keys then keys else keys + [c]
  }

  /** The table's keys after the first `n` lines, in key order: a club
      becomes a key at the first league line or recorded fixture naming it,
      and a fixture adds its home side before its away side. */
  ghost function KeysRead(lines: seq<Line>, withTiers: bool, n: nat): seq<Club>
    requires n <= |lines|
  {
    if n == 0 then []
    else
      var keys := KeysRead(lines, withTiers, n - 1);
      var line := lines[n - 1];
      var mode := ModeAt(lines, n - 1, withTiers);
      if mode == LeagueMode && line.Body? && line.standing.Some? then
        WithKey(keys, line.standing.value.0)
      else if mode == FutureMode && line.Body? && line.date.None? && line.pairing.Some?
              && DateAt(lines, withTiers, n - 1).Some? then
        WithKey(WithKey(keys, line.pairing.value.0), line.pairing.value.1)
      else keys
  }

  /** Keys are never reordered: the keys after `m` lines lead the keys after
      any later line, which only appends clubs not met before. */
  lemma {:induction false} KeysReadGrow(lines: seq<Line>, withTiers: bool, m: nat, n: nat)
    requires m <= n <= |lines|
    ensures KeysRead(lines, withTiers, m) <= KeysRead(lines, withTiers, n)
  {
    if m < n {
      KeysReadGrow(lines, withTiers, m, n - 1);
    }
  }

  /** What the parser has built after the first `n` lines. */
  ghost predicate ReadContents(lines: seq<Line>, withTiers: bool, n: nat, teams: map<Club, int>,
                               tiers: map<Club, int>, matches: seq<Fixture>)
    requires n <= |lines|
  {
    && matches == FixturesRead(lines, withTiers, n)
    && TableRead(lines, withTiers, n, teams, matches)
    && TiersGiven(lines, withTiers, n, tiers)
  }

  /** The parsing loop of both scripts (app.js lines 14-39, app2.js lines
      8-33): headers switch the section; a league section records points;
      a tier section records tiers; a fixtures section tracks the current
      date and records pairings once a date has been seen, creating any
      club it has not met with 0 points. */
  method ReadSections(lines: seq<Line>, withTiers: bool)
    returns (clubs: seq<Club>, teams: map<Club, int>, tiers: map<Club, int>, matches: seq<Fixture>)
    ensures WellFormed(clubs, teams, matches)
    ensures clubs == KeysRead(lines, withTiers, |lines|)
    ensures ReadContents(lines, withTiers, |lines|, teams, tiers, matches)
    ensures !withTiers ==> tiers == map[]
  {
    var mode := NoSection;
    clubs := [];
    teams := map[];
    tiers := map[];
    matches := [];
    var currentDate: Option<string> := None;
    for i := 0 to |lines|
      invariant mode == ModeAt(lines, i, withTiers)
      invariant mode == TierMode ==> withTiers
      invariant currentDate == DateAt(lines, withTiers, i)
      invariant WellFormed(clubs, teams, matches)
      invariant clubs == KeysRead(lines, withTiers, i)
      invariant ReadContents(lines, withTiers, i, teams, tiers, matches)
      invariant !withTiers ==> tiers == map[]
    {
      mode, currentDate, clubs, teams, tiers, matches :=
        ReadLine(lines, withTiers, i, mode, currentDate, clubs, teams, tiers, matches);
    }
  }

  /** One pass of the parsing loop: line `i` read in section `mode` under
      the current date. */
  method ReadLine(lines: seq<Line>, withTiers: bool, i: nat, mode: Mode, currentDate: Option<string>,
                  clubs: seq<Club>, teams: map<Club, int>, tiers: map<Club, int>, matches: seq<Fixture>)
    returns (mode': Mode, currentDate': Option<string>, clubs': seq<Club>, teams': map<Club, int>,
             tiers': map<Club, int>, matches': seq<Fixture>)
    requires i < |lines|
    requires mode == ModeAt(lines, i, withTiers) && (mode == TierMode ==> withTiers)
    requires currentDate == DateAt(lines, withTiers, i)
    requires WellFormed(clubs, teams, matches)
    requires clubs == KeysRead(lines, withTiers, i)
    requires ReadContents(lines, withTiers, i, teams, tiers, matches)
    requires !withTiers ==> tiers == map[]
    ensures mode' == ModeAt(lines, i + 1, withTiers) && (mode' == TierMode ==> withTiers)
    ensures currentDate' == DateAt(lines, withTiers, i + 1)
    ensures WellFormed(clubs', teams', matches')
    ensures clubs' == KeysRead(lines, withTiers, i + 1)
    ensures ReadContents(lines, withTiers, i + 1, teams', tiers', matches')
    ensures !withTiers ==> tiers' == map[]
  {
    mode', currentDate', clubs', teams', tiers', matches' := mode, currentDate, clubs, teams, tiers, matches;
    var line := lines[i];
    if line.Header? {
      LineIgnored(lines, withTiers, i, teams, tiers, matches);
      mode' := HeaderMode(line, withTiers);
    } else if mode == LeagueMode {
      if line.standing.Some? {
        var (name, pts) := line.standing.value;
        if name !in teams {
          clubs' := clubs + [name];
        }
        teams' := teams[name := pts];
        StandingRead(lines, withTiers, i, teams, teams', tiers, matches);
      } else {
        LineIgnored(lines, withTiers, i, teams, tiers, matches);
      }
    } else if mode == TierMode {
      if line.tierList.Some? {
        var (t, names) := line.tierList.value;
        tiers' := SetTiers(tiers, names, t);
        TiersRead(lines, withTiers, i, teams, tiers, tiers', matches);
      } else {
        LineIgnored(lines, withTiers, i, teams, tiers, matches);
      }
    } else if mode == FutureMode {
      if line.date.Some? {
        currentDate' := line.date;
        LineIgnored(lines, withTiers, i, teams, tiers, matches);
      } else if line.pairing.Some? && currentDate.Some? {
        var (home, away) := line.pairing.value;
        clubs', teams', matches' := AddFixture(clubs, teams, matches, Fixture(currentDate.value, home, away));
        FixtureRead(lines, withTiers, i, teams, teams', tiers, matches, matches');
      } else {
        LineIgnored(lines, withTiers, i, teams, tiers, matches);
      }
    } else {
      LineIgnored(lines, withTiers, i, teams, tiers, matches);
    }
  }

  /** A line that is not a league line leaves every club's listed points. */
  lemma ListedSame(lines: seq<Line>, withTiers: bool, i: nat)
    requires i < |lines|
    requires ModeAt(lines, i, withTiers) == LeagueMode && lines[i].Body? ==> lines[i].standing.None?
    ensures forall c :: LastListed(lines, withTiers, i + 1, c) == LastListed(lines, withTiers, i, c)
  {
  }

  /** A line that is not a tier line leaves every club's tier. */
  lemma TierSame(lines: seq<Line>, withTiers: bool, i: nat)
    requires i < |lines|
    requires ModeAt(lines, i, withTiers) == TierMode && lines[i].Body? ==> lines[i].tierList.None?
    ensures forall c :: LastTier(lines, withTiers, i + 1, c) == LastTier(lines, withTiers, i, c)
  {
  }

  /** A line that records no fixture leaves the fixtures read. */
  lemma FixturesSame(lines: seq<Line>, withTiers: bool, i: nat)
    requires i < |lines|
    requires (ModeAt(lines, i, withTiers) == FutureMode && lines[i].Body? && lines[i].date.None?
              && lines[i].pairing.Some?) ==> DateAt(lines, withTiers, i).None?
    ensures FixturesRead(lines, withTiers, i + 1) == FixturesRead(lines, withTiers, i)
  {
    assert FixturesRead(lines, withTiers, i + 1) == FixturesRead(lines, withTiers, i) + [];
  }

  lemma TableKept(lines: seq<Line>, withTiers: bool, i: nat, teams: map<Club, int>, matches: seq<Fixture>)
    requires i < |lines|
    requires ModeAt(lines, i, withTiers) == LeagueMode && lines[i].Body? ==> lines[i].standing.None?
    requires TableRead(lines, withTiers, i, teams, matches)
    ensures TableRead(lines, withTiers, i + 1, teams, matches)
  {
    ListedSame(lines, withTiers, i);
  }

  lemma TiersKept(lines: seq<Line>, withTiers: bool, i: nat, tiers: map<Club, int>)
    requires i < |lines|
    requires ModeAt(lines, i, withTiers) == TierMode && lines[i].Body? ==> lines[i].tierList.None?
    requires TiersGiven(lines, withTiers, i, tiers)
    ensures TiersGiven(lines, withTiers, i + 1, tiers)
  {
    TierSame(lines, withTiers, i);
  }

  /** A line that the current section ignores, a header or a date line
      changes nothing the parser returns. */
  lemma LineIgnored(lines: seq<Line>, withTiers: bool, i: nat, teams: map<Club, int>,
                    tiers: map<Club, int>, matches: seq<Fixture>)
    requires i < |lines|
    requires ModeAt(lines, i, withTiers) == LeagueMode && lines[i].Body? ==> lines[i].standing.None?
    requires ModeAt(lines, i, withTiers) == TierMode && lines[i].Body? ==> lines[i].tierList.None?
    requires (ModeAt(lines, i, withTiers) == FutureMode && lines[i].Body? && lines[i].date.None?
              && lines[i].pairing.Some?) ==> DateAt(lines, withTiers, i).None?
    requires ReadContents(lines, withTiers, i, teams, tiers, matches)
    ensures ReadContents(lines, withTiers, i + 1, teams, tiers, matches)
    ensures KeysRead(lines, withTiers, i + 1) == KeysRead(lines, withTiers, i)
  {
    FixturesSame(lines, withTiers, i);
    TableKept(lines, withTiers, i, teams, matches);
    TiersKept(lines, withTiers, i, tiers);
  }

  /** A league line sets its club's points. */
  lemma StandingRead(lines: seq<Line>, withTiers: bool, i: nat, before: map<Club, int>,
                     teams: map<Club, int>, tiers: map<Club, int>, matches: seq<Fixture>)
    requires i < |lines| && lines[i].Body? && lines[i].standing.Some?
    requires ModeAt(lines, i, withTiers) == LeagueMode
    requires ReadContents(lines, withTiers, i, before, tiers, matches)
    requires teams == before[lines[i].standing.value.0 := lines[i].standing.value.1]
    ensures ReadContents(lines, withTiers, i + 1, teams, tiers, matches)
    ensures KeysRead(lines, withTiers, i + 1) == WithKey(KeysRead(lines, withTiers, i), lines[i].standing.value.0)
  {
    FixturesSame(lines, withTiers, i);
    TiersKept(lines, withTiers, i, tiers);
    ListingStep(lines, withTiers, i, before, teams, matches);
  }

  lemma ListingStep(lines: seq<Line>, withTiers: bool, i: nat, before: map<Club, int>,
                    teams: map<Club, int>, matches: seq<Fixture>)
    requires i < |lines| && lines[i].Body? && lines[i].standing.Some?
    requires ModeAt(lines, i, withTiers) == LeagueMode
    requires TableRead(lines, withTiers, i, before, matches)
    requires teams == before[lines[i].standing.value.0 := lines[i].standing.value.1]
    ensures TableRead(lines, withTiers, i + 1, teams, matches)
  {
    var name := lines[i].standing.value.0;
    assert ListedAt(lines, withTiers, i, name);
    forall c ensures LastListed(lines, withTiers, i + 1, c)
                     == if c == name then Some(lines[i].standing.value.1) else LastListed(lines, withTiers, i, c)
    {
    }
  }

  /** A tier line gives each of its clubs its tier. */
  lemma TiersRead(lines: seq<Line>, withTiers: bool, i: nat, teams: map<Club, int>,
                  before: map<Club, int>, tiers: map<Club, int>, matches: seq<Fixture>)
    requires i < |lines| && lines[i].Body? && lines[i].tierList.Some?
    requires ModeAt(lines, i, withTiers) == TierMode
    requires ReadContents(lines, withTiers, i, teams, before, matches)
    requires forall c :: c in tiers <==> c in before || c in lines[i].tierList.value.1
    requires forall c :: c in lines[i].tierList.value.1 ==> tiers[c] == lines[i].tierList.value.0
    requires forall c :: c in before && c !in lines[i].tierList.value.1 ==> tiers[c] == before[c]
    ensures ReadContents(lines, withTiers, i + 1, teams, tiers, matches)
    ensures KeysRead(lines, withTiers, i + 1) == KeysRead(lines, withTiers, i)
  {
    FixturesSame(lines, withTiers, i);
    TableKept(lines, withTiers, i, teams, matches);
    var (t, names) := lines[i].tierList.value;
    forall c ensures LastTier(lines, withTiers, i + 1, c) == if c in names then Some(t) else LastTier(lines, withTiers, i, c)
    {
      assert TieredAt(lines, withTiers, i, c) <==> c in names;
    }
  }

  /** A pairing read under a current date records its fixture. */
  lemma FixtureRead(lines: seq<Line>, withTiers: bool, i: nat, before: map<Club, int>,
                    teams: map<Club, int>, tiers: map<Club, int>, earlier: seq<Fixture>, matches: seq<Fixture>)
    requires i < |lines| && lines[i].Body? && lines[i].date.None? && lines[i].pairing.Some?
    requires ModeAt(lines, i, withTiers) == FutureMode && DateAt(lines, withTiers, i).Some?
    requires ReadContents(lines, withTiers, i, before, tiers, earlier)
    requires matches == earlier + [Fixture(DateAt(lines, withTiers, i).value,
                                           lines[i].pairing.value.0, lines[i].pairing.value.1)]
    requires forall c :: c in teams <==> c in before || Involves(matches[|earlier|], c)
    requires forall c :: c in before ==> teams[c] == before[c]
    requires forall c :: c in teams && c !in before ==> teams[c] == 0
    ensures ReadContents(lines, withTiers, i + 1, teams, tiers, matches)
    ensures KeysRead(lines, withTiers, i + 1)
            == WithKey(WithKey(KeysRead(lines, withTiers, i), lines[i].pairing.value.0), lines[i].pairing.value.1)
  {
    TiersKept(lines, withTiers, i, tiers);
    ListedSame(lines, withTiers, i);
    PairingStep(lines, withTiers, i, before, teams, earlier, matches);
  }

  lemma PairingStep(lines: seq<Line>, withTiers: bool, i: nat, before: map<Club, int>,
                    teams: map<Club, int>, earlier: seq<Fixture>, matches: seq<Fixture>)
    requires i < |lines|
    requires TableRead(lines, withTiers, i, before, earlier)
    requires forall c :: LastListed(lines, withTiers, i + 1, c) == LastListed(lines, withTiers, i, c)
    requires |matches| == |earlier| + 1 && matches[..|earlier|] == earlier
    requires forall c :: c in teams <==> c in before || Involves(matches[|earlier|], c)
    requires forall c :: c in before ==> teams[c] == before[c]
    requires forall c :: c in teams && c !in before ==> teams[c] == 0
    ensures TableRead(lines, withTiers, i + 1, teams, matches)
  {
    forall c ensures (exists x :: x in matches && Involves(x, c)) <==>
                     (exists x :: x in earlier && Involves(x, c)) || Involves(matches[|earlier|], c)
    {
      InvolvedSnoc(earlier, matches, c);
    }
  }

  /** A club is a side of a fixture of `earlier + [m]` iff it is a side of
      one of `earlier` or of `m`. */
  lemma InvolvedSnoc(earlier: seq<Fixture>, matches: seq<Fixture>, c: Club)
    requires |matches| == |earlier| + 1 && matches[..|earlier|] == earlier
    ensures (exists x :: x in matches && Involves(x, c)) <==>
            (exists x :: x in earlier && Involves(x, c)) || Involves(matches[|earlier|], c)
  {
    var m := matches[|earlier|];
    assert matches == earlier + [m];
    if Involves(m, c) {
      assert m in matches;
    }
    if x :| x in matches && Involves(x, c) {
      assert x in earlier || x == m;
    }
    if x :| x in earlier && Involves(x, c) {
      assert x in matches;
    }
  }

  /** Lines 33-36 of app.js (line 31 of app2.js): record the fixture and
      create either side with 0 points if the table does not have it yet. */
  method AddFixture(clubs: seq<Club>, teams: map<Club, int>, matches: seq<Fixture>, m: Fixture)
    returns (clubs': seq<Club>, teams': map<Club, int>, matches': seq<Fixture>)
    requires WellFormed(clubs, teams, matches)
    ensures WellFormed(clubs', teams', matches')
    ensures clubs' == clubs + (if m.home in teams then [] else [m.home])
                            + (if m.away in teams || m.away == m.home then [] else [m.away])
    ensures matches' == matches + [m]
    ensures forall c :: c in teams' <==> c in teams || c == m.home || c == m.away
    ensures forall c :: c in teams ==> teams'[c] == teams[c]
    ensures forall c :: c in teams' && c !in teams ==> teams'[c] == 0
  {
    clubs', teams' := clubs, teams;
    matches' := matches + [m];
    if m.home !in teams' {
      clubs' := clubs' + [m.home];
      teams' := teams'[m.home := 0];
    }
    if m.away !in teams' {
      clubs' := clubs' + [m.away];
      teams' := teams'[m.away := 0];
    }
  }

  /** `for (const n of names) tiers[n] = t`. */
  method SetTiers(tiers: map<Club, int>, names: seq<Club>, t: int) returns (r: map<Club, int>)
    ensures forall c :: c in r <==> c in tiers || c in names
    ensures forall c :: c in names ==> r[c] == t
    ensures forall c :: c in tiers && c !in names ==> r[c] == tiers[c]
  {
    r := tiers;
    for k := 0 to |names|
      invariant forall c :: c in r <==> c in tiers || c in names[..k]
      invariant forall c :: c in names[..k] ==> r[c] == t
      invariant forall c :: c in tiers && c !in names[..k] ==> r[c] == tiers[c]
    {
      assert names[..k + 1] == names[..k] + [names[k]];
      r := r[names[k] := t];
    }
    assert names[..|names|] == names;
  }

  /** Line 35 of app2.js: every team without a tier gets tier 2. */
  method DefaultTiers(clubs: seq<Club>, tiers: map<Club, int>) returns (r: map<Club, int>)
    ensures forall c :: c in r <==> c in tiers || c in clubs
    ensures forall c :: c in tiers ==> r[c] == tiers[c]
    ensures forall c :: c in clubs && c !in tiers ==> r[c] == 2
    ensures forall c :: Sampler.TierOf(r, c) == Sampler.TierOf(tiers, c)
  {
    r := tiers;
    for k := 0 to |clubs|
      invariant forall c :: c in r <==> c in tiers || c in clubs[..k]
      invariant forall c :: c in tiers ==> r[c] == tiers[c]
      invariant forall c :: c in clubs[..k] && c !in tiers ==> r[c] == 2
    {
      assert clubs[..k + 1] == clubs[..k] + [clubs[k]];
      if clubs[k] !in r {
        r := r[clubs[k] := 2];
      }
    }
    assert clubs[..|clubs|] == clubs;
  }

  /** The first script has no tier sections: no line ever gives a tier. */
  lemma {:induction false} NoTiersWithout(lines: seq<Line>, n: nat, c: Club)
    requires n <= |lines|
    ensures LastTier(lines, false, n, c) == None
  {
    if n > 0 {
      NoTierMode(lines, n - 1);
      NoTiersWithout(lines, n - 1, c);
    }
  }

  lemma {:induction false} NoTierMode(lines: seq<Line>, i: nat)
    requires i <= |lines|
    ensures ModeAt(lines, i, false) != TierMode
  {
    if i > 0 && !lines[i - 1].Header? {
      NoTierMode(lines, i - 1);
    }
  }

  /** `parseSim(text)` (app.js lines 8-41): the table and the fixtures. */
  method ParseSim(lines: seq<Line>) returns (clubs: seq<Club>, teams: map<Club, int>, matches: seq<Fixture>)
    ensures WellFormed(clubs, teams, matches)
    ensures clubs == KeysRead(lines, false, |lines|)
    ensures ReadContents(lines, false, |lines|, teams, map[], matches)
  {
    var tiers;
    clubs, teams, tiers, matches := ReadSections(lines, false);
  }

  /** The tier `parseSim2` reports for `c`: its last given tier, or 2. */
  ghost function TierRead(lines: seq<Line>, n: nat, c: Club): int
    requires n <= |lines|
  {
    match LastTier(lines, true, n, c)
    case Some(t) => t
    case None => 2
  }

  /** `parseSim2(text)` (app2.js lines 4-37): the table, the fixtures, and a
      tier for every club in the table. */
  method ParseSim2(lines: seq<Line>)
    returns (clubs: seq<Club>, teams: map<Club, int>, tiers: map<Club, int>, matches: seq<Fixture>)
    ensures WellFormed(clubs, teams, matches)
    ensures clubs == KeysRead(lines, true, |lines|)
    ensures matches == FixturesRead(lines, true, |lines|)
    ensures forall c :: c in teams <==>
      LastListed(lines, true, |lines|, c).Some? || exists m :: m in matches && Involves(m, c)
    ensures forall c :: c in teams ==> teams[c] == PointsRead(lines, true, |lines|, c)
    ensures forall c :: c in tiers <==> c in teams || LastTier(lines, true, |lines|, c).Some?
    ensures forall c :: c in tiers ==> tiers[c] == TierRead(lines, |lines|, c)
  {
    var read;
    clubs, teams, read, matches := ReadSections(lines, true);
    tiers := DefaultTiers(clubs, read);
  }
}
