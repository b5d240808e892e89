/**
 * The `fetch-matches` edge function (`supabase/functions/fetch-matches/index.ts`):
 * it picks a date window from the `date` query parameter, upserts the mock
 * fixtures that fall in the window into the `matches` table, reads the
 * upcoming matches of the window back and answers with them.
 *
 * Instants are integers (milliseconds); the three local midnights the
 * function computes are given, since they come from the clock. The table is
 * a sequence of rows keyed by their external id.
 */
module FetchMatches {
  import opened Wrappers
  import Text
  import Sequences

  /** Local midnight today, tomorrow and the day after; `setDate(+1)` always moves forward. */
  datatype Days = Days(today: int, tomorrow: int, dayAfter: int)

  predicate Ordered(d: Days)
  {
    d.today < d.tomorrow < d.dayAfter
  }

  /** The half-open window `[start, end)` the function reads and writes. */
  datatype Window = Window(start: int, end: int)

  predicate InWindow(w: Window, t: int)
  {
    w.start <= t < w.end
  }

  /**
   * The window for the `date` parameter: `today` is today only, `tomorrow`
   * is tomorrow only, anything else (or no parameter) covers both days.
   */
  function SelectWindow(dateFilter: Option<string>, d: Days): (w: Window)
    requires Ordered(d)
    ensures w.start < w.end
    ensures dateFilter == Some("today") ==> w == Window(d.today, d.tomorrow)
    ensures dateFilter == Some("tomorrow") ==> w == Window(d.tomorrow, d.dayAfter)
    ensures dateFilter != Some("today") && dateFilter != Some("tomorrow") ==> w == Window(d.today, d.dayAfter)
  {
    if dateFilter == Some("today") then Window(d.today, d.tomorrow)
    else if dateFilter == Some("tomorrow") then Window(d.tomorrow, d.dayAfter)
    else Window(d.today, d.dayAfter)
  }

  /** The default window is exactly the union of the `today` and `tomorrow` windows, which do not overlap. */
  lemma DefaultWindowIsTodayPlusTomorrow(d: Days, other: Option<string>, t: int)
    requires Ordered(d)
    requires other != Some("today") && other != Some("tomorrow")
    ensures InWindow(SelectWindow(other, d), t) <==>
      InWindow(SelectWindow(Some("today"), d), t) || InWindow(SelectWindow(Some("tomorrow"), d), t)
    ensures !(InWindow(SelectWindow(Some("today"), d), t) && InWindow(SelectWindow(Some("tomorrow"), d), t))
  {
    var today, tomorrow, both := SelectWindow(Some("today"), d), SelectWindow(Some("tomorrow"), d), SelectWindow(other, d);
    assert today.end == tomorrow.start;
    assert both.start == today.start && both.end == tomorrow.end;
  }

  /** The `FootballMatch` interface of the function. */
  datatype FootballMatch = FootballMatch(
    id: string, homeTeam: string, awayTeam: string, league: string,
    matchDate: int, homeOdds: real, drawOdds: real, awayOdds: real)

  /** The eight fixtures, four today and four tomorrow. */
  function MockMatches(d: Days): (r: seq<FootballMatch>)
    ensures |r| == 8
  {
    [ FootballMatch("match-001", "Manchester United", "Chelsea", "Premier League", d.today, 2.5, 3.2, 2.8),
      FootballMatch("match-002", "Liverpool", "Arsenal", "Premier League", d.tomorrow, 2.1, 3.5, 3.0),
      FootballMatch("match-003", "Barcelona", "Real Madrid", "La Liga", d.tomorrow, 2.3, 3.0, 3.2),
      FootballMatch("match-004", "Bayern Munich", "Borussia Dortmund", "Bundesliga", d.today, 1.9, 3.8, 3.5),
      FootballMatch("match-005", "Juventus", "Inter Milan", "Serie A", d.tomorrow, 2.4, 3.1, 2.9),
      FootballMatch("match-006", "Paris Saint-Germain", "Marseille", "Ligue 1", d.today, 1.6, 4.0, 5.5),
      FootballMatch("match-007", "Manchester City", "Tottenham", "Premier League", d.tomorrow, 1.7, 4.2, 4.5),
      FootballMatch("match-008", "Atletico Madrid", "Sevilla", "La Liga", d.today, 2.0, 3.3, 3.6) ]
  }

  /** A row of the `matches` table as far as this function writes and reads it. */
  datatype MatchRow = MatchRow(
    externalId: string, homeTeam: string, awayTeam: string, league: string,
    matchDate: int, homeOdds: real, drawOdds: real, awayOdds: real,
    status: string, updatedAt: int)

  /** The row upserted for a fixture: its fields, status `upcoming`, stamped with the current time. */
  function RowOf(m: FootballMatch, now: int): (r: MatchRow)
    ensures r.externalId == m.id && r.matchDate == m.matchDate && r.status == "upcoming"
    ensures r.homeTeam == m.homeTeam && r.awayTeam == m.awayTeam && r.league == m.league
    ensures r.homeOdds == m.homeOdds && r.drawOdds == m.drawOdds && r.awayOdds == m.awayOdds
  {
    MatchRow(m.id, m.homeTeam, m.awayTeam, m.league, m.matchDate, m.homeOdds, m.drawOdds, m.awayOdds, "upcoming", now)
  }

  /** No two rows share an external id: `onConflict: 'external_id'` needs a unique index on that column. */
  predicate UniqueKeys(table: seq<MatchRow>)
  {
    forall i, j :: 0 <= i < j < |table| ==> table[i].externalId != table[j].externalId
  }

  /** Below the first row of a keyed table the keys stay unique and differ from the first row's. */
  lemma TailKeysDiffer(table: seq<MatchRow>)
    requires UniqueKeys(table) && table != []
    ensures UniqueKeys(table[1..])
    ensures forall x :: x in table[1..] ==> x.externalId != table[0].externalId
  {
    forall x | x in table[1..] ensures x.externalId != table[0].externalId {
      var k :| 0 <= k < |table[1..]| && table[1..][k] == x;
      assert table[k + 1] == x;
    }
  }

  /**
   * An upsert with `onConflict: 'external_id'`: the row replaces the one
   * with its key, or is added; the keys stay unique, so afterwards the row
   * is the only one with its key.
   */
  function Upsert(table: seq<MatchRow>, row: MatchRow): (r: seq<MatchRow>)
    requires UniqueKeys(table)
    ensures UniqueKeys(r)
    ensures row in r
    ensures forall x :: x in r && x.externalId == row.externalId ==> x == row
    ensures forall x :: x in table && x.externalId != row.externalId ==> x in r
    ensures forall x :: x in r ==> x == row || x in table
  {
    if table == [] then [row]
    else
      TailKeysDiffer(table);
      if table[0].externalId == row.externalId then [row] + table[1..]
      else [table[0]] + Upsert(table[1..], row)
  }

  function InWindowTest(w: Window): FootballMatch -> bool
  {
    (m: FootballMatch) => InWindow(w, m.matchDate)
  }

  /** No fixture that was sent and written has the key of `x`. */
  predicate Untouched(x: MatchRow, sent: seq<FootballMatch>, failing: set<string>)
  {
    forall m :: m in sent && m.id !in failing ==> x.externalId != m.id
  }

  /** `x` is the row of a fixture that was sent and written. */
  predicate Written(x: MatchRow, sent: seq<FootballMatch>, failing: set<string>, now: int)
  {
    exists m :: m in sent && m.id !in failing && x == RowOf(m, now)
  }

  predicate DistinctIds(fixtures: seq<FootballMatch>)
  {
    forall i, j :: 0 <= i < j < |fixtures| ==> fixtures[i].id != fixtures[j].id
  }

  /**
   * What the loop keeps: the keys stay unique; each written fixture's row is
   * present and is the only row with its key; untouched rows stay; nothing
   * else appears.
   */
  predicate UpsertsApplied(table: seq<MatchRow>, sent: seq<FootballMatch>, failing: set<string>, now: int, after: seq<MatchRow>)
  {
    && UniqueKeys(after)
    && (forall m :: m in sent && m.id !in failing ==> RowOf(m, now) in after)
    && (forall m, x :: m in sent && m.id !in failing && x in after && x.externalId == m.id ==> x == RowOf(m, now))
    && (forall x :: x in table && Untouched(x, sent, failing) ==> x in after)
    && (forall x :: x in after ==> x in table || Written(x, sent, failing, now))
  }

  /** One more fixture, with a key not sent before, upserted unless its write fails. */
  lemma UpsertStep(table: seq<MatchRow>, sent: seq<FootballMatch>, failing: set<string>, now: int,
                   before: seq<MatchRow>, m: FootballMatch)
    requires UpsertsApplied(table, sent, failing, now, before)
    requires forall n :: n in sent ==> n.id != m.id
    ensures UpsertsApplied(table, sent + [m], failing, now,
                           if m.id in failing then before else Upsert(before, RowOf(m, now)))
  {
    var after := if m.id in failing then before else Upsert(before, RowOf(m, now));
    var sent' := sent + [m];
    forall n | n in sent' && n.id !in failing ensures RowOf(n, now) in after {
      if n != m {
        assert RowOf(n, now) in before;
      }
    }
    forall n, x | n in sent' && n.id !in failing && x in after && x.externalId == n.id ensures x == RowOf(n, now) {
      if n in sent {
        assert n.id != m.id;
      }
    }
    forall x | x in table && Untouched(x, sent', failing) ensures x in after {
      assert Untouched(x, sent, failing) by {
        forall n | n in sent && n.id !in failing ensures x.externalId != n.id {
          assert n in sent';
        }
      }
    }
    forall x | x in after ensures x in table || Written(x, sent', failing, now) {
      if x in before {
        if !(x in table) {
          var n :| n in sent && n.id !in failing && x == RowOf(n, now);
          assert n in sent';
        }
      } else {
        assert x == RowOf(m, now) && m in sent';
      }
    }
  }

  /** A fixture's id differs from every id among the fixtures before it. */
  lemma EarlierIdsDiffer(fixtures: seq<FootballMatch>, i: nat, sent: seq<FootballMatch>, p: FootballMatch -> bool)
    requires DistinctIds(fixtures)
    requires i < |fixtures|
    requires sent == Sequences.Filter(fixtures[..i], p)
    ensures forall n :: n in sent ==> n.id != fixtures[i].id
  {
    forall n | n in sent ensures n.id != fixtures[i].id {
      assert n in fixtures[..i];
    }
  }

  /**
   * The upsert loop over the fixtures, whose ids are distinct: every fixture
   * in the window is sent, in order; a refused upsert (`failing` holds the
   * ids whose write fails) is only logged and the loop goes on. Afterwards
   * the table holds the row of every fixture that was written, keeps every
   * row no written fixture replaced, and holds nothing else.
   */
  method UpsertInWindow(fixtures: seq<FootballMatch>, w: Window, now: int, failing: set<string>, table: seq<MatchRow>)
    returns (sent: seq<FootballMatch>, after: seq<MatchRow>)
    requires DistinctIds(fixtures)
    requires UniqueKeys(table)
    ensures sent == Sequences.Filter(fixtures, InWindowTest(w))
    ensures UpsertsApplied(table, sent, failing, now, after)
  {
    sent, after := [], table;
    var i := 0;
    while i < |fixtures|
      invariant 0 <= i <= |fixtures|
      invariant sent == Sequences.Filter(fixtures[..i], InWindowTest(w))
      invariant UpsertsApplied(table, sent, failing, now, after)
    {
      var m := fixtures[i];
      Sequences.FilterPrefixStep(fixtures, i, InWindowTest(w));
      if InWindow(w, m.matchDate) {
        EarlierIdsDiffer(fixtures, i, sent, InWindowTest(w));
        UpsertStep(table, sent, failing, now, after, m);
        if m.id !in failing {
          after := Upsert(after, RowOf(m, now));
        }
        sent := sent + [m];
      }
      i := i + 1;
    }
    assert fixtures[..i] == fixtures;
  }

  /** The fixtures' ids are distinct. */
  lemma MockIdsDistinct(d: Days)
    ensures DistinctIds(MockMatches(d))
  {
    var ms := MockMatches(d);
    forall i, j | 0 <= i < j < |ms| ensures ms[i].id != ms[j].id {
      assert ms[i].id[8] != ms[j].id[8];
    }
  }

  /** Fixtures 001, 004, 006 and 008 are dated today, the other four tomorrow. */
  predicate TodayTomorrowPattern(ms: seq<FootballMatch>, d: Days)
  {
    && |ms| == 8
    && ms[0].matchDate == d.today && ms[1].matchDate == d.tomorrow
    && ms[2].matchDate == d.tomorrow && ms[3].matchDate == d.today
    && ms[4].matchDate == d.tomorrow && ms[5].matchDate == d.today
    && ms[6].matchDate == d.tomorrow && ms[7].matchDate == d.today
  }

  lemma MockDates(d: Days)
    ensures TodayTomorrowPattern(MockMatches(d), d)
  {
  }

  /** The fixture kept or dropped by a window test. */
  function Kept(m: FootballMatch, p: FootballMatch -> bool): seq<FootballMatch>
  {
    if p(m) then [m] else []
  }

  /** Filtering four fixtures decides each one in turn. */
  lemma FilterFour(q: seq<FootballMatch>, p: FootballMatch -> bool)
    requires |q| == 4
    ensures Sequences.Filter(q, p) == Kept(q[0], p) + Kept(q[1], p) + Kept(q[2], p) + Kept(q[3], p)
  {
    assert q[..0] == [] && q[..4] == q;
    assert Sequences.Filter(q[..1], p) == Kept(q[0], p) by { Sequences.FilterPrefixStep(q, 0, p); }
    assert Sequences.Filter(q[..2], p) == Kept(q[0], p) + Kept(q[1], p) by { Sequences.FilterPrefixStep(q, 1, p); }
    assert Sequences.Filter(q[..3], p) == Kept(q[0], p) + Kept(q[1], p) + Kept(q[2], p)
      by { Sequences.FilterPrefixStep(q, 2, p); }
    Sequences.FilterPrefixStep(q, 3, p);
  }

  /** Filtering the eight fixtures is filtering their two halves. */
  lemma FilterEight(ms: seq<FootballMatch>, p: FootballMatch -> bool)
    requires |ms| == 8
    ensures Sequences.Filter(ms, p) ==
      (Kept(ms[0], p) + Kept(ms[1], p) + Kept(ms[2], p) + Kept(ms[3], p))
      + (Kept(ms[4], p) + Kept(ms[5], p) + Kept(ms[6], p) + Kept(ms[7], p))
  {
    assert ms == ms[..4] + ms[4..];
    Sequences.FilterAppend(ms[..4], ms[4..], p);
    FilterFour(ms[..4], p);
    FilterFour(ms[4..], p);
  }

  /** With `date=today` the fixtures dated today (001, 004, 006, 008) are sent, in order. */
  lemma TodaySendsFourFixtures(ms: seq<FootballMatch>, d: Days)
    requires Ordered(d)
    requires TodayTomorrowPattern(ms, d)
    ensures Sequences.Filter(ms, InWindowTest(SelectWindow(Some("today"), d))) == [ms[0], ms[3], ms[5], ms[7]]
  {
    var p := InWindowTest(SelectWindow(Some("today"), d));
    assert Kept(ms[0], p) == [ms[0]];
    assert Kept(ms[1], p) == [];
    assert Kept(ms[2], p) == [];
    assert Kept(ms[3], p) == [ms[3]];
    assert Kept(ms[4], p) == [];
    assert Kept(ms[5], p) == [ms[5]];
    assert Kept(ms[6], p) == [];
    assert Kept(ms[7], p) == [ms[7]];
    assert Kept(ms[0], p) + Kept(ms[1], p) + Kept(ms[2], p) + Kept(ms[3], p) == [ms[0], ms[3]];
    assert Kept(ms[4], p) + Kept(ms[5], p) + Kept(ms[6], p) + Kept(ms[7], p) == [ms[5], ms[7]];
    FilterEight(ms, p);
  }

  /** With `date=tomorrow` the fixtures dated tomorrow (002, 003, 005, 007) are sent, in order. */
  lemma TomorrowSendsFourFixtures(ms: seq<FootballMatch>, d: Days)
    requires Ordered(d)
    requires TodayTomorrowPattern(ms, d)
    ensures Sequences.Filter(ms, InWindowTest(SelectWindow(Some("tomorrow"), d))) == [ms[1], ms[2], ms[4], ms[6]]
  {
    var p := InWindowTest(SelectWindow(Some("tomorrow"), d));
    assert Kept(ms[0], p) == [];
    assert Kept(ms[1], p) == [ms[1]];
    assert Kept(ms[2], p) == [ms[2]];
    assert Kept(ms[3], p) == [];
    assert Kept(ms[4], p) == [ms[4]];
    assert Kept(ms[5], p) == [];
    assert Kept(ms[6], p) == [ms[6]];
    assert Kept(ms[7], p) == [];
    assert Kept(ms[0], p) + Kept(ms[1], p) + Kept(ms[2], p) + Kept(ms[3], p) == [ms[1], ms[2]];
    assert Kept(ms[4], p) + Kept(ms[5], p) + Kept(ms[6], p) + Kept(ms[7], p) == [ms[4], ms[6]];
    FilterEight(ms, p);
  }

  /** Without a `date` parameter (or with any other value) every fixture is sent. */
  lemma DefaultSendsAllFixtures(ms: seq<FootballMatch>, d: Days, other: Option<string>)
    requires Ordered(d)
    requires TodayTomorrowPattern(ms, d)
    requires other != Some("today") && other != Some("tomorrow")
    ensures Sequences.Filter(ms, InWindowTest(SelectWindow(other, d))) == ms
  {
    Sequences.FilterKeepsAll(ms, InWindowTest(SelectWindow(other, d)));
  }

  function UpcomingIn(w: Window): MatchRow -> bool
  {
    (x: MatchRow) => InWindow(w, x.matchDate) && x.status == "upcoming"
  }

  /**
   * The read-back query: the rows dated in the window (`gte` start, `lt`
   * end) whose status is `upcoming`.
   */
  function ReadBack(table: seq<MatchRow>, w: Window): (r: seq<MatchRow>)
    ensures forall x :: x in r <==> x in table && InWindow(w, x.matchDate) && x.status == "upcoming"
  {
    Sequences.Filter(table, UpcomingIn(w))
  }

  /**
   * Every fixture of the window whose upsert went through is in what the
   * read-back returns, and no stale row with its key is read back beside it.
   */
  lemma WrittenFixturesAreReadBack(fixtures: seq<FootballMatch>, w: Window, now: int, failing: set<string>,
                                   table: seq<MatchRow>, after: seq<MatchRow>)
    requires UpsertsApplied(table, Sequences.Filter(fixtures, InWindowTest(w)), failing, now, after)
    ensures forall m :: m in fixtures && InWindow(w, m.matchDate) && m.id !in failing ==> RowOf(m, now) in ReadBack(after, w)
    ensures forall m, x ::
      m in fixtures && InWindow(w, m.matchDate) && m.id !in failing && x in ReadBack(after, w) && x.externalId == m.id
      ==> x == RowOf(m, now)
  {
    forall m | m in fixtures && InWindow(w, m.matchDate) && m.id !in failing
      ensures m in Sequences.Filter(fixtures, InWindowTest(w))
    {
      assert InWindowTest(w)(m);
    }
  }

  datatype Body = NoBody | MatchList(matches: seq<MatchRow>) | ErrorBody(error: string)

  datatype Response = Response(status: int, body: Body)

  /**
   * One request: a preflight `OPTIONS` is answered at once; otherwise the
   * fixtures of the window are upserted into `table` and the window is read
   * back from the result. `fetchError` is the error the read-back reports;
   * it turns into a 500 whose message falls back to `Internal server error`.
   */
  method Serve(requestMethod: string, dateFilter: Option<string>, d: Days, now: int, failing: set<string>,
               table: seq<MatchRow>, fetchError: Option<string>)
    returns (response: Response, after: seq<MatchRow>)
    requires Ordered(d)
    requires UniqueKeys(table)
    ensures requestMethod == "OPTIONS" ==> response == Response(200, NoBody) && after == table
    ensures requestMethod != "OPTIONS" ==>
      var w := SelectWindow(dateFilter, d);
      && UpsertsApplied(table, Sequences.Filter(MockMatches(d), InWindowTest(w)), failing, now, after)
      && (fetchError.Some? ==> response == Response(500, ErrorBody(Text.OrElse(fetchError.value, "Internal server error"))))
      && (fetchError.None? ==> response == Response(200, MatchList(ReadBack(after, w))))
    ensures requestMethod != "OPTIONS" && fetchError.None? ==>
      forall m :: m in MockMatches(d) && InWindow(SelectWindow(dateFilter, d), m.matchDate) && m.id !in failing ==>
        && RowOf(m, now) in response.body.matches
        && forall x :: x in response.body.matches && x.externalId == m.id ==> x == RowOf(m, now)
  {
    if requestMethod == "OPTIONS" {
      return Response(200, NoBody), table;
    }
    var w := SelectWindow(dateFilter, d);
    MockIdsDistinct(d);
    var sent;
    sent, after := UpsertInWindow(MockMatches(d), w, now, failing, table);
    if fetchError.Some? {
      response := Response(500, ErrorBody(Text.OrElse(fetchError.value, "Internal server error")));
    } else {
      WrittenFixturesAreReadBack(MockMatches(d), w, now, failing, table, after);
      response := Response(200, MatchList(ReadBack(after, w)));
    }
  }

  /** Which fixtures a request sends, by its `date` parameter. */
  lemma FixturesSentByDate(d: Days, dateFilter: Option<string>)
    requires Ordered(d)
    ensures var ms := MockMatches(d);
      Sequences.Filter(ms, InWindowTest(SelectWindow(dateFilter, d))) ==
        if dateFilter == Some("today") then [ms[0], ms[3], ms[5], ms[7]]
        else if dateFilter == Some("tomorrow") then [ms[1], ms[2], ms[4], ms[6]]
        else ms
  {
    MockDates(d);
    if dateFilter == Some("today") {
      TodaySendsFourFixtures(MockMatches(d), d);
    } else if dateFilter == Some("tomorrow") {
      TomorrowSendsFourFixtures(MockMatches(d), d);
    } else {
      DefaultSendsAllFixtures(MockMatches(d), d, dateFilter);
    }
  }
}
