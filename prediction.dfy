/**
 * The pure logic both predictions pages share: the odds-based pick and its
 * confidence, the result label, the match-search tests and the manual-match
 * id. The two pages define each of these identically; here each is defined
 * once and both page models use it.
 */
module Prediction {
  import opened Wrappers
  import Text
  import Sequences

  /** Decimal betting odds: a positive real. */
  type Odds = r: real | r > 0.0 witness 1.0

  /** `MatchResult` of `src/types/index.ts`. */
  datatype MatchResult = HomeWin | AwayWin | Draw

  /** The fields of a `Match` row that the pages read. */
  datatype Match = Match(
    id: string,
    homeTeam: string,
    awayTeam: string,
    league: string,
    homeOdds: Odds,
    drawOdds: Odds,
    awayOdds: Odds)

  /** The active token of the signed-in user. */
  datatype Token = Token(id: string, remaining: int)

  datatype MessageKind = Success | Failure

  /** The banner the pages show: `{ type: 'success' | 'error', text }`. */
  datatype Message = Message(kind: MessageKind, text: string)

  // ---------------------------------------------------------------------------
  // calculatePrediction

  /** `(1 / odds) * 100`: the implied probability, in percent. */
  function ImpliedProbability(odds: Odds): (p: real)
    ensures p > 0.0
    ensures p * odds == 100.0
  {
    (1.0 / odds) * 100.0
  }

  /** Shorter odds mean a larger implied probability, and equal odds an equal one. */
  lemma ProbabilityOrder(x: Odds, y: Odds)
    ensures ImpliedProbability(x) > ImpliedProbability(y) <==> x < y
    ensures ImpliedProbability(x) == ImpliedProbability(y) <==> x == y
  {
    var px, py := ImpliedProbability(x), ImpliedProbability(y);
    if x < y {
      ScaleStrict(py, x, y);
      BelowHundred(py * x, py * y, px * x);
      CancelPositive(px, py, x);
    } else if x > y {
      ScaleStrict(px, y, x);
      BelowHundred(px * y, px * x, py * y);
      CancelPositive(py, px, y);
    }
  }

  lemma ScaleStrict(k: real, a: real, b: real)
    requires k > 0.0 && a < b
    ensures k * a < k * b
  {
  }

  lemma BelowHundred(smaller: real, hundred: real, other: real)
    requires smaller < hundred && hundred == 100.0 && other == 100.0
    ensures other > smaller
  {
  }

  lemma CancelPositive(a: real, b: real, c: real)
    requires c > 0.0 && a * c > b * c
    ensures a > b
  {
  }

  /** `Math.round`: the nearest integer, halves rounded up. */
  function MathRound(x: real): (n: int)
    ensures x - 0.5 < n as real <= x + 0.5
  {
    (x + 0.5).Floor
  }

  datatype Pick = Pick(result: MatchResult, confidence: int)

  /** The implied probability of one outcome. */
  function ProbabilityOf(m: Match, r: MatchResult): real
  {
    match r
    case HomeWin => ImpliedProbability(m.homeOdds)
    case AwayWin => ImpliedProbability(m.awayOdds)
    case Draw => ImpliedProbability(m.drawOdds)
  }

  /**
   * `calculatePrediction`: home or away when its probability is strictly the
   * largest, draw in every other case; the confidence is the chosen outcome's
   * probability rounded.
   */
  function CalculatePrediction(m: Match): (p: Pick)
    ensures var home, draw, away := ProbabilityOf(m, HomeWin), ProbabilityOf(m, Draw), ProbabilityOf(m, AwayWin);
      && (p.result == HomeWin <==> home > draw && home > away)
      && (p.result == AwayWin <==> away > home && away > draw)
      && (p.result == Draw <==> !(home > draw && home > away) && !(away > home && away > draw))
    ensures p.confidence == MathRound(ProbabilityOf(m, p.result))
  {
    var homeProb := ImpliedProbability(m.homeOdds);
    var drawProb := ImpliedProbability(m.drawOdds);
    var awayProb := ImpliedProbability(m.awayOdds);
    if homeProb > drawProb && homeProb > awayProb then Pick(HomeWin, MathRound(homeProb))
    else if awayProb > homeProb && awayProb > drawProb then Pick(AwayWin, MathRound(awayProb))
    else Pick(Draw, MathRound(drawProb))
  }

  /** The same rule read off the odds: a side wins exactly when its odds are strictly the shortest. */
  lemma PredictionByOdds(m: Match)
    ensures CalculatePrediction(m).result == HomeWin <==> m.homeOdds < m.drawOdds && m.homeOdds < m.awayOdds
    ensures CalculatePrediction(m).result == AwayWin <==> m.awayOdds < m.homeOdds && m.awayOdds < m.drawOdds
    ensures CalculatePrediction(m).result == Draw <==>
      !(m.homeOdds < m.drawOdds && m.homeOdds < m.awayOdds) && !(m.awayOdds < m.homeOdds && m.awayOdds < m.drawOdds)
  {
    ProbabilityOrder(m.homeOdds, m.drawOdds);
    ProbabilityOrder(m.homeOdds, m.awayOdds);
    ProbabilityOrder(m.awayOdds, m.drawOdds);
    ProbabilityOrder(m.awayOdds, m.homeOdds);
  }

  /** A home win or an away win is reported with the largest of the three probabilities. */
  lemma WinnerHasTopConfidence(m: Match)
    requires CalculatePrediction(m).result != Draw
    ensures forall r: MatchResult :: CalculatePrediction(m).confidence >= MathRound(ProbabilityOf(m, r))
  {
    forall r: MatchResult ensures CalculatePrediction(m).confidence >= MathRound(ProbabilityOf(m, r)) {
      MathRoundMonotone(ProbabilityOf(m, r), ProbabilityOf(m, CalculatePrediction(m).result));
    }
  }

  lemma MathRoundMonotone(x: real, y: real)
    requires x <= y
    ensures MathRound(x) <= MathRound(y)
  {
  }

  /**
   * When home and away share the shortest odds the pick is a draw, and its
   * confidence is that of the draw, the least likely outcome.
   */
  lemma TopTieIsDraw(m: Match)
    requires m.homeOdds == m.awayOdds < m.drawOdds
    ensures CalculatePrediction(m).result == Draw
    ensures CalculatePrediction(m).confidence == MathRound(ImpliedProbability(m.drawOdds))
    ensures CalculatePrediction(m).confidence <= MathRound(ImpliedProbability(m.homeOdds))
  {
    PredictionByOdds(m);
    ProbabilityOrder(m.homeOdds, m.drawOdds);
    MathRoundMonotone(ImpliedProbability(m.drawOdds), ImpliedProbability(m.homeOdds));
  }

  /** With odds of at least 1 (a probability of at most 100%) the confidence is a percentage. */
  lemma ConfidenceIsPercentage(m: Match)
    ensures CalculatePrediction(m).confidence >= 0
    ensures m.homeOdds >= 1.0 && m.drawOdds >= 1.0 && m.awayOdds >= 1.0 ==> CalculatePrediction(m).confidence <= 100
  {
    var r := CalculatePrediction(m).result;
    var odds := match r case HomeWin => m.homeOdds case AwayWin => m.awayOdds case Draw => m.drawOdds;
    assert ProbabilityOf(m, r) == ImpliedProbability(odds);
    if odds >= 1.0 {
      ProbabilityOrder(odds, 1.0);
      assert ImpliedProbability(1.0) == 100.0;
      MathRoundMonotone(ImpliedProbability(odds), 100.0);
    }
  }

  // ---------------------------------------------------------------------------
  // getResultLabel

  /** `getResultLabel`: the winning team's name followed by " Win", or "Draw". */
  function ResultLabel(r: MatchResult, m: Match): string
  {
    match r
    case HomeWin => m.homeTeam + " Win"
    case AwayWin => m.awayTeam + " Win"
    case Draw => "Draw"
  }

  /** The label reads "Draw" exactly for a draw, whatever the teams are called; otherwise it names the team. */
  lemma ResultLabelIsReadable(r: MatchResult, m: Match)
    ensures ResultLabel(r, m) == "Draw" <==> r == Draw
    ensures var shown := ResultLabel(r, m);
      r != Draw ==>
        && |shown| >= 4 && shown[|shown| - 4..] == " Win"
        && shown[..|shown| - 4] == (if r == HomeWin then m.homeTeam else m.awayTeam)
  {
    var shown := ResultLabel(r, m);
    if r != Draw {
      var team := if r == HomeWin then m.homeTeam else m.awayTeam;
      assert shown == team + " Win";
      assert shown[|shown| - 1] == 'n';
      assert shown[|shown| - 4..] == " Win";
      assert shown[..|shown| - 4] == team;
    }
  }

  // ---------------------------------------------------------------------------
  // Match search

  /** `a.toLowerCase().includes(b.toLowerCase())` */
  predicate ContainsIgnoringCase(hay: string, needle: string)
  {
    Text.Contains(Text.ToLower(hay), Text.ToLower(needle))
  }

  /** The search-filter effect's test: home team, away team or league contains the query. */
  predicate MatchesQuery(m: Match, query: string)
  {
    ContainsIgnoringCase(m.homeTeam, query) || ContainsIgnoringCase(m.awayTeam, query)
    || ContainsIgnoringCase(m.league, query)
  }

  /** `handleSearchTeam`'s test: home or away team contains the query; the league is not searched. */
  predicate MatchesTeam(m: Match, query: string)
  {
    ContainsIgnoringCase(m.homeTeam, query) || ContainsIgnoringCase(m.awayTeam, query)
  }

  function QueryTest(query: string): Match -> bool
  {
    m => MatchesQuery(m, query)
  }

  function TeamTest(query: string): Match -> bool
  {
    m => MatchesTeam(m, query)
  }

  /** The matches the search-filter effect keeps for a non-blank query. */
  function SearchFilter(matches: seq<Match>, query: string): (r: seq<Match>)
    ensures forall m :: m in r <==> m in matches && MatchesQuery(m, query)
  {
    Sequences.Filter(matches, QueryTest(query))
  }

  /** The matches `handleSearchTeam` finds. */
  function TeamSearch(matches: seq<Match>, query: string): (r: seq<Match>)
    ensures forall m :: m in r <==> m in matches && MatchesTeam(m, query)
  {
    Sequences.Filter(matches, TeamTest(query))
  }

  /** Both searches keep the original order: they split over a concatenation of match lists. */
  lemma SearchesKeepOrder(s: seq<Match>, t: seq<Match>, query: string)
    ensures SearchFilter(s + t, query) == SearchFilter(s, query) + SearchFilter(t, query)
    ensures TeamSearch(s + t, query) == TeamSearch(s, query) + TeamSearch(t, query)
  {
    Sequences.FilterAppend(s, t, QueryTest(query));
    Sequences.FilterAppend(s, t, TeamTest(query));
  }

  /** A team search finds no more than the search filter would. */
  lemma TeamSearchWithinSearchFilter(matches: seq<Match>, query: string)
    ensures forall m :: m in TeamSearch(matches, query) ==> m in SearchFilter(matches, query)
  {
  }

  /** The first team-search hit is the earliest match in the list that names the team. */
  lemma FirstTeamHit(matches: seq<Match>, query: string)
    requires TeamSearch(matches, query) != []
    ensures exists i ::
      && 0 <= i < |matches| && matches[i] == TeamSearch(matches, query)[0]
      && MatchesTeam(matches[i], query) && forall j :: 0 <= j < i ==> !MatchesTeam(matches[j], query)
  {
    Sequences.FilterFirst(matches, TeamTest(query));
  }

  /** The searches ignore case: lower-casing the query first changes nothing. */
  lemma SearchIgnoresQueryCase(m: Match, query: string)
    ensures MatchesQuery(m, Text.ToLower(query)) == MatchesQuery(m, query)
    ensures MatchesTeam(m, Text.ToLower(query)) == MatchesTeam(m, query)
  {
    Text.ToLowerIdempotent(query);
  }

  // ---------------------------------------------------------------------------
  // Manual matches

  const ManualPrefix: string := "manual-"

  /** `'manual-' + Date.now()`: the id of a match typed in by hand. */
  function ManualId(now: nat): (id: string)
    ensures |id| > |ManualPrefix|
  {
    ManualPrefix + Text.DecimalString(now)
  }

  /** `id.toString().startsWith('manual-')` */
  predicate IsManualId(id: string)
  {
    Text.StartsWith(id, ManualPrefix)
  }

  /** Every id built for a manual match is recognised as one, and the timestamp can be read back from it. */
  lemma ManualIdRoundTrip(now: nat)
    ensures IsManualId(ManualId(now))
    ensures var digits := ManualId(now)[|ManualPrefix|..];
      (forall i :: 0 <= i < |digits| ==> '0' <= digits[i] <= '9') && Text.DecimalValue(digits) == now
  {
    var id := ManualId(now);
    assert id[..|ManualPrefix|] == ManualPrefix;
    assert id[|ManualPrefix|..] == Text.DecimalString(now);
    Text.DecimalRoundTrip(now);
  }

  /** The manual-entry form: every field is the raw text of an input. */
  datatype ManualForm = ManualForm(
    homeTeam: string,
    awayTeam: string,
    league: string,
    homeOdds: string,
    drawOdds: string,
    awayOdds: string)

  const EmptyManualForm := ManualForm("", "", "", "", "", "")

  /** Line 505: both teams and all three odds must be non-empty; the league may be left out. */
  predicate ManualFormComplete(f: ManualForm)
  {
    f.homeTeam != "" && f.awayTeam != "" && f.homeOdds != "" && f.drawOdds != "" && f.awayOdds != ""
  }

  /** The odds `parseFloat` read from the three odds fields. */
  datatype ParsedOdds = ParsedOdds(home: Odds, draw: Odds, away: Odds)

  /** The `customMatch` built from a complete form. */
  function ManualMatch(f: ManualForm, now: nat, odds: ParsedOdds): (m: Match)
    ensures IsManualId(m.id)
    ensures m.homeTeam == f.homeTeam && m.awayTeam == f.awayTeam
    ensures m.league == (if f.league == "" then "Custom Match" else f.league)
    ensures m.homeOdds == odds.home && m.drawOdds == odds.draw && m.awayOdds == odds.away
  {
    ManualIdRoundTrip(now);
    Match(ManualId(now), f.homeTeam, f.awayTeam, Text.OrElse(f.league, "Custom Match"), odds.home, odds.draw, odds.away)
  }

  /** `error.message || 'Failed to submit prediction'` */
  function SubmitFailure(error: string): (msg: Message)
    ensures msg.kind == Failure && msg.text != ""
    ensures error != "" ==> msg.text == error
  {
    Message(Failure, Text.OrElse(error, "Failed to submit prediction"))
  }
}
