/**
 * The predictions page of the dashboard (`app/dashboard/predictions/page.tsx`):
 * its React state as the fields of a class, its handlers as methods. The
 * outcome of every remote call (the rows read, the error a write returns, the
 * clock) is a parameter of the method that makes the call.
 */
module DashboardPredictions {
  import opened Wrappers
  import Text
  import opened Prediction

  /** The columns of the `matches` row read back before a regular insert; any number may be stored. */
  datatype StoredMatch = StoredMatch(
    homeTeam: string,
    awayTeam: string,
    league: string,
    homeOdds: real,
    drawOdds: real,
    awayOdds: real)

  /** A row sent to the `predictions` table; `matchId` is `null` for a manual match. */
  datatype PredictionRow = PredictionRow(
    matchId: Option<string>,
    homeTeam: string,
    awayTeam: string,
    league: string,
    homeOdds: real,
    drawOdds: real,
    awayOdds: real,
    predicted: MatchResult,
    confidence: int,
    tokenUsed: string)

  /** The `update({ remaining })` sent to the `tokens` table. */
  datatype TokenUpdate = TokenUpdate(tokenId: string, remaining: int)

  /** JavaScript `x || fallback` on a number: 0 is the falsy value that falls back. */
  function OrElseOdds(x: real, fallback: Odds): (r: real)
    ensures r == x || r == fallback
    ensures r != 0.0
  {
    if x == 0.0 then fallback else x
  }

  /**
   * The row `handleSubmitPrediction` inserts. A manual id takes the first
   * branch: no match id, the typed-in match as it is. Any other id takes the
   * second: the stored row's non-empty values win over the selected match's.
   */
  function SubmissionRow(m: Match, predicted: MatchResult, token: Token, stored: Option<StoredMatch>): (row: PredictionRow)
    ensures row.matchId == None <==> IsManualId(m.id)
    ensures row.matchId.Some? ==> row.matchId.value == m.id
    ensures IsManualId(m.id) || stored.None? ==>
      && row.homeTeam == m.homeTeam && row.awayTeam == m.awayTeam && row.league == m.league
      && row.homeOdds == m.homeOdds && row.drawOdds == m.drawOdds && row.awayOdds == m.awayOdds
    ensures !IsManualId(m.id) && stored.Some? ==> var s := stored.value;
      && row.homeTeam == (if s.homeTeam != "" then s.homeTeam else m.homeTeam)
      && row.awayTeam == (if s.awayTeam != "" then s.awayTeam else m.awayTeam)
      && row.league == (if s.league != "" then s.league else m.league)
      && row.homeOdds == (if s.homeOdds != 0.0 then s.homeOdds else m.homeOdds)
      && row.drawOdds == (if s.drawOdds != 0.0 then s.drawOdds else m.drawOdds)
      && row.awayOdds == (if s.awayOdds != 0.0 then s.awayOdds else m.awayOdds)
    ensures row.predicted == predicted && row.tokenUsed == token.id
    ensures row.confidence == CalculatePrediction(m).confidence
  {
    var confidence := CalculatePrediction(m).confidence;
    if IsManualId(m.id) then
      PredictionRow(None, m.homeTeam, m.awayTeam, m.league, m.homeOdds, m.drawOdds, m.awayOdds,
                    predicted, confidence, token.id)
    else
      match stored
      case None =>
        PredictionRow(Some(m.id), m.homeTeam, m.awayTeam, m.league, m.homeOdds, m.drawOdds, m.awayOdds,
                      predicted, confidence, token.id)
      case Some(s) =>
        PredictionRow(Some(m.id), Text.OrElse(s.homeTeam, m.homeTeam), Text.OrElse(s.awayTeam, m.awayTeam),
                      Text.OrElse(s.league, m.league), OrElseOdds(s.homeOdds, m.homeOdds),
                      OrElseOdds(s.drawOdds, m.drawOdds), OrElseOdds(s.awayOdds, m.awayOdds),
                      predicted, confidence, token.id)
  }

  /** A match loaded from the manual form is always submitted as a manual match, without a match id. */
  lemma ManualMatchIsSubmittedAsManual(f: ManualForm, now: nat, odds: ParsedOdds,
                                       predicted: MatchResult, token: Token, stored: Option<StoredMatch>)
    ensures var row := SubmissionRow(ManualMatch(f, now, odds), predicted, token, stored);
      && row.matchId == None
      && row.homeTeam == f.homeTeam && row.awayTeam == f.awayTeam
      && row.league == (if f.league == "" then "Custom Match" else f.league)
      && row.homeOdds == odds.home && row.drawOdds == odds.draw && row.awayOdds == odds.away
  {
  }

  class PredictionsPage {
    var matches: seq<Match>
    var filteredMatches: seq<Match>
    var activeTokens: Option<Token>
    var selectedMatch: Option<Match>
    var prediction: Option<MatchResult>
    var message: Option<Message>
    var searchQuery: string
    var searchedMatch: Option<Match>
    var showManualEntry: bool
    var manualMatch: ManualForm

    /** The token query asks for `remaining > 0`, so an active token always has one left. */
    predicate Valid()
      reads this
    {
      activeTokens.Some? ==> activeTokens.value.remaining > 0
    }

    /** The initial state of the `useState` hooks. */
    constructor ()
      ensures Valid()
      ensures matches == [] && filteredMatches == [] && activeTokens == None
      ensures selectedMatch == None && prediction == None && message == None
      ensures searchQuery == "" && searchedMatch == None
      ensures !showManualEntry && manualMatch == EmptyManualForm
    {
      matches, filteredMatches, activeTokens := [], [], None;
      selectedMatch, prediction, message := None, None, None;
      searchQuery, searchedMatch := "", None;
      showManualEntry, manualMatch := false, EmptyManualForm;
    }

    /**
     * `fetchData` with the two query results as parameters: the upcoming
     * matches and the user's active token, each absent when its query
     * returned no data. The filter effect then runs because `matches` changed.
     */
    method FetchData(matchesData: Option<seq<Match>>, tokenData: Option<Token>)
      requires Valid()
      requires tokenData.Some? ==> tokenData.value.remaining > 0
      modifies this`matches, this`filteredMatches, this`activeTokens, this`searchedMatch
      ensures Valid()
      ensures matches == if matchesData.Some? then matchesData.value else old(matches)
      ensures activeTokens == if tokenData.Some? then tokenData else old(activeTokens)
      ensures matchesData.None? ==> filteredMatches == old(filteredMatches) && searchedMatch == old(searchedMatch)
      ensures matchesData.Some? && Text.IsBlank(searchQuery) ==> filteredMatches == matches && searchedMatch == None
      ensures matchesData.Some? && !Text.IsBlank(searchQuery) ==>
        filteredMatches == SearchFilter(matches, searchQuery) && searchedMatch == old(searchedMatch)
    {
      if matchesData.Some? {
        matches := matchesData.value;
        filteredMatches := matchesData.value;
      }
      if tokenData.Some? {
        activeTokens := tokenData;
      }
      if matchesData.Some? {
        ApplySearchFilter();
      }
    }

    /**
     * The search-filter effect (lines 41-54), run whenever the query or the
     * match list changes: a blank query shows every match and forgets the
     * searched match; any other query keeps, in order, the matches whose home
     * team, away team or league contains it, ignoring case.
     */
    method ApplySearchFilter()
      modifies this`filteredMatches, this`searchedMatch
      ensures Text.IsBlank(searchQuery) ==> filteredMatches == matches && searchedMatch == None
      ensures !Text.IsBlank(searchQuery) ==>
        filteredMatches == SearchFilter(matches, searchQuery) && searchedMatch == old(searchedMatch)
    {
      if Text.IsBlank(searchQuery) {
        filteredMatches := matches;
        searchedMatch := None;
      } else {
        filteredMatches := SearchFilter(matches, searchQuery);
      }
    }

    /** Typing in the search box: the query changes and the filter effect runs. */
    method EditSearchQuery(query: string)
      modifies this`searchQuery, this`filteredMatches, this`searchedMatch
      ensures searchQuery == query
      ensures Text.IsBlank(query) ==> filteredMatches == matches && searchedMatch == None
      ensures !Text.IsBlank(query) ==>
        filteredMatches == SearchFilter(matches, query) && searchedMatch == old(searchedMatch)
    {
      searchQuery := query;
      ApplySearchFilter();
    }

    /**
     * `handleSearchTeam`: a blank query is refused with a message; otherwise
     * the first match whose home or away team contains the query becomes the
     * searched match and the list shows every such match, and when there is
     * none the message names the query.
     */
    method SearchTeam()
      modifies this`message, this`searchedMatch, this`filteredMatches
      ensures if Text.IsBlank(searchQuery) then
          && message == Some(Message(Failure, "Please enter a team name to search"))
          && searchedMatch == old(searchedMatch) && filteredMatches == old(filteredMatches)
        else if TeamSearch(matches, searchQuery) != [] then
          && searchedMatch == Some(TeamSearch(matches, searchQuery)[0])
          && filteredMatches == TeamSearch(matches, searchQuery)
          && message == old(message)
        else
          && searchedMatch == None
          && filteredMatches == old(filteredMatches)
          && message == Some(Message(Failure, "No upcoming matches found for \"" + searchQuery + "\""))
    {
      if Text.IsBlank(searchQuery) {
        message := Some(Message(Failure, "Please enter a team name to search"));
      } else {
        searchedMatch := None;
        var filtered := TeamSearch(matches, searchQuery);
        if filtered != [] {
          searchedMatch := Some(filtered[0]);
          filteredMatches := filtered;
        } else {
          message := Some(Message(Failure, "No upcoming matches found for \"" + searchQuery + "\""));
        }
      }
    }

    /** `handleSelectMatch`: select the match, preselect the computed pick and clear the message. */
    method SelectMatch(m: Match)
      modifies this`selectedMatch, this`prediction, this`message
      ensures selectedMatch == Some(m)
      ensures prediction == Some(CalculatePrediction(m).result)
      ensures message == None
    {
      selectedMatch := Some(m);
      var pick := CalculatePrediction(m);
      prediction := Some(pick.result);
      message := None;
    }

    /** One of the three result buttons under the selected match: the user's own pick replaces the computed one. */
    method SetPrediction(r: MatchResult)
      modifies this`prediction
      ensures prediction == Some(r)
    {
      prediction := Some(r);
    }

    /** `handlePredictSearchedMatch`: select the searched match, if there is one. */
    method PredictSearchedMatch()
      modifies this`selectedMatch, this`prediction, this`message
      ensures old(searchedMatch).None? ==>
        selectedMatch == old(selectedMatch) && prediction == old(prediction) && message == old(message)
      ensures old(searchedMatch).Some? ==>
        && selectedMatch == old(searchedMatch)
        && prediction == Some(CalculatePrediction(old(searchedMatch).value).result)
        && message == None
    {
      if searchedMatch.Some? {
        SelectMatch(searchedMatch.value);
      }
    }

    /** The button of line 412 shows or hides the manual-entry form. */
    method ToggleManualEntry()
      modifies this`showManualEntry
      ensures showManualEntry == !old(showManualEntry)
    {
      showManualEntry := !showManualEntry;
    }

    /**
     * The "Load Match & Predict" button (lines 504-526), with the clock and
     * the three `parseFloat` results as parameters: an incomplete form is
     * refused with a message; a complete one becomes a manual match that is
     * selected as if clicked, and the form closes.
     */
    method LoadManualMatch(now: nat, odds: ParsedOdds)
      modifies this`selectedMatch, this`prediction, this`message, this`showManualEntry
      ensures !ManualFormComplete(manualMatch) ==>
        && message == Some(Message(Failure, "Please fill in all required fields"))
        && selectedMatch == old(selectedMatch) && prediction == old(prediction)
        && showManualEntry == old(showManualEntry)
      ensures ManualFormComplete(manualMatch) ==>
        && selectedMatch == Some(ManualMatch(manualMatch, now, odds))
        && prediction == Some(CalculatePrediction(ManualMatch(manualMatch, now, odds)).result)
        && !showManualEntry
        && message == Some(Message(Success, "Manual match loaded! You can now make your prediction."))
    {
      if !ManualFormComplete(manualMatch) {
        message := Some(Message(Failure, "Please fill in all required fields"));
        return;
      }
      var custom := ManualMatch(manualMatch, now, odds);
      SelectMatch(custom);
      showManualEntry := false;
      message := Some(Message(Success, "Manual match loaded! You can now make your prediction."));
    }

    /**
     * `handleSubmitPrediction`, given what the read of the stored match
     * returned and the errors the two writes return. Without a selected match,
     * a pick and an active token nothing happens. Otherwise the row is
     * inserted; if that fails the error is shown and nothing else changes, and
     * otherwise the token is charged one. When both writes succeed the
     * selection, pick, query, searched match and manual form are reset and the
     * filter effect runs for the cleared query.
     */
    method SubmitPrediction(stored: Option<StoredMatch>, insertError: Option<string>, tokenError: Option<string>)
      returns (insert: Option<PredictionRow>, update: Option<TokenUpdate>)
      requires Valid()
      modifies this
      ensures Valid()
      ensures matches == old(matches) && activeTokens == old(activeTokens) && showManualEntry == old(showManualEntry)
      ensures update.Some? ==> update.value.remaining >= 0
      ensures if old(selectedMatch).None? || old(prediction).None? || old(activeTokens).None? then
          && insert == None && update == None && message == old(message)
          && selectedMatch == old(selectedMatch) && prediction == old(prediction)
          && searchQuery == old(searchQuery) && searchedMatch == old(searchedMatch)
          && filteredMatches == old(filteredMatches) && manualMatch == old(manualMatch)
        else
          && insert == Some(SubmissionRow(old(selectedMatch).value, old(prediction).value, old(activeTokens).value, stored))
          && if insertError.Some? then
              && update == None
              && message == Some(SubmitFailure(insertError.value))
              && selectedMatch == old(selectedMatch) && prediction == old(prediction)
              && searchQuery == old(searchQuery) && searchedMatch == old(searchedMatch)
              && filteredMatches == old(filteredMatches) && manualMatch == old(manualMatch)
            else
              && update == Some(TokenUpdate(old(activeTokens).value.id, old(activeTokens).value.remaining - 1))
              && if tokenError.Some? then
                && message == Some(SubmitFailure(tokenError.value))
                && selectedMatch == old(selectedMatch) && prediction == old(prediction)
                && searchQuery == old(searchQuery) && searchedMatch == old(searchedMatch)
                && filteredMatches == old(filteredMatches) && manualMatch == old(manualMatch)
              else
                && message == Some(Message(Success, "Prediction submitted successfully!"))
                && selectedMatch == None && prediction == None
                && searchQuery == "" && searchedMatch == None && filteredMatches == matches
                && manualMatch == EmptyManualForm
    {
      insert, update := None, None;
      if selectedMatch.Some? && prediction.Some? && activeTokens.Some? {
        message := None;
        var m, token := selectedMatch.value, activeTokens.value;
        insert := Some(SubmissionRow(m, prediction.value, token, stored));
        if insertError.Some? {
          message := Some(SubmitFailure(insertError.value));
        } else {
          update := Some(TokenUpdate(token.id, token.remaining - 1));
          if tokenError.Some? {
            message := Some(SubmitFailure(tokenError.value));
          } else {
            message := Some(Message(Success, "Prediction submitted successfully!"));
            selectedMatch := None;
            prediction := None;
            searchQuery := "";
            searchedMatch := None;
            manualMatch := EmptyManualForm;
            // the filter effect, run on the now empty query, shows every match again
            filteredMatches := matches;
          }
        }
      }
    }
  }
}
