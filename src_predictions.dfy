/**
 * The predictions page of the single-page app (`src/pages/PredictionsPage.tsx`):
 * the same search and pick logic as the dashboard page, without manual
 * matches, and a shorter prediction row. Remote outcomes are parameters.
 */
module SrcPredictions {
  import opened Wrappers
  import Text
  import opened Prediction

  /** The row this page inserts into the `predictions` table. */
  datatype PredictionRow = PredictionRow(matchId: string, predicted: MatchResult, confidence: int, tokenUsed: string)

  datatype TokenUpdate = TokenUpdate(tokenId: string, remaining: int)

  /** The row for a pick on `m` paid with `token`; the confidence is always the computed one, whichever result was picked. */
  function SubmissionRow(m: Match, predicted: MatchResult, token: Token): (row: PredictionRow)
    ensures row.matchId == m.id && row.predicted == predicted && row.tokenUsed == token.id
    ensures row.confidence == CalculatePrediction(m).confidence
  {
    PredictionRow(m.id, predicted, CalculatePrediction(m).confidence, token.id)
  }

  class PredictionsPage {
    var matches: seq<Match>
    var filteredMatches: seq<Match>
    var activeTokens: Option<Token>
    var selectedMatch: Option<Match>
    var prediction: Option<MatchResult>
    var message: Option<Message>
    var searchQuery: string
    var searchedMatch: Option<Match>

    /** The token query asks for `remaining > 0`, so an active token always has one left. */
    predicate Valid()
      reads this
    {
      activeTokens.Some? ==> activeTokens.value.remaining > 0
    }

    constructor ()
      ensures Valid()
      ensures matches == [] && filteredMatches == [] && activeTokens == None
      ensures selectedMatch == None && prediction == None && message == None
      ensures searchQuery == "" && searchedMatch == None
    {
      matches, filteredMatches, activeTokens := [], [], None;
      selectedMatch, prediction, message := None, None, None;
      searchQuery, searchedMatch := "", None;
    }

    /** `fetchData` with the two query results as parameters; the filter effect runs when `matches` changes. */
    method FetchData(matchesData: Option<seq<Match>>, tokenData: Option<Token>)
      requires Valid()
      requires tokenData.Some? ==> tokenData.value.remaining > 0
      modifies this`matches, this`filteredMatches, this`activeTokens, this`searchedMatch
      ensures Valid()
      ensures matches == if matchesData.Some? then matchesData.value else old(matches)
      ensures activeTokens == if tokenData.Some? then tokenData else old(activeTokens)
      ensures matchesData.None? ==> filteredMatches == old(filteredMatches) && searchedMatch == old(searchedMatch)
      ensures matchesData.Some? && Text.IsBlank(searchQuery) ==> filteredMatches == matches && searchedMatch == None
      ensures matchesData.Some? && !Text.IsBlank(searchQuery) ==>
        filteredMatches == SearchFilter(matches, searchQuery) && searchedMatch == old(searchedMatch)
    {
      if matchesData.Some? {
        matches := matchesData.value;
        filteredMatches := matchesData.value;
      }
      if tokenData.Some? {
        activeTokens := tokenData;
      }
      if matchesData.Some? {
        ApplySearchFilter();
      }
    }

    /** The search-filter effect (lines 28-41). */
    method ApplySearchFilter()
      modifies this`filteredMatches, this`searchedMatch
      ensures Text.IsBlank(searchQuery) ==> filteredMatches == matches && searchedMatch == None
      ensures !Text.IsBlank(searchQuery) ==>
        filteredMatches == SearchFilter(matches, searchQuery) && searchedMatch == old(searchedMatch)
    {
      if Text.IsBlank(searchQuery) {
        filteredMatches := matches;
        searchedMatch := None;
      } else {
        filteredMatches := SearchFilter(matches, searchQuery);
      }
    }

    /** Typing in the search box: the query changes and the filter effect runs. */
    method EditSearchQuery(query: string)
      modifies this`searchQuery, this`filteredMatches, this`searchedMatch
      ensures searchQuery == query
      ensures Text.IsBlank(query) ==> filteredMatches == matches && searchedMatch == None
      ensures !Text.IsBlank(query) ==>
        filteredMatches == SearchFilter(matches, query) && searchedMatch == old(searchedMatch)
    {
      searchQuery := query;
      ApplySearchFilter();
    }

    /** `handleSearchTeam` (lines 99-122). */
    method SearchTeam()
      modifies this`message, this`searchedMatch, this`filteredMatches
      ensures if Text.IsBlank(searchQuery) then
          && message == Some(Message(Failure, "Please enter a team name to search"))
          && searchedMatch == old(searchedMatch) && filteredMatches == old(filteredMatches)
        else if TeamSearch(matches, searchQuery) != [] then
          && searchedMatch == Some(TeamSearch(matches, searchQuery)[0])
          && filteredMatches == TeamSearch(matches, searchQuery)
          && message == old(message)
        else
          && searchedMatch == None
          && filteredMatches == old(filteredMatches)
          && message == Some(Message(Failure, "No upcoming matches found for \"" + searchQuery + "\""))
    {
      if Text.IsBlank(searchQuery) {
        message := Some(Message(Failure, "Please enter a team name to search"));
      } else {
        searchedMatch := None;
        var filtered := TeamSearch(matches, searchQuery);
        if filtered != [] {
          searchedMatch := Some(filtered[0]);
          filteredMatches := filtered;
        } else {
          message := Some(Message(Failure, "No upcoming matches found for \"" + searchQuery + "\""));
        }
      }
    }

    /** `handleSelectMatch`: select the match, preselect the computed pick and clear the message. */
    method SelectMatch(m: Match)
      modifies this`selectedMatch, this`prediction, this`message
      ensures selectedMatch == Some(m)
      ensures prediction == Some(CalculatePrediction(m).result)
      ensures message == None
    {
      selectedMatch := Some(m);
      var pick := CalculatePrediction(m);
      prediction := Some(pick.result);
      message := None;
    }

    /** One of the three result buttons under the selected match: the user's own pick replaces the computed one. */
    method SetPrediction(r: MatchResult)
      modifies this`prediction
      ensures prediction == Some(r)
    {
      prediction := Some(r);
    }

    /** `handlePredictSearchedMatch`: select the searched match, if there is one. */
    method PredictSearchedMatch()
      modifies this`selectedMatch, this`prediction, this`message
      ensures old(searchedMatch).None? ==>
        selectedMatch == old(selectedMatch) && prediction == old(prediction) && message == old(message)
      ensures old(searchedMatch).Some? ==>
        && selectedMatch == old(searchedMatch)
        && prediction == Some(CalculatePrediction(old(searchedMatch).value).result)
        && message == None
    {
      if searchedMatch.Some? {
        SelectMatch(searchedMatch.value);
      }
    }

    /**
     * `handleSubmitPrediction`, given the errors the two writes return:
     * nothing happens without a selected match, a pick and an active token; a
     * failed write shows its error; when both succeed the selection, pick,
     * query and searched match are cleared and the filter effect runs.
     */
    method SubmitPrediction(insertError: Option<string>, tokenError: Option<string>)
      returns (insert: Option<PredictionRow>, update: Option<TokenUpdate>)
      requires Valid()
      modifies this
      ensures Valid()
      ensures matches == old(matches) && activeTokens == old(activeTokens)
      ensures update.Some? ==> update.value.remaining >= 0
      ensures if old(selectedMatch).None? || old(prediction).None? || old(activeTokens).None? then
          && insert == None && update == None && message == old(message)
          && selectedMatch == old(selectedMatch) && prediction == old(prediction)
          && searchQuery == old(searchQuery) && searchedMatch == old(searchedMatch)
          && filteredMatches == old(filteredMatches)
        else
          && insert == Some(SubmissionRow(old(selectedMatch).value, old(prediction).value, old(activeTokens).value))
          && if insertError.Some? then
              && update == None
              && message == Some(SubmitFailure(insertError.value))
              && selectedMatch == old(selectedMatch) && prediction == old(prediction)
              && searchQuery == old(searchQuery) && searchedMatch == old(searchedMatch)
              && filteredMatches == old(filteredMatches)
            else
              && update == Some(TokenUpdate(old(activeTokens).value.id, old(activeTokens).value.remaining - 1))
              && if tokenError.Some? then
                && message == Some(SubmitFailure(tokenError.value))
                && selectedMatch == old(selectedMatch) && prediction == old(prediction)
                && searchQuery == old(searchQuery) && searchedMatch == old(searchedMatch)
                && filteredMatches == old(filteredMatches)
              else
                && message == Some(Message(Success, "Prediction submitted successfully!"))
                && selectedMatch == None && prediction == None
                && searchQuery == "" && searchedMatch == None && filteredMatches == matches
    {
      insert, update := None, None;
      if selectedMatch.Some? && prediction.Some? && activeTokens.Some? {
        message := None;
        var m, token := selectedMatch.value, activeTokens.value;
        insert := Some(SubmissionRow(m, prediction.value, token));
        if insertError.Some? {
          message := Some(SubmitFailure(insertError.value));
        } else {
          update := Some(TokenUpdate(token.id, token.remaining - 1));
          if tokenError.Some? {
            message := Some(SubmitFailure(tokenError.value));
          } else {
            message := Some(Message(Success, "Prediction submitted successfully!"));
            selectedMatch := None;
            prediction := None;
            searchQuery := "";
            searchedMatch := None;
            // the filter effect, run on the now empty query, shows every match again
            filteredMatches := matches;
          }
        }
      }
    }
  }
}
