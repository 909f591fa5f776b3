/** The poll screen (src/pages/PollView.tsx): loading a poll by share link or
    by id together with its results, voting, the link offered for sharing,
    the radio choice and the vote button, and the result rows with the
    user's own vote marked. The tally is the one of the results screen and
    the share link the one of the dashboard. */
module PollViewPage {
  import opened Common
  import Api
  import ResultsPage
  import DashboardPage

  const NoIdentifierMessage := "No poll identifier provided"
  const HomeRoute := "/"

  /** Where "Back" (and a missing poll) leads: the dashboard for a signed-in
      user, the landing page otherwise. */
  function BackRoute(isAuthenticated: bool): (to: string)
    ensures isAuthenticated <==> to == DashboardRoute
    ensures !isAuthenticated <==> to == HomeRoute
  {
    if isAuthenticated then DashboardRoute else HomeRoute
  }

  /** The call that loads the poll, from the route's parameters: a share link
      wins over an id; with neither there is no call and the load fails with
      its own message. */
  function Identify(id: Option<string>, shareLink: Option<string>): (r: Result<Api.PollsCall>)
    ensures r.Err? <==> !Truthy(shareLink) && !Truthy(id)
    ensures r.Err? ==> r.message == NoIdentifierMessage
    ensures r.Ok? ==> Api.IsRead(r.value)
    ensures Truthy(shareLink) ==> r == Ok(Api.GetPollByShareLink(shareLink.value))
    ensures !Truthy(shareLink) && Truthy(id) ==> r == Ok(Api.GetPoll(id.value))
  {
    if Truthy(shareLink) then Ok(Api.GetPollByShareLink(shareLink.value))
    else if Truthy(id) then Ok(Api.GetPoll(id.value))
    else Err(NoIdentifierMessage)
  }

  /** Where a failed load leads, classified by substring: a "401" goes to the
      login page, otherwise a "404" goes back; anything else stays on the
      page with a generic message. */
  function LoadFailureTarget(message: string, isAuthenticated: bool): (to: Option<string>)
    ensures Includes(message, "401") ==> to == Some(LoginRoute)
    ensures !Includes(message, "401") && Includes(message, "404") ==> to == Some(BackRoute(isAuthenticated))
    ensures to.None? <==> !Includes(message, "401") && !Includes(message, "404")
  {
    if Includes(message, "401") then Some(LoginRoute)
    else if Includes(message, "404") then Some(BackRoute(isAuthenticated))
    else None
  }

  /** The API's message for a 401 ("Authentication required") names neither
      "401" nor "404": the screen stays where it is. (The API itself sends a
      401 to the login page.) */
  lemma AuthRequiredStaysPut(isAuthenticated: bool)
    ensures LoadFailureTarget(Api.AuthRequiredMessage, isAuthenticated).None?
  {
    Api.AuthRequiredMessageNamesNoStatus();
    NotIncludesWithoutFirstChar(Api.AuthRequiredMessage, "401");
    NotIncludesWithoutFirstChar(Api.AuthRequiredMessage, "404");
  }

  /** The missing-identifier text contains no digit 4. */
  lemma NoIdentifierMessageNamesNoStatus()
    ensures '4' !in NoIdentifierMessage
  {
  }

  /** Missing route parameters leave the screen where it is too. */
  lemma MissingIdentifierStaysPut(isAuthenticated: bool)
    ensures LoadFailureTarget(NoIdentifierMessage, isAuthenticated).None?
  {
    NoIdentifierMessageNamesNoStatus();
    NotIncludesWithoutFirstChar(NoIdentifierMessage, "401");
    NotIncludesWithoutFirstChar(NoIdentifierMessage, "404");
  }

  /** A 404 answer without a server message always leaves the screen: back,
      or to the login page when its status text happens to name a 401. */
  lemma NotFoundLeaves(statusText: string, isAuthenticated: bool)
    ensures LoadFailureTarget(Api.HttpErrorMessage(404, statusText, None), isAuthenticated).Some?
  {
    assert NatToString(404) == "404";
    Api.HttpErrorMessageNamesStatus(404, statusText);
  }

  /** An error answer whose body is JSON `null` fails with the error that
      reading its message throws, which names no status: the screen stays
      where it is, even for a 404. */
  lemma NullErrorBodyStaysPut(status: nat, statusText: string, isAuthenticated: bool)
    ensures LoadFailureTarget(Api.ErrorBodyMessage(status, statusText, Api.JsonNull), isAuthenticated).None?
  {
    Api.NullErrorBodyMessageNamesNoStatus();
    NotIncludesWithoutFirstChar(Api.NullErrorBodyMessage, "401");
    NotIncludesWithoutFirstChar(Api.NullErrorBodyMessage, "404");
  }

  /** `poll?.userVoteOptionId === optionId`. */
  predicate VotedFor(poll: Option<Api.Poll>, optionId: string) {
    poll.Some? && poll.value.userVoteOptionId == Some(optionId)
  }

  /** A result row on the poll screen: the row the results screen shows and
      whether it is the user's own choice. */
  datatype VoteRow = VoteRow(shown: ResultsPage.Row, isUserVote: bool)

  /** The result rows: none before results arrive; otherwise one per result
      option, in order, with the results screen's text, percentage and
      leading mark, and the user's own choice marked. */
  function VoteRows(poll: Option<Api.Poll>, results: Option<ResultsPage.Results>): (rows: seq<VoteRow>)
    ensures results.None? ==> rows == []
    ensures results.Some? ==> |rows| == |results.value.options|
    ensures results.Some? ==> forall i :: 0 <= i < |rows| ==>
      && rows[i].shown == ResultsPage.Rows(results.value.options)[i]
      && (rows[i].isUserVote <==> VotedFor(poll, results.value.options[i].id))
  {
    match results
    case None => []
    case Some(r) =>
      var shown := ResultsPage.Rows(r.options);
      seq(|r.options|, i requires 0 <= i < |r.options| =>
        VoteRow(shown[i], VotedFor(poll, r.options[i].id)))
  }

  /** When the result options have distinct ids, at most one row is marked as
      the user's vote, and it is the one whose id the poll records. */
  lemma AtMostOneUserVote(poll: Option<Api.Poll>, results: ResultsPage.Results, i: nat, j: nat)
    requires i < |results.options| && j < |results.options|
    requires forall a, b :: 0 <= a < b < |results.options| ==> results.options[a].id != results.options[b].id
    requires VoteRows(poll, Some(results))[i].isUserVote && VoteRows(poll, Some(results))[j].isUserVote
    ensures i == j
    ensures poll.Some? && poll.value.userVoteOptionId == Some(results.options[i].id)
  {
  }

  /** The totals shown above the options: zero votes and a maximum of one
      until results arrive, the results screen's tally afterwards. */
  function ShownTotal(results: Option<ResultsPage.Results>): (total: nat)
    ensures results.None? ==> total == 0
    ensures results.Some? ==> total == ResultsPage.TotalVotes(results.value.options)
  {
    if results.Some? then ResultsPage.TotalVotes(results.value.options) else 0
  }

  function ShownMax(results: Option<ResultsPage.Results>): (m: nat)
    ensures m >= 1
    ensures results.None? ==> m == 1
    ensures results.Some? ==> m == ResultsPage.MaxVotes(results.value.options)
  {
    if results.Some? then ResultsPage.MaxVotes(results.value.options) else 1
  }

  /** The screen's state. */
  class PollView {
    var poll: Option<Api.Poll>
    var isLoading: bool
    var selectedOption: string
    var isVoting: bool
    var showResults: bool
    var results: Option<ResultsPage.Results>

    /** Nothing loaded yet; loading. */
    constructor()
      ensures poll.None? && isLoading && selectedOption == "" && !isVoting && !showResults && results.None?
    {
      poll := None;
      isLoading := true;
      selectedOption := "";
      isVoting := false;
      showResults := false;
      results := None;
    }

    /** The vote button is enabled with a choice made, no vote in flight and
      no vote recorded for the poll. */
    predicate VoteEnabled()
      reads this
    {
      selectedOption != "" && !isVoting && !(poll.Some? && poll.value.hasVoted)
    }

    /** `fetchResults`: success stores the results; a failure only shows a
      message and keeps them. */
    method FetchResults(pollId: string, outcome: Result<ResultsPage.Results>) returns (call: Api.PollsCall)
      modifies this
      ensures call == Api.GetResults(pollId)
      ensures results == (if outcome.Ok? then Some(outcome.value) else old(results))
      ensures poll == old(poll) && isLoading == old(isLoading) && selectedOption == old(selectedOption)
      ensures isVoting == old(isVoting) && showResults == old(showResults)
    {
      call := Api.GetResults(pollId);
      if outcome.Ok? {
        results := Some(outcome.value);
      }
    }

    /** `fetchPoll`. The route's parameters pick the call; `pollOutcome` is
      its answer and `resultsOutcome` the answer to the results call that
      follows a successful load. A loaded poll replaces the current one, and
      a poll already voted on switches to the results. A failure keeps the
      state and leads where its message says. Loading ends either way. */
    method FetchPoll(id: Option<string>, shareLink: Option<string>, isAuthenticated: bool,
                     pollOutcome: Result<Api.Poll>, resultsOutcome: Result<ResultsPage.Results>)
      returns (calls: seq<Api.PollsCall>, navigateTo: Option<string>)
      modifies this
      ensures !isLoading && selectedOption == old(selectedOption) && isVoting == old(isVoting)
      ensures Identify(id, shareLink).Err? ==>
        && calls == [] && navigateTo == LoadFailureTarget(NoIdentifierMessage, isAuthenticated)
        && poll == old(poll) && results == old(results) && showResults == old(showResults)
      ensures Identify(id, shareLink).Ok? && pollOutcome.Err? ==>
        && calls == [Identify(id, shareLink).value]
        && navigateTo == LoadFailureTarget(pollOutcome.message, isAuthenticated)
        && poll == old(poll) && results == old(results) && showResults == old(showResults)
      ensures Identify(id, shareLink).Ok? && pollOutcome.Ok? ==>
        && calls == [Identify(id, shareLink).value, Api.GetResults(pollOutcome.value.id)]
        && navigateTo.None?
        && poll == Some(pollOutcome.value)
        && results == (if resultsOutcome.Ok? then Some(resultsOutcome.value) else old(results))
        && showResults == (old(showResults) || pollOutcome.value.hasVoted)
        && (pollOutcome.value.hasVoted ==> !VoteEnabled())
    {
      isLoading := true;
      var ident := Identify(id, shareLink);
      if ident.Err? {
        calls, navigateTo := [], LoadFailureTarget(ident.message, isAuthenticated);
      } else if pollOutcome.Err? {
        calls, navigateTo := [ident.value], LoadFailureTarget(pollOutcome.message, isAuthenticated);
      } else {
        var loaded := pollOutcome.value;
        poll := Some(loaded);
        var resultsCall := FetchResults(loaded.id, resultsOutcome);
        calls, navigateTo := [ident.value, resultsCall], None;
        if loaded.hasVoted {
          showResults := true;
        }
      }
      isLoading := false;
    }

    /** `handleVote`. Without a poll or a signed-in user nothing is sent and
      the login page opens. Otherwise the ballot is cast; success records the
      vote on the poll, reloads the results and shows them, after which the
      vote button stays disabled; failure keeps the state. */
    method HandleVote(optionId: string, isAuthenticated: bool,
                      voteOutcome: Result<()>, resultsOutcome: Result<ResultsPage.Results>)
      returns (calls: seq<Api.PollsCall>, navigateTo: Option<string>)
      modifies this
      ensures selectedOption == old(selectedOption) && isLoading == old(isLoading)
      ensures old(poll).None? || !isAuthenticated ==>
        && calls == [] && navigateTo == Some(LoginRoute)
        && poll == old(poll) && results == old(results) && showResults == old(showResults)
        && isVoting == old(isVoting)
      ensures old(poll).Some? && isAuthenticated && voteOutcome.Err? ==>
        && calls == [Api.CastVote(old(poll).value.id, optionId)] && navigateTo.None?
        && poll == old(poll) && results == old(results) && showResults == old(showResults)
        && !isVoting
      ensures old(poll).Some? && isAuthenticated && voteOutcome.Ok? ==>
        && calls == [Api.CastVote(old(poll).value.id, optionId), Api.GetResults(old(poll).value.id)]
        && navigateTo.None?
        && poll == Some(old(poll).value.(hasVoted := true, userVoteOptionId := Some(optionId)))
        && results == (if resultsOutcome.Ok? then Some(resultsOutcome.value) else old(results))
        && showResults && !isVoting
        && !VoteEnabled()
        && VotedFor(poll, optionId)
    {
      if poll.None? || !isAuthenticated {
        return [], Some(LoginRoute);
      }
      var current := poll.value;
      isVoting := true;
      var voteCall := Api.CastVote(current.id, optionId);
      if voteOutcome.Ok? {
        poll := Some(current.(hasVoted := true, userVoteOptionId := Some(optionId)));
        var resultsCall := FetchResults(current.id, resultsOutcome);
        showResults := true;
        calls := [voteCall, resultsCall];
      } else {
        calls := [voteCall];
      }
      navigateTo := None;
      isVoting := false;
    }

    /** A click on the vote button. A disabled button does nothing. An
      enabled one votes for the selected option, which is then non-empty:
      without a poll or a signed-in user it opens the login page; otherwise
      the ballot is cast, and success records the vote, reloads and shows the
      results and disables the button, while failure keeps the state. */
    method ClickVote(isAuthenticated: bool, voteOutcome: Result<()>, resultsOutcome: Result<ResultsPage.Results>)
      returns (calls: seq<Api.PollsCall>, navigateTo: Option<string>)
      modifies this
      ensures selectedOption == old(selectedOption) && isLoading == old(isLoading)
      ensures !old(VoteEnabled()) ==>
        && calls == [] && navigateTo.None?
        && poll == old(poll) && results == old(results) && showResults == old(showResults)
        && isVoting == old(isVoting)
      ensures old(VoteEnabled()) ==> old(selectedOption) != ""
      ensures old(VoteEnabled()) && (old(poll).None? || !isAuthenticated) ==>
        && calls == [] && navigateTo == Some(LoginRoute)
        && poll == old(poll) && results == old(results) && showResults == old(showResults)
        && isVoting == old(isVoting)
      ensures old(VoteEnabled()) && old(poll).Some? && isAuthenticated && voteOutcome.Err? ==>
        && calls == [Api.CastVote(old(poll).value.id, old(selectedOption))] && navigateTo.None?
        && poll == old(poll) && results == old(results) && showResults == old(showResults)
        && !isVoting
      ensures old(VoteEnabled()) && old(poll).Some? && isAuthenticated && voteOutcome.Ok? ==>
        && calls == [Api.CastVote(old(poll).value.id, old(selectedOption)), Api.GetResults(old(poll).value.id)]
        && navigateTo.None?
        && poll == Some(old(poll).value.(hasVoted := true, userVoteOptionId := Some(old(selectedOption))))
        && results == (if resultsOutcome.Ok? then Some(resultsOutcome.value) else old(results))
        && showResults && !isVoting
        && !VoteEnabled()
        && VotedFor(poll, old(selectedOption))
    {
      if !VoteEnabled() {
        return [], None;
      }
      calls, navigateTo := HandleVote(selectedOption, isAuthenticated, voteOutcome, resultsOutcome);
    }

    /** `handleShare`: without a poll nothing is copied; otherwise the link
      the dashboard offers for the same poll. */
    method HandleShare(origin: string) returns (copied: Option<string>)
      ensures copied.None? <==> poll.None?
      ensures poll.Some? ==>
        copied == Some(DashboardPage.ShareUrl(origin, poll.value.visibility, poll.value.shareLink, poll.value.id))
    {
      if poll.None? {
        return None;
      }
      var p := poll.value;
      copied := Some(DashboardPage.ShareUrl(origin, p.visibility, p.shareLink, p.id));
    }

    /** A radio choice. The radios exist only while a poll is shown for
      voting, and they are disabled once the poll records a vote. */
    method SelectOption(value: string)
      requires poll.Some? && !showResults
      modifies this
      ensures selectedOption == (if old(poll).value.hasVoted then old(selectedOption) else value)
      ensures poll == old(poll) && results == old(results) && isLoading == old(isLoading)
      ensures isVoting == old(isVoting) && showResults == old(showResults)
    {
      if !poll.value.hasVoted {
        selectedOption := value;
      }
    }
  }
}
