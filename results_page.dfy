/** The results screen (src/pages/PollResultsView.tsx) and the tally it shares
    with the poll screen: the total of the votes, the maximum floored at one,
    which options are marked as leading, and the percentages, which are the
    server's and are shown unchanged. */
module ResultsPage {
  import opened Common
  import Api

  /** One option of the server's results projection. `percentage` is the
      server's figure; the client never computes with it. */
  datatype ResultOption = ResultOption(id: string, text: string, votes: nat, percentage: real)

  datatype Results = Results(question: string, options: seq<ResultOption>)

  /** `options.reduce((sum, o) => sum + o.votes, 0)`. */
  function TotalVotes(options: seq<ResultOption>): nat {
    if options == [] then 0 else options[0].votes + TotalVotes(options[1..])
  }

  /** `Math.max(...options.map(o => o.votes), 1)`: the largest vote count,
      but never less than one. */
  function MaxVotes(options: seq<ResultOption>): (m: nat)
    ensures m >= 1
    ensures forall i :: 0 <= i < |options| ==> options[i].votes <= m
    ensures m == 1 || exists i :: 0 <= i < |options| && options[i].votes == m
  {
    if options == [] then 1
    else
      var rest := MaxVotes(options[1..]);
      if options[0].votes > rest then options[0].votes else rest
  }

  /** An option is marked as leading when it has the maximum and at least one
      vote has been cast. */
  predicate IsWinning(option: ResultOption, options: seq<ResultOption>) {
    option.votes == MaxVotes(options) && TotalVotes(options) > 0
  }

  /** Some option has a vote exactly when the total is positive. */
  lemma {:induction false} TotalPositiveIffSomeVote(options: seq<ResultOption>)
    ensures TotalVotes(options) > 0 <==> exists i :: 0 <= i < |options| && options[i].votes > 0
  {
    if options != [] {
      TotalPositiveIffSomeVote(options[1..]);
      if TotalVotes(options[1..]) > 0 {
        var i :| 0 <= i < |options[1..]| && options[1..][i].votes > 0;
        assert options[i + 1].votes > 0;
      }
      if i :| 0 <= i < |options| && options[i].votes > 0 {
        if i > 0 {
          assert options[1..][i - 1].votes > 0;
        }
      }
    }
  }

  /** Leading means holding the true maximum of a poll with votes: an option
      leads exactly when the total is positive and no option has more votes.
      So an all-zero poll has no leader and every tied maximum leads. */
  lemma LeadersAreMaxima(options: seq<ResultOption>, k: nat)
    requires k < |options|
    ensures IsWinning(options[k], options) <==>
      TotalVotes(options) > 0 && forall j :: 0 <= j < |options| ==> options[j].votes <= options[k].votes
  {
    TotalPositiveIffSomeVote(options);
    if TotalVotes(options) > 0 && forall j :: 0 <= j < |options| ==> options[j].votes <= options[k].votes {
      var i :| 0 <= i < |options| && options[i].votes > 0;
      if MaxVotes(options) != 1 {
        var w :| 0 <= w < |options| && options[w].votes == MaxVotes(options);
        assert options[w].votes <= options[k].votes;
      } else {
        assert options[i].votes <= options[k].votes;
      }
    }
  }

  /** A poll with at least one vote has at least one leading option. */
  lemma LeaderExists(options: seq<ResultOption>)
    requires TotalVotes(options) > 0
    ensures exists k :: 0 <= k < |options| && IsWinning(options[k], options)
  {
    TotalPositiveIffSomeVote(options);
    var i :| 0 <= i < |options| && options[i].votes > 0;
    if MaxVotes(options) == 1 {
      assert IsWinning(options[i], options);
    } else {
      var w :| 0 <= w < |options| && options[w].votes == MaxVotes(options);
      assert IsWinning(options[w], options);
    }
  }

  /** Votes of 3, 7 and 0: ten in all, and only the option with 7 leads. */
  lemma ThreeSevenZero(a: string, b: string, c: string, pa: real, pb: real, pc: real)
    ensures var options := [ResultOption(a, a, 3, pa), ResultOption(b, b, 7, pb), ResultOption(c, c, 0, pc)];
      && TotalVotes(options) == 10
      && !IsWinning(options[0], options) && IsWinning(options[1], options) && !IsWinning(options[2], options)
  {
    var options := [ResultOption(a, a, 3, pa), ResultOption(b, b, 7, pb), ResultOption(c, c, 0, pc)];
    assert options[1..] == [options[1], options[2]];
    assert options[1..][1..] == [options[2]];
    assert options[1..][1..][1..] == [];
    assert TotalVotes(options[1..][1..]) == 0;
    assert TotalVotes(options[1..]) == 7;
  }

  /** One displayed row of results. */
  datatype Row = Row(text: string, percentage: real, leading: bool)

  /** The rows of the results screen: one per option, in order, carrying the
      server's percentage untouched and the leading mark. */
  function Rows(options: seq<ResultOption>): (rows: seq<Row>)
    ensures |rows| == |options|
    ensures forall i :: 0 <= i < |options| ==>
      && rows[i].text == options[i].text
      && rows[i].percentage == options[i].percentage
      && (rows[i].leading <==> IsWinning(options[i], options))
  {
    seq(|options|, i requires 0 <= i < |options| =>
      Row(options[i].text, options[i].percentage, IsWinning(options[i], options)))
  }

  const NotFoundRoute := "/notfound"

  /** The results screen's state. */
  class ResultsView {
    var results: Option<Results>
    var isLoading: bool

    constructor()
      ensures results.None? && isLoading
    {
      results := None;
      isLoading := true;
    }

    /** The fetch on mount: success stores the results, failure leads to the
      not-found page and keeps the results as they were; loading ends either
      way. Returns the call made and where the page navigates. */
    method FetchResults(id: string, outcome: Result<Results>)
      returns (call: Api.PollsCall, navigateTo: Option<string>)
      modifies this
      ensures call == Api.GetResults(id)
      ensures outcome.Ok? ==> results == Some(outcome.value) && navigateTo.None?
      ensures outcome.Err? ==> results == old(results) && navigateTo == Some(NotFoundRoute)
      ensures !isLoading
    {
      call := Api.GetResults(id);
      navigateTo := None;
      match outcome {
        case Ok(r) => results := Some(r);
        case Err(_) => navigateTo := Some(NotFoundRoute);
      }
      isLoading := false;
    }
  }
}
