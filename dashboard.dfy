/** The dashboard (src/pages/Dashboard.tsx): the list of the user's polls,
    its loading, the deletion of one poll, and the link offered for sharing a
    poll, which the poll screen builds the same way. */
module DashboardPage {
  import opened Common
  import Api

  /** The link for sharing a poll: the share-link route for a private poll
      that has a share link, the poll's own route otherwise. */
  function ShareUrl(origin: string, visibility: Api.Visibility, shareLink: Option<string>, id: string): string {
    if visibility == Api.Private && Truthy(shareLink) then origin + "/share/" + shareLink.value
    else origin + "/polls/" + id
  }

  /** The share-link route, naming the poll's own share link, is chosen
      exactly for a private poll with a share link; every other poll is
      shared by its id. The two routes never coincide, whatever the link and
      the id. */
  lemma ShareUrlChoice(origin: string, visibility: Api.Visibility, shareLink: Option<string>, id: string)
    ensures (exists link :: ShareUrl(origin, visibility, shareLink, id) == origin + "/share/" + link)
      <==> visibility == Api.Private && Truthy(shareLink)
    ensures visibility == Api.Private && Truthy(shareLink) ==>
      ShareUrl(origin, visibility, shareLink, id) == origin + "/share/" + shareLink.value
    ensures !(visibility == Api.Private && Truthy(shareLink)) ==>
      ShareUrl(origin, visibility, shareLink, id) == origin + "/polls/" + id
  {
    var url := ShareUrl(origin, visibility, shareLink, id);
    if visibility == Api.Private && Truthy(shareLink) {
      assert url == origin + "/share/" + shareLink.value;
    } else {
      forall link ensures url != origin + "/share/" + link {
        assert url[|origin| + 1] == 'p';
        assert (origin + "/share/" + link)[|origin| + 1] == 's';
      }
    }
  }

  /** The polls whose id differs from `pollId`, in their order. */
  function WithoutPoll(polls: seq<Api.Poll>, pollId: string): seq<Api.Poll> {
    Filter(polls, (p: Api.Poll) => p.id != pollId)
  }

  /** After a deletion no poll has the deleted id, every other poll is still
      there in its original order, and the list shrinks by exactly the number
      of polls that had that id. */
  lemma WithoutPollSpec(polls: seq<Api.Poll>, pollId: string)
    ensures forall p :: p in WithoutPoll(polls, pollId) <==> p in polls && p.id != pollId
    ensures |WithoutPoll(polls, pollId)| == |polls| - CountRejected(polls, (p: Api.Poll) => p.id != pollId)
    ensures forall k :: 0 <= k <= |polls| ==>
      WithoutPoll(polls, pollId) == WithoutPoll(polls[..k], pollId) + WithoutPoll(polls[k..], pollId)
    ensures WithoutPoll(WithoutPoll(polls, pollId), pollId) == WithoutPoll(polls, pollId)
  {
    var keep := (p: Api.Poll) => p.id != pollId;
    forall p ensures p in Filter(polls, keep) <==> p in polls && keep(p) {
      FilterMembership(polls, keep, p);
    }
    FilterLength(polls, keep);
    forall k | 0 <= k <= |polls|
      ensures Filter(polls, keep) == Filter(polls[..k], keep) + Filter(polls[k..], keep)
    {
      assert polls == polls[..k] + polls[k..];
      FilterAppend(polls[..k], polls[k..], keep);
    }
    FilterIdempotent(polls, keep);
  }

  /** Deleting a poll whose id is held by exactly one poll removes exactly
      that one entry. */
  lemma {:induction false} WithoutUniquePoll(polls: seq<Api.Poll>, k: nat)
    requires k < |polls|
    requires forall j :: 0 <= j < |polls| && j != k ==> polls[j].id != polls[k].id
    ensures WithoutPoll(polls, polls[k].id) == polls[..k] + polls[k + 1..]
  {
    var keep := (p: Api.Poll) => p.id != polls[k].id;
    assert polls == polls[..k] + ([polls[k]] + polls[k + 1..]);
    FilterAppend(polls[..k], [polls[k]] + polls[k + 1..], keep);
    FilterAppend([polls[k]], polls[k + 1..], keep);
    FilterKeepsAll(polls[..k], keep);
    FilterKeepsAll(polls[k + 1..], keep);
  }

  class Dashboard {
    var polls: seq<Api.Poll>
    var isLoading: bool
    var deletingPollId: Option<string>

    constructor()
      ensures polls == [] && isLoading && deletingPollId.None?
    {
      polls := [];
      isLoading := true;
      deletingPollId := None;
    }

    /** `fetchPolls`: success replaces the list, failure keeps it; loading ends
      either way. */
    method FetchPolls(outcome: Result<seq<Api.Poll>>)
      modifies this
      ensures polls == (if outcome.Ok? then outcome.value else old(polls))
      ensures !isLoading && deletingPollId == old(deletingPollId)
    {
      isLoading := true;
      if outcome.Ok? {
        polls := outcome.value;
      }
      isLoading := false;
    }

    /** `handleDeletePoll`: a declined confirmation changes nothing and calls
      nothing. Otherwise the poll is deleted on the server; success drops the
      polls with that id, failure keeps the list; afterwards no deletion is
      in progress. */
    method HandleDeletePoll(pollId: string, confirmed: bool, outcome: Result<()>)
      returns (call: Option<Api.PollsCall>)
      modifies this
      ensures !confirmed ==> call.None? && polls == old(polls) && deletingPollId == old(deletingPollId)
      ensures confirmed ==> call == Some(Api.DeletePoll(pollId)) && deletingPollId.None?
      ensures confirmed ==> polls == (if outcome.Ok? then WithoutPoll(old(polls), pollId) else old(polls))
      ensures isLoading == old(isLoading)
    {
      if !confirmed {
        return None;
      }
      deletingPollId := Some(pollId);
      call := Some(Api.DeletePoll(pollId));
      if outcome.Ok? {
        polls := WithoutPoll(polls, pollId);
      }
      deletingPollId := None;
    }
  }
}
