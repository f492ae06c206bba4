/**
  The local poll detail page (`PollDetail` in `src/pages/PollDetail.tsx`):
  the poll lookup by route id, the click gate that delays the vote by a
  timer, and the top-option rule of the results.
*/
module PollDetail {
  import opened Wrappers
  import opened MockData
  import opened PollsHook
  import StableSort

  /** Position `i` holds the first poll with id `id`. */
  predicate FirstPollWithId(polls: seq<MockPoll>, i: int, id: string)
  {
    0 <= i < |polls| && polls[i].id == id && forall l :: 0 <= l < i ==> polls[l].id != id
  }

  /** `polls.find(p => p.id === id)`: the first poll with the route id; `None` shows the not-found view. */
  function FindPoll(polls: seq<MockPoll>, id: string): (found: Option<MockPoll>)
    ensures found.None? <==> forall i :: 0 <= i < |polls| ==> polls[i].id != id
    ensures found.Some? ==> exists i :: FirstPollWithId(polls, i, id) && polls[i] == found.value
  {
    if polls == [] then None
    else if polls[0].id == id then
      assert FirstPollWithId(polls, 0, id);
      Some(polls[0])
    else
      var found := FindPoll(polls[1..], id);
      assert forall i :: 1 <= i < |polls| ==> polls[i] == polls[1..][i - 1];
      assert found.Some? ==> exists i :: FirstPollWithId(polls, i, id) && polls[i] == found.value by {
        if found.Some? {
          var i :| FirstPollWithId(polls[1..], i, id) && polls[1..][i] == found.value;
          assert FirstPollWithId(polls, i + 1, id);
        }
      }
      found
  }

  /** `index === 0 && option.votes > 0` */
  function IsTopOption(sorted: seq<MockOption>, index: nat): (top: bool)
    requires index < |sorted|
    ensures top ==> index == 0 && sorted[0].votes > 0
    ensures top && StableSort.NonIncreasing(sorted, Votes) ==>
      forall j :: 0 <= j < |sorted| ==> sorted[j].votes <= sorted[index].votes
  {
    index == 0 && sorted[index].votes > 0
  }

  /** An option is marked top exactly when it is first and some option has a vote; it then leads. */
  lemma TopOptionIsLeader(options: seq<MockOption>, index: nat)
    requires index < |SortOptionsByVotes(options)|
    ensures IsTopOption(SortOptionsByVotes(options), index) <==> index == 0 && exists o :: o in options && o.votes > 0
    ensures IsTopOption(SortOptionsByVotes(options), index) ==>
      forall o :: o in options ==> o.votes <= SortOptionsByVotes(options)[index].votes
  {
    var sorted := SortOptionsByVotes(options);
    assert forall o :: o in options ==> o in multiset(sorted);
    forall o | o in options ensures o.votes <= sorted[0].votes {
      var k :| 0 <= k < |sorted| && sorted[k] == o;
    }
    if index == 0 && sorted[0].votes > 0 {
      assert sorted[0] in multiset(options);
    }
  }

  /** The page's total: `getTotalVotes` of the sorted options, which is the total of the poll's options. */
  lemma PageTotalIsPollTotal(poll: MockPoll)
    ensures GetTotalVotes(SortOptionsByVotes(poll.options)) == GetTotalVotes(poll.options)
  {
    SortPreservesTotal(poll.options);
  }

  /** The page state, with the `usePolls` list it reads and updates. */
  class PollDetailPage {
    /** The `:id` route parameter. */
    const routeId: string
    var polls: seq<MockPoll>
    var isVoting: bool
    var clickedOption: Option<string>
    /** The vote the pending 400 ms timer will apply: the poll id and option id it captured. */
    var pendingVote: Option<(string, string)>

    ghost predicate Valid()
      reads this
    {
      (isVoting <==> pendingVote.Some?) && (clickedOption == if pendingVote.Some? then Some(pendingVote.value.1) else None)
    }

    constructor (routeId: string)
      ensures Valid() && this.routeId == routeId && polls == InitialPolls() && !isVoting
    {
      this.routeId := routeId;
      polls := MockPolls;
      isVoting := false;
      clickedOption := None;
      pendingVote := None;
    }

    /** `handleVote`: ignored with no poll or while voting; otherwise marks the option and schedules the vote. */
    method HandleVote(optionId: string) returns (accepted: bool)
      requires Valid()
      modifies this`isVoting, this`clickedOption, this`pendingVote
      ensures Valid()
      ensures accepted == (FindPoll(polls, routeId).Some? && !old(isVoting))
      ensures !accepted ==> isVoting == old(isVoting) && clickedOption == old(clickedOption) && pendingVote == old(pendingVote)
      ensures accepted ==> isVoting && clickedOption == Some(optionId) && pendingVote == Some((FindPoll(polls, routeId).value.id, optionId))
    {
      var poll := FindPoll(polls, routeId);
      if poll.None? || isVoting {
        return false;
      }
      isVoting := true;
      clickedOption := Some(optionId);
      pendingVote := Some((poll.value.id, optionId));
      accepted := true;
    }

    /** The timer fires: the captured vote is applied once and the page is idle again. */
    method VoteTimerFired()
      requires Valid() && pendingVote.Some?
      modifies this`polls, this`isVoting, this`clickedOption, this`pendingVote
      ensures Valid() && !isVoting && clickedOption == None
      ensures polls == VoteOnOption(old(polls), old(pendingVote).value.0, old(pendingVote).value.1)
    {
      var (pollId, optionId) := pendingVote.value;
      polls := VoteOnOption(polls, pollId, optionId);
      isVoting := false;
      clickedOption := None;
      pendingVote := None;
    }
  }
}
