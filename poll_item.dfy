/**
  The real-time poll card (`PollItem` in `src/components/PollItem.tsx`): the
  click gate around voting, and the data the card displays.
*/
module PollItem {
  import opened Wrappers
  import opened PollTypes
  import opened Constants
  import opened WebSocketContext
  import opened PollRealtime
  import StableSort

  /** `index === 0 && option.votesCount > 0`: only the first displayed option can be marked top. */
  function IsTopOption(sorted: seq<OptionExample>, index: nat): (top: bool)
    requires index < |sorted|
    ensures top ==> index == 0 && sorted[0].votesCount > 0
    ensures top && StableSort.NonIncreasing(sorted, VotesCount) ==>
      forall j :: 0 <= j < |sorted| ==> sorted[j].votesCount <= sorted[index].votesCount
  {
    index == 0 && sorted[index].votesCount > 0
  }

  /**
    On the displayed (sorted) list, an option is marked top exactly when it is
    the first one and some option has a vote; the top option has at least
    as many votes as any option.
  */
  lemma TopOptionIsLeader(options: seq<OptionExample>, index: nat)
    requires index < |SortOptionsByVotes(options)|
    ensures IsTopOption(SortOptionsByVotes(options), index) <==> index == 0 && exists o :: o in options && o.votesCount > 0
    ensures IsTopOption(SortOptionsByVotes(options), index) ==>
      forall o :: o in options ==> o.votesCount <= SortOptionsByVotes(options)[index].votesCount
  {
    var sorted := SortOptionsByVotes(options);
    assert forall o :: o in options ==> o in multiset(sorted);
    forall o | o in options ensures o.votesCount <= sorted[0].votesCount {
      var k :| 0 <= k < |sorted| && sorted[k] == o;
    }
    if index == 0 && sorted[0].votesCount > 0 {
      assert sorted[0] in multiset(options);
    }
  }

  /** `updatedOptions.has(option.id)`: the option is highlighted exactly when its id was flagged. */
  function WasUpdated(updatedOptions: set<int>, option: OptionExample): (updated: bool)
    ensures updatedOptions == {} ==> !updated
    ensures updated <==> option.id in updatedOptions
  {
    option.id in updatedOptions
  }

  /** The state of one card. */
  class PollItemView {
    /** The card's `usePollRealtime` instance. */
    const hook: PollRealtimeHook
    var isVoting: bool
    var clickedOption: Option<int>
    /** Reset timers scheduled by `onVoteClick` and not yet fired. */
    var pendingResets: nat

    /** Idle, or voting for the clicked option with exactly one reset pending. */
    ghost predicate Valid()
      reads this
    {
      pendingResets <= 1 && (isVoting <==> pendingResets == 1) && (isVoting <==> clickedOption.Some?)
    }

    constructor (hook: PollRealtimeHook)
      ensures Valid() && this.hook == hook && !isVoting && clickedOption == None
    {
      this.hook := hook;
      isVoting := false;
      clickedOption := None;
      pendingResets := 0;
    }

    /** The displayed list: the hook's options sorted by votes. */
    function SortedOptions(): (sorted: seq<OptionExample>)
      reads hook
      ensures multiset(sorted) == multiset(hook.options)
      ensures forall i, j :: 0 <= i < j < |sorted| ==> sorted[i].votesCount >= sorted[j].votesCount
      ensures forall n :: StableSort.WithKey(sorted, VotesCount, n) == StableSort.WithKey(hook.options, VotesCount, n)
    {
      SortOptionsByVotes(hook.options)
    }

    /** The footer total, summed over the displayed list: the total of the hook's options. */
    function TotalVotes(): (total: int)
      reads hook
      ensures total == GetTotalVotes(hook.options)
    {
      SortPreservesTotal(hook.options);
      GetTotalVotes(SortedOptions())
    }

    /**
      `onVoteClick`: ignored while a vote is in progress or the connection is
      down; otherwise marks the card as voting for the option, calls
      `handleVote` once and schedules the reset.
    */
    method OnVoteClick(optionId: int, ws: WebSocketProvider) returns (accepted: bool)
      requires Valid() && ws.Valid()
      modifies this, hook`userOption, ws`sent
      ensures Valid() && ws.Valid()
      ensures accepted == (!old(isVoting) && ws.isConnected)
      ensures !accepted ==>
                && isVoting == old(isVoting) && clickedOption == old(clickedOption) && pendingResets == old(pendingResets)
                && hook.userOption == old(hook.userOption) && ws.sent == old(ws.sent)
      ensures accepted ==>
                && isVoting && clickedOption == Some(optionId) && pendingResets == 1
                && hook.userOption == (if hook.isAuthenticated then Some(optionId) else old(hook.userOption))
                && ws.sent == old(ws.sent) + (if hook.isAuthenticated && ws.hasSocket then [VoteIntent(hook.pollId, optionId)] else [])
    {
      if isVoting || !ws.isConnected {
        return false;
      }
      isVoting := true;
      clickedOption := Some(optionId);
      hook.HandleVote(optionId, ws);
      pendingResets := pendingResets + 1;
      accepted := true;
    }

    /** The 600 ms reset timer fires: back to idle. */
    method ResetTimerFired()
      requires Valid() && pendingResets > 0
      modifies this
      ensures Valid() && !isVoting && clickedOption == None && pendingResets == 0
    {
      isVoting := false;
      clickedOption := None;
      pendingResets := pendingResets - 1;
    }
  }
}
