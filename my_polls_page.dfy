/**
  The "My Polls" page (`src/pages/MyPolls.tsx`): a confirmation dialog in
  front of deleting a poll, and the optimistic removal that is undone when
  the delete call fails.
*/
module MyPollsPage {
  import opened Wrappers
  import opened PollTypes
  import opened MyPollsHook

  /** The page asks the hook for pages of ten polls. */
  const PageSize: nat := 10

  /** `prev.filter((p) => p.pollId !== pollId)` */
  function RemovePoll(polls: seq<PollExample>, pollId: string): (r: seq<PollExample>)
    ensures forall p :: p in r <==> p in polls && p.pollId != pollId
    ensures |r| == |polls| - CountPoll(polls, pollId)
  {
    if polls == [] then []
    else (if polls[0].pollId == pollId then [] else [polls[0]]) + RemovePoll(polls[1..], pollId)
  }

  /** How many polls carry the id `pollId`. */
  function CountPoll(polls: seq<PollExample>, pollId: string): (n: nat)
    ensures n <= |polls|
  {
    if polls == [] then 0 else (if polls[0].pollId == pollId then 1 else 0) + CountPoll(polls[1..], pollId)
  }

  /**
    `RemovePoll` is the order-keeping filter: it works element by element,
    keeping a poll exactly when its id differs, and distributes over
    concatenation, so the polls that stay keep their order and multiplicity.
  */
  lemma {:induction false} RemovePollIsFilter(a: seq<PollExample>, b: seq<PollExample>, pollId: string)
    ensures RemovePoll([], pollId) == []
    ensures forall p :: RemovePoll([p], pollId) == if p.pollId == pollId then [] else [p]
    ensures RemovePoll(a + b, pollId) == RemovePoll(a, pollId) + RemovePoll(b, pollId)
  {
    forall p ensures RemovePoll([p], pollId) == if p.pollId == pollId then [] else [p] {
      RemovePollOne(p, pollId);
    }
    RemovePollAppend(a, b, pollId);
  }

  lemma RemovePollOne(p: PollExample, pollId: string)
    ensures RemovePoll([p], pollId) == if p.pollId == pollId then [] else [p]
  {
    assert [p][1..] == [];
  }

  lemma {:induction false} RemovePollAppend(a: seq<PollExample>, b: seq<PollExample>, pollId: string)
    ensures RemovePoll(a + b, pollId) == RemovePoll(a, pollId) + RemovePoll(b, pollId)
  {
    if a == [] {
      assert a + b == b;
    } else {
      var ab := a + b;
      assert ab[0] == a[0];
      assert ab[1..] == a[1..] + b;
      RemovePollAppend(a[1..], b, pollId);
    }
  }

  /**
    Removing and then re-appending a poll whose id occurs once gives back the
    same polls (in a different place: the reverted poll moves to the end).
  */
  lemma {:induction false} RevertRestoresPolls(polls: seq<PollExample>, poll: PollExample)
    requires poll in polls && CountPoll(polls, poll.pollId) == 1
    ensures multiset(RemovePoll(polls, poll.pollId) + [poll]) == multiset(polls)
  {
    assert polls == [polls[0]] + polls[1..];
    if polls[0] == poll {
      assert CountPoll(polls[1..], poll.pollId) == 0;
      NoneToRemove(polls[1..], poll.pollId);
    } else {
      assert polls[0].pollId != poll.pollId by {
        if polls[0].pollId == poll.pollId {
          assert poll in polls[1..];
          CountedWhenPresent(polls[1..], poll);
        }
      }
      RevertRestoresPolls(polls[1..], poll);
    }
  }

  lemma {:induction false} NoneToRemove(polls: seq<PollExample>, pollId: string)
    requires CountPoll(polls, pollId) == 0
    ensures RemovePoll(polls, pollId) == polls
  {
    if polls != [] {
      NoneToRemove(polls[1..], pollId);
      assert polls == [polls[0]] + polls[1..];
    }
  }

  lemma {:induction false} CountedWhenPresent(polls: seq<PollExample>, poll: PollExample)
    requires poll in polls
    ensures CountPoll(polls, poll.pollId) >= 1
  {
    if polls[0] != poll {
      assert poll in polls[1..];
      CountedWhenPresent(polls[1..], poll);
    }
  }

  /** The page's own state on top of the hook it reads and writes. */
  class MyPollsView {
    const store: MyPollsStore
    var deletingPollId: Option<string>
    var showDeleteModal: bool
    var pollToDelete: Option<PollExample>

    constructor (store: MyPollsStore)
      ensures this.store == store
      ensures deletingPollId == None && !showDeleteModal && pollToDelete == None
    {
      this.store := store;
      deletingPollId := None;
      showDeleteModal := false;
      pollToDelete := None;
    }

    /** `handleDeleteClick`: remembers the poll and opens the dialog. */
    method HandleDeleteClick(poll: PollExample)
      modifies this`pollToDelete, this`showDeleteModal
      ensures pollToDelete == Some(poll) && showDeleteModal
    {
      pollToDelete := Some(poll);
      showDeleteModal := true;
    }

    /** `handleDeleteCancel`: closes the dialog and forgets the poll. */
    method HandleDeleteCancel()
      modifies this`pollToDelete, this`showDeleteModal
      ensures pollToDelete == None && !showDeleteModal
    {
      showDeleteModal := false;
      pollToDelete := None;
    }

    /**
      `handleDeleteConfirm`, with the awaited `deletePoll` reduced to whether
      the API call succeeds. Without a selected poll nothing happens.
      Otherwise every poll with its id leaves the list; the delete request
      goes out only when there is a token; if the delete fails (no token or
      a failed call) the selected poll is appended again; the dialog then
      closes and the selection is cleared.
    */
    method HandleDeleteConfirm(idToken: Option<string>, apiSucceeds: bool) returns (request: Option<DeleteRequest>)
      modifies this`deletingPollId, this`showDeleteModal, this`pollToDelete, store`polls
      ensures old(pollToDelete).None? ==>
                && request == None && store.polls == old(store.polls)
                && deletingPollId == old(deletingPollId) && showDeleteModal == old(showDeleteModal) && pollToDelete == None
      ensures old(pollToDelete).Some? ==>
                var poll := old(pollToDelete).value;
                var attempt := DeletePollRequest(poll.pollId, idToken);
                var deleted := attempt.Success? && apiSucceeds;
                && request == (if attempt.Success? then Some(attempt.value) else None)
                && store.polls == RemovePoll(old(store.polls), poll.pollId) + (if deleted then [] else [poll])
                && deletingPollId == None && !showDeleteModal && pollToDelete == None
    {
      request := None;
      if pollToDelete.None? {
        return;
      }
      var poll := pollToDelete.value;
      deletingPollId := Some(poll.pollId);
      store.polls := RemovePoll(store.polls, poll.pollId);
      var attempt := DeletePollRequest(poll.pollId, idToken);
      if attempt.Success? {
        request := Some(attempt.value);
      }
      if !(attempt.Success? && apiSucceeds) {
        store.polls := store.polls + [poll];
      }
      deletingPollId := None;
      showDeleteModal := false;
      pollToDelete := None;
    }
  }
}
