/** The local poll list behind the poll detail page (`usePolls` in `src/hooks/usePolls.ts`). */
module PollsHook {
  import opened MockData

  /** The hook's initial state: the mock poll list. */
  function InitialPolls(): (polls: seq<MockPoll>)
    ensures |polls| == 15 && polls[0].id == "1" && polls[14].id == "15"
  {
    MockPolls
  }

  /** The votes `option` gains from one vote for `optionId` in a poll the vote targets. */
  function Gain(o: MockOption, targeted: bool, optionId: string): (n: int)
  {
    if targeted && o.id == optionId then 1 else 0
  }

  /** Number of options with id `optionId`. */
  function CountId(options: seq<MockOption>, optionId: string): (n: nat)
  {
    if options == [] then 0 else (if options[0].id == optionId then 1 else 0) + CountId(options[1..], optionId)
  }

  /**
    `voteOnOption(pollId, optionId)`: in every poll with id `pollId`, every
    option with id `optionId` gains exactly one vote. Everything else (other
    polls, other options, the number and order of polls and of options, all
    other fields) is unchanged.
  */
  function VoteOnOption(polls: seq<MockPoll>, pollId: string, optionId: string): (r: seq<MockPoll>)
    ensures |r| == |polls|
    ensures forall i :: 0 <= i < |r| ==>
      && r[i].id == polls[i].id && r[i].question == polls[i].question
      && r[i].createdBy == polls[i].createdBy && r[i].createdOn == polls[i].createdOn
      && |r[i].options| == |polls[i].options|
    ensures forall i, j :: 0 <= i < |r| && 0 <= j < |r[i].options| ==>
      && r[i].options[j].id == polls[i].options[j].id
      && r[i].options[j].text == polls[i].options[j].text
      && r[i].options[j].votes == polls[i].options[j].votes + Gain(polls[i].options[j], polls[i].id == pollId, optionId)
  {
    seq(|polls|, i requires 0 <= i < |polls| =>
      var poll := polls[i];
      if poll.id == pollId then
        poll.(options := seq(|poll.options|, j requires 0 <= j < |poll.options| =>
          var option := poll.options[j];
          if option.id == optionId then option.(votes := option.votes + 1) else option))
      else poll)
  }

  /** A vote whose poll id matches no poll leaves the list as it was. */
  lemma VoteOnUnknownPollIsNoOp(polls: seq<MockPoll>, pollId: string, optionId: string)
    requires forall i :: 0 <= i < |polls| ==> polls[i].id != pollId
    ensures VoteOnOption(polls, pollId, optionId) == polls
  {
    var r := VoteOnOption(polls, pollId, optionId);
    forall i | 0 <= i < |polls| ensures r[i] == polls[i] {
      assert r[i].options == polls[i].options;
    }
  }

  lemma {:induction false} TotalOfBumped(before: seq<MockOption>, after: seq<MockOption>, optionId: string)
    requires |after| == |before|
    requires forall j :: 0 <= j < |before| ==> after[j].votes == before[j].votes + Gain(before[j], true, optionId)
    ensures GetTotalVotes(after) == GetTotalVotes(before) + CountId(before, optionId)
  {
    if before != [] {
      TotalOfBumped(before[1..], after[1..], optionId);
    }
  }

  lemma {:induction false} TotalOfUnchanged(before: seq<MockOption>, after: seq<MockOption>)
    requires |after| == |before|
    requires forall j :: 0 <= j < |before| ==> after[j].votes == before[j].votes
    ensures GetTotalVotes(after) == GetTotalVotes(before)
  {
    if before != [] {
      TotalOfUnchanged(before[1..], after[1..]);
    }
  }

  /** A targeted poll's total grows by the number of options with that id (one when ids are distinct); others keep theirs. */
  lemma VoteGrowsTotalByMatches(polls: seq<MockPoll>, pollId: string, optionId: string, i: nat)
    requires i < |polls|
    ensures GetTotalVotes(VoteOnOption(polls, pollId, optionId)[i].options)
         == GetTotalVotes(polls[i].options) + (if polls[i].id == pollId then CountId(polls[i].options, optionId) else 0)
  {
    var r := VoteOnOption(polls, pollId, optionId);
    if polls[i].id == pollId {
      TotalOfBumped(polls[i].options, r[i].options, optionId);
    } else {
      TotalOfUnchanged(polls[i].options, r[i].options);
    }
  }
}
