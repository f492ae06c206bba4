/**
  The signed-in user's poll list (`useMyPolls` in `src/hooks/useMyPolls.ts`):
  paginated fetching with a re-entrancy guard, a local vote, and the token
  guards in front of the delete and create calls. The HTTP calls themselves
  are outside the model: a fetch returns the request it would send, and its
  response arrives later through `PageArrived`.
*/
module MyPollsHook {
  import opened Wrappers
  import opened PollTypes
  import Constants

  const FetchFailedMessage: string := "Failed to load polls"
  const NotAuthenticatedMessage: string := "Not authenticated"
  const CreateFailedMessage: string := "Failed to create poll. Please try again."
  /** The hook's default page size. */
  const DefaultLimit: nat := 12

  /** The request `getMyPolls` would be called with. */
  datatype PageRequest = PageRequest(idToken: string, limit: nat, lastKey: Option<string>)

  /** What the awaited `getMyPolls` call produced: a page `{items, lastKey}`, or a thrown error. */
  datatype PageResponse = PageLoaded(items: seq<PollExample>, lastKey: Option<string>) | PageFailed

  /** The request `deletePollApi` would be called with. */
  datatype DeleteRequest = DeleteRequest(pollId: string, idToken: string)

  /** A token is usable when it is present and non-empty (`!token` rejects both). */
  function HasToken(idToken: Option<string>): (has: bool)
    ensures idToken == None || idToken == Some("") ==> !has
    ensures has <==> idToken.Some? && |idToken.value| > 0
  {
    idToken.Some? && idToken.value != ""
  }

  /** `!!response.lastKey && response.items.length > 0` */
  function HasMoreAfter(items: seq<PollExample>, lastKey: Option<string>): (more: bool)
    ensures items == [] ==> !more
    ensures !more <==> lastKey == None || lastKey == Some("") || items == []
  {
    lastKey.Some? && lastKey.value != "" && |items| > 0
  }

  /** The list after a page: a reset fetch replaces it, any other appends the page. */
  function NextPolls(current: seq<PollExample>, reset: bool, items: seq<PollExample>): (next: seq<PollExample>)
    ensures reset ==> next == items
    ensures !reset ==> |next| == |current| + |items| && next[..|current|] == current && next[|current|..] == items
  {
    if reset then items else current + items
  }

  /**
    `deletePoll`'s guard: with no token it rejects with "Not authenticated"
    and makes no call; otherwise it calls the API with the poll id and token.
  */
  function DeletePollRequest(pollId: string, idToken: Option<string>): (r: Result<DeleteRequest>)
    ensures r.Failure? <==> !HasToken(idToken)
    ensures r.Failure? ==> r.error == NotAuthenticatedMessage
    ensures r.Success? ==> r.value.pollId == pollId && Some(r.value.idToken) == idToken
  {
    if !HasToken(idToken) then Failure(NotAuthenticatedMessage) else Success(DeleteRequest(pollId, idToken.value))
  }

  /** `createPoll`: the API's message on success; any failure is rethrown with one fixed message. */
  function CreatePollOutcome(api: Result<string>): (r: Result<string>)
    ensures api.Success? ==> r == api
    ensures api.Failure? ==> r == Failure(CreateFailedMessage)
  {
    match api
    case Success(message) => Success(message)
    case Failure(_) => Failure(CreateFailedMessage)
  }

  /** The votes an option gains from one vote for `optionId` in a poll the vote targets. */
  function Gain(o: OptionExample, targeted: bool, optionId: int): (n: int)
  {
    if targeted && o.id == optionId then 1 else 0
  }

  /**
    `voteOnOption(pollId, optionId)`: in every poll with id `pollId`, every
    option with id `optionId` gains one vote; nothing else changes.
  */
  function VoteOnOption(polls: seq<PollExample>, pollId: string, optionId: int): (r: seq<PollExample>)
    ensures |r| == |polls|
    ensures forall i :: 0 <= i < |r| ==>
      && r[i].pollId == polls[i].pollId && r[i].question == polls[i].question && r[i].createdAt == polls[i].createdAt
      && |r[i].options| == |polls[i].options|
    ensures forall i, j :: 0 <= i < |r| && 0 <= j < |r[i].options| ==>
      && r[i].options[j].id == polls[i].options[j].id
      && r[i].options[j].text == polls[i].options[j].text
      && r[i].options[j].votesCount == polls[i].options[j].votesCount + Gain(polls[i].options[j], polls[i].pollId == pollId, optionId)
  {
    seq(|polls|, i requires 0 <= i < |polls| =>
      var poll := polls[i];
      if poll.pollId == pollId then
        poll.(options := seq(|poll.options|, j requires 0 <= j < |poll.options| =>
          var option := poll.options[j];
          if option.id == optionId then option.(votesCount := option.votesCount + 1) else option))
      else poll)
  }

  /** A vote for a poll id that is not in the list leaves the list as it was. */
  lemma VoteOnUnknownPollIsNoOp(polls: seq<PollExample>, pollId: string, optionId: int)
    requires forall i :: 0 <= i < |polls| ==> polls[i].pollId != pollId
    ensures VoteOnOption(polls, pollId, optionId) == polls
  {
    var r := VoteOnOption(polls, pollId, optionId);
    forall i | 0 <= i < |polls| ensures r[i] == polls[i] {
      assert r[i].options == polls[i].options;
    }
  }

  /** How many options carry the id `optionId`. */
  function CountId(options: seq<OptionExample>, optionId: int): (n: nat)
    ensures n <= |options|
  {
    if options == [] then 0 else (if options[0].id == optionId then 1 else 0) + CountId(options[1..], optionId)
  }

  lemma {:induction false} TotalOfBumped(before: seq<OptionExample>, after: seq<OptionExample>, optionId: int)
    requires |after| == |before|
    requires forall j :: 0 <= j < |before| ==> after[j].votesCount == before[j].votesCount + Gain(before[j], true, optionId)
    ensures Constants.GetTotalVotes(after) == Constants.GetTotalVotes(before) + CountId(before, optionId)
  {
    if before != [] {
      TotalOfBumped(before[1..], after[1..], optionId);
    }
  }

  lemma {:induction false} TotalOfUnchanged(before: seq<OptionExample>, after: seq<OptionExample>)
    requires |after| == |before|
    requires forall j :: 0 <= j < |before| ==> after[j].votesCount == before[j].votesCount
    ensures Constants.GetTotalVotes(after) == Constants.GetTotalVotes(before)
  {
    if before != [] {
      TotalOfUnchanged(before[1..], after[1..]);
    }
  }

  /** A targeted poll's total grows by the number of options with that id (one when ids are distinct); others keep theirs. */
  lemma VoteGrowsTotalByMatches(polls: seq<PollExample>, pollId: string, optionId: int, i: nat)
    requires i < |polls|
    ensures Constants.GetTotalVotes(VoteOnOption(polls, pollId, optionId)[i].options)
         == Constants.GetTotalVotes(polls[i].options) + (if polls[i].pollId == pollId then CountId(polls[i].options, optionId) else 0)
  {
    var r := VoteOnOption(polls, pollId, optionId);
    if polls[i].pollId == pollId {
      TotalOfBumped(polls[i].options, r[i].options, optionId);
    } else {
      TotalOfUnchanged(polls[i].options, r[i].options);
    }
  }

  /** The state of one `useMyPolls` instance. */
  class MyPollsStore {
    const limit: nat
    var polls: seq<PollExample>
    var loading: bool
    var error: Option<string>
    var lastKey: Option<string>
    var hasMore: bool
    /** `loadingRef.current` */
    var loadingRef: bool
    /** The `reset` flag of the request whose page is awaited, if one is. */
    var inFlight: Option<bool>

    /** A request is in flight exactly while the guard is up, and `loading` mirrors the guard. */
    ghost predicate Valid()
      reads this
    {
      (loadingRef <==> inFlight.Some?) && loading == loadingRef
    }

    constructor (limit: nat)
      ensures Valid() && this.limit == limit
      ensures polls == [] && !loading && error == None && lastKey == None && hasMore && !loadingRef
    {
      this.limit := limit;
      polls := [];
      loading := false;
      error := None;
      lastKey := None;
      hasMore := true;
      loadingRef := false;
      inFlight := None;
    }

    /**
      `fetchPolls(reset)`: while a fetch is in flight it returns at once,
      touching nothing. Otherwise it clears the error; without a token it
      sends nothing and the guard is released; with one it sends a request,
      with no `lastKey` on a reset and the current one otherwise.
    */
    method FetchPolls(reset: bool, idToken: Option<string>) returns (request: Option<PageRequest>)
      requires Valid()
      modifies this`loading, this`error, this`loadingRef, this`inFlight
      ensures Valid()
      ensures old(loadingRef) ==> request == None && error == old(error) && inFlight == old(inFlight)
      ensures !old(loadingRef) ==>
                && error == None
                && request == (if HasToken(idToken) then Some(PageRequest(idToken.value, limit, if reset then None else lastKey)) else None)
                && inFlight == (if request.Some? then Some(reset) else None)
    {
      request := None;
      if loadingRef {
        return;
      }
      loadingRef := true;
      loading := true;
      error := None;
      var requestKey := if reset then None else lastKey;
      if !HasToken(idToken) {
        loading := false;
        loadingRef := false;
        return;
      }
      request := Some(PageRequest(idToken.value, limit, requestKey));
      inFlight := Some(reset);
    }

    /**
      The awaited page arrives. A page replaces or extends the list, takes
      its `lastKey` and decides `hasMore`; a failure records the error and
      leaves the list alone. Either way the guard is released.
    */
    method PageArrived(response: PageResponse)
      requires Valid() && inFlight.Some?
      modifies this`polls, this`lastKey, this`hasMore, this`error, this`loading, this`loadingRef, this`inFlight
      ensures Valid() && !loadingRef
      ensures response.PageLoaded? ==>
                && polls == NextPolls(old(polls), old(inFlight).value, response.items)
                && lastKey == response.lastKey && hasMore == HasMoreAfter(response.items, response.lastKey)
                && error == old(error)
      ensures response.PageFailed? ==>
                && polls == old(polls) && lastKey == old(lastKey) && hasMore == old(hasMore)
                && error == Some(FetchFailedMessage)
    {
      var reset := inFlight.value;
      match response {
        case PageLoaded(items, responseKey) =>
          polls := if reset then items else polls + items;
          lastKey := responseKey;
          hasMore := responseKey.Some? && responseKey.value != "" && |items| > 0;
        case PageFailed =>
          error := Some(FetchFailedMessage);
      }
      loading := false;
      loadingRef := false;
      inFlight := None;
    }

    /** `loadMore`: nothing when no more pages exist or a load is running; otherwise a non-reset fetch. */
    method LoadMore(idToken: Option<string>) returns (request: Option<PageRequest>)
      requires Valid()
      modifies this`loading, this`error, this`loadingRef, this`inFlight
      ensures Valid()
      ensures !old(hasMore) || old(loading) ==> request == None && error == old(error) && inFlight == old(inFlight)
      ensures old(hasMore) && !old(loading) ==>
                && error == None
                && request == (if HasToken(idToken) then Some(PageRequest(idToken.value, limit, lastKey)) else None)
                && inFlight == (if request.Some? then Some(false) else None)
    {
      request := None;
      if !hasMore || loading {
        return;
      }
      request := FetchPolls(false, idToken);
    }

    /** `refreshPolls`: forgets the page key, then runs a reset fetch (which may itself be skipped). */
    method RefreshPolls(idToken: Option<string>) returns (request: Option<PageRequest>)
      requires Valid()
      modifies this`lastKey, this`loading, this`error, this`loadingRef, this`inFlight
      ensures Valid() && lastKey == None
      ensures old(loadingRef) ==> request == None && error == old(error) && inFlight == old(inFlight)
      ensures !old(loadingRef) ==>
                && error == None
                && request == (if HasToken(idToken) then Some(PageRequest(idToken.value, limit, None)) else None)
                && inFlight == (if request.Some? then Some(true) else None)
    {
      lastKey := None;
      request := FetchPolls(true, idToken);
    }

    /** The local `voteOnOption` update. */
    method Vote(pollId: string, optionId: int)
      modifies this`polls
      ensures polls == VoteOnOption(old(polls), pollId, optionId)
    {
      polls := VoteOnOption(polls, pollId, optionId);
    }
  }
}
