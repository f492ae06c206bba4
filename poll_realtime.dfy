/**
  The per-poll vote reconciler (`usePollRealtime` in
  `src/hooks/usePollRealTime.tsx`): it keeps a poll's option list in step with
  the snapshots broadcast for that poll, flags the options whose count
  changed, tracks the viewer's own choice and sends the viewer's votes.
*/
module PollRealtime {
  import opened Wrappers
  import opened PollTypes
  import opened WebSocketContext

  /** Position `j` holds the first snapshot option with id `id`. */
  predicate FirstWithId(snapshot: seq<OptionExample>, j: int, id: int)
  {
    0 <= j < |snapshot| && snapshot[j].id == id && forall l :: 0 <= l < j ==> snapshot[l].id != id
  }

  /** No snapshot option has id `id`. */
  predicate AbsentFrom(snapshot: seq<OptionExample>, id: int)
  {
    forall j :: 0 <= j < |snapshot| ==> snapshot[j].id != id
  }

  /** `data.options.find(p => p.id === id)`: the first snapshot option with that id, if any. */
  function FindOption(snapshot: seq<OptionExample>, id: int): (found: Option<OptionExample>)
    ensures found.None? <==> AbsentFrom(snapshot, id)
    ensures found.Some? ==> exists j :: FirstWithId(snapshot, j, id) && snapshot[j] == found.value
  {
    if snapshot == [] then None
    else if snapshot[0].id == id then
      assert FirstWithId(snapshot, 0, id);
      Some(snapshot[0])
    else
      var found := FindOption(snapshot[1..], id);
      assert found.None? ==> AbsentFrom(snapshot, id) by {
        if found.None? {
          forall j | 0 <= j < |snapshot| ensures snapshot[j].id != id {
            if j > 0 { assert snapshot[j] == snapshot[1..][j - 1]; }
          }
        }
      }
      assert found.Some? ==> exists j :: FirstWithId(snapshot, j, id) && snapshot[j] == found.value by {
        if found.Some? {
          var j :| FirstWithId(snapshot[1..], j, id) && snapshot[1..][j] == found.value;
          forall l | 0 <= l < j + 1 ensures snapshot[l].id != id {
            if l > 0 { assert snapshot[l] == snapshot[1..][l - 1]; }
          }
          assert FirstWithId(snapshot, j + 1, id);
        }
      }
      found
  }

  /** Two positions that both hold the first option with an id are the same position. */
  lemma FirstWithIdUnique(snapshot: seq<OptionExample>, j: int, k: int, id: int)
    requires FirstWithId(snapshot, j, id) && FirstWithId(snapshot, k, id)
    ensures j == k
  {
  }

  /** One prior option after a snapshot: its count is the snapshot's when the snapshot has its id. */
  function MergeOption(prior: OptionExample, snapshot: seq<OptionExample>): (merged: OptionExample)
    ensures merged.id == prior.id && merged.text == prior.text
    ensures FindOption(snapshot, prior.id).None? ==> merged == prior
    ensures FindOption(snapshot, prior.id).Some? ==> merged.votesCount == FindOption(snapshot, prior.id).value.votesCount
  {
    match FindOption(snapshot, prior.id)
    case Some(update) => prior.(votesCount := update.votesCount)
    case None => prior
  }

  /**
    The `setOptions` updater run on every inbound message. With no prior
    options the snapshot is adopted wholesale. Otherwise the result keeps the
    prior list's length, order, ids and texts; each count is that of the
    first snapshot option with the same id, and options the snapshot omits
    keep their count. Snapshot options with new ids are not added.
  */
  function MergeOptions(prior: seq<OptionExample>, snapshot: seq<OptionExample>): (merged: seq<OptionExample>)
    ensures prior == [] ==> merged == snapshot
    ensures prior != [] ==> |merged| == |prior|
    ensures prior != [] ==> forall i :: 0 <= i < |prior| ==> merged[i].id == prior[i].id && merged[i].text == prior[i].text
    ensures prior != [] ==> forall i :: 0 <= i < |prior| && AbsentFrom(snapshot, prior[i].id) ==> merged[i] == prior[i]
    ensures prior != [] ==> forall i, j :: 0 <= i < |prior| && FirstWithId(snapshot, j, prior[i].id) ==>
                                           merged[i].votesCount == snapshot[j].votesCount
  {
    if prior == [] then snapshot
    else
      var merged := seq(|prior|, i requires 0 <= i < |prior| => MergeOption(prior[i], snapshot));
      assert forall i, j :: 0 <= i < |prior| && FirstWithId(snapshot, j, prior[i].id) ==>
                            merged[i].votesCount == snapshot[j].votesCount by {
        forall i, j | 0 <= i < |prior| && FirstWithId(snapshot, j, prior[i].id)
          ensures merged[i].votesCount == snapshot[j].votesCount
        {
          var found := FindOption(snapshot, prior[i].id);
          var k :| FirstWithId(snapshot, k, prior[i].id) && snapshot[k] == found.value;
          FirstWithIdUnique(snapshot, j, k, prior[i].id);
        }
      }
      merged
  }

  /**
    The "changed ids" set: the ids at the positions where the new count
    differs from the prior count at the same position (a position past the
    end of the prior list counts as changed, as `prevOptions[index]?.votesCount`
    is then `undefined`).
  */
  function ChangedSpec(prior: seq<OptionExample>, merged: seq<OptionExample>): (changed: set<int>)
  {
    set i | 0 <= i < |merged| && (i >= |prior| || merged[i].votesCount != prior[i].votesCount) :: merged[i].id
  }

  /** The `forEach` loop that collects the changed ids. */
  method ChangedIds(prior: seq<OptionExample>, merged: seq<OptionExample>) returns (changed: set<int>)
    ensures changed == ChangedSpec(prior, merged)
  {
    changed := {};
    var index := 0;
    while index < |merged|
      invariant 0 <= index <= |merged|
      invariant changed == set i | 0 <= i < index && (i >= |prior| || merged[i].votesCount != prior[i].votesCount) :: merged[i].id
    {
      if index >= |prior| || merged[index].votesCount != prior[index].votesCount {
        changed := changed + {merged[index].id};
      }
      index := index + 1;
    }
  }

  /** A merge flags nothing exactly when it changes nothing. */
  lemma NothingChangedIffSameOptions(prior: seq<OptionExample>, snapshot: seq<OptionExample>)
    requires prior != []
    ensures ChangedSpec(prior, MergeOptions(prior, snapshot)) == {} <==> MergeOptions(prior, snapshot) == prior
  {
    var merged := MergeOptions(prior, snapshot);
    if ChangedSpec(prior, merged) == {} {
      assert forall i :: 0 <= i < |prior| && merged[i].votesCount != prior[i].votesCount ==>
                         merged[i].id in ChangedSpec(prior, merged);
      assert forall i :: 0 <= i < |prior| ==> merged[i] == prior[i];
    } else {
      var id :| id in ChangedSpec(prior, merged);
    }
  }

  /** Every flagged id belongs to an option of the prior list that the snapshot mentions. */
  lemma ChangedIdsComeFromSnapshot(prior: seq<OptionExample>, snapshot: seq<OptionExample>, id: int)
    requires prior != [] && id in ChangedSpec(prior, MergeOptions(prior, snapshot))
    ensures exists i :: 0 <= i < |prior| && prior[i].id == id
    ensures exists j :: 0 <= j < |snapshot| && snapshot[j].id == id
  {
    var merged := MergeOptions(prior, snapshot);
    var i :| 0 <= i < |merged| && (i >= |prior| || merged[i].votesCount != prior[i].votesCount) && merged[i].id == id;
    assert prior[i].id == id;
    assert !AbsentFrom(snapshot, id);
  }

  /**
    The example of a two-option poll: A has 3 votes, B has 5; a broadcast
    reports 3 and 6. B changes, A does not, and the display order is B, A.
  */
  lemma TwoOptionBroadcast()
    ensures var prior := [OptionExample(1, "A", 3), OptionExample(2, "B", 5)];
      var merged := MergeOptions(prior, [OptionExample(1, "A", 3), OptionExample(2, "B", 6)]);
      merged == [OptionExample(1, "A", 3), OptionExample(2, "B", 6)] && ChangedSpec(prior, merged) == {2}
  {
    var prior := [OptionExample(1, "A", 3), OptionExample(2, "B", 5)];
    var snapshot := [OptionExample(1, "A", 3), OptionExample(2, "B", 6)];
    var merged := MergeOptions(prior, snapshot);
    assert FindOption(snapshot, 1) == Some(snapshot[0]);
    assert FindOption(snapshot, 2) == Some(snapshot[1]);
    assert merged == snapshot;
    assert 2 in ChangedSpec(prior, merged) by { assert merged[1].votesCount != prior[1].votesCount; }
    forall id | id in ChangedSpec(prior, merged) ensures id == 2 {
      var i :| 0 <= i < |merged| && (i >= |prior| || merged[i].votesCount != prior[i].votesCount) && merged[i].id == id;
    }
  }

  /** `data.user?.email`: absent when the message has no user or the user no email. */
  function MessageEmail(data: WebSocketMessage): (email: Option<string>)
  {
    match data.user
    case None => None
    case Some(owner) => owner.email
  }

  /**
    The viewer's choice after a message: it becomes `data.optionId` only when
    the message's email equals the viewer's (both absent counts as equal, as
    `undefined === undefined`) and `optionId` is present.
  */
  function NextUserOption(current: Option<int>, data: WebSocketMessage, viewerEmail: Option<string>): (next: Option<int>)
    ensures MessageEmail(data) != viewerEmail ==> next == current
    ensures data.optionId.None? ==> next == current
    ensures MessageEmail(data) == viewerEmail && data.optionId.Some? ==> next == data.optionId
  {
    if MessageEmail(data) == viewerEmail && data.optionId.Some? then data.optionId else current
  }

  /** No subscription is made without a poll id or while signed out. */
  function ShouldSubscribe(pollId: string, isAuthenticated: bool): (subscribe: bool)
    ensures pollId == "" ==> !subscribe
    ensures !isAuthenticated ==> !subscribe
    ensures pollId != "" && isAuthenticated ==> subscribe
  {
    pollId != "" && isAuthenticated
  }

  /** The state of one `usePollRealtime` instance. */
  class PollRealtimeHook {
    const pollId: string
    /** The identity of the callback this instance subscribes with. */
    const callback: CallbackId
    var isAuthenticated: bool
    /** `auth.user?.profile?.email` */
    var viewerEmail: Option<string>
    var options: seq<OptionExample>
    /** `updatedOptions`: the ids to highlight. */
    var updatedOptions: set<int>
    var userOption: Option<int>
    /** Highlight-clearing timers scheduled and not yet fired; none is ever cancelled. */
    var pendingHighlightClears: nat
    /** The unsubscribe closure of the current subscription, if one was made. */
    var unsubscribe: Option<Unsubscriber>

    constructor (pollId: string, callback: CallbackId, initialOptions: seq<OptionExample>, initialUserOption: Option<int>,
                 isAuthenticated: bool, viewerEmail: Option<string>)
      ensures this.pollId == pollId && this.callback == callback
      ensures this.isAuthenticated == isAuthenticated && this.viewerEmail == viewerEmail
      ensures options == initialOptions && userOption == initialUserOption
      ensures updatedOptions == {} && pendingHighlightClears == 0 && unsubscribe == None
    {
      this.pollId := pollId;
      this.callback := callback;
      this.isAuthenticated := isAuthenticated;
      this.viewerEmail := viewerEmail;
      options := initialOptions;
      userOption := initialUserOption;
      updatedOptions := {};
      pendingHighlightClears := 0;
      unsubscribe := None;
    }

    /** The `initialOptions` effect: a non-empty list replaces the options, an empty one is ignored. */
    method InitialOptionsChanged(initialOptions: seq<OptionExample>)
      modifies this`options
      ensures options == if initialOptions != [] then initialOptions else old(options)
    {
      if |initialOptions| > 0 {
        options := initialOptions;
      }
    }

    /** The `initialUserOption` effect. */
    method InitialUserOptionChanged(initialUserOption: Option<int>)
      modifies this`userOption
      ensures userOption == initialUserOption
    {
      userOption := initialUserOption;
    }

    /** The subscription effect: subscribes this instance's callback unless the poll id is empty or the viewer signed out. */
    method SubscribeEffect(ws: WebSocketProvider) returns (subscribed: bool)
      requires ws.Valid()
      modifies this`unsubscribe, ws`subscribers
      ensures ws.Valid()
      ensures subscribed == ShouldSubscribe(pollId, isAuthenticated)
      ensures ws.subscribers == if subscribed then Subscribed(old(ws.subscribers), pollId, callback) else old(ws.subscribers)
      ensures unsubscribe == if subscribed then Some(Unsubscriber(pollId, callback)) else old(unsubscribe)
    {
      subscribed := ShouldSubscribe(pollId, isAuthenticated);
      if subscribed {
        var u := ws.Subscribe(pollId, callback);
        unsubscribe := Some(u);
      }
    }

    /** The subscription effect's cleanup: calls the unsubscribe closure, if any. */
    method CleanupEffect(ws: WebSocketProvider)
      requires ws.Valid()
      modifies this`unsubscribe, ws`subscribers
      ensures ws.Valid() && unsubscribe == None
      ensures ws.subscribers == match old(unsubscribe)
        case None => old(ws.subscribers)
        case Some(u) => Unsubscribed(old(ws.subscribers), u.pollId, u.callback)
    {
      if unsubscribe.Some? {
        ws.Unsubscribe(unsubscribe.value);
      }
      unsubscribe := None;
    }

    /**
      The subscription callback. The options become the merge of the prior
      options with the snapshot. With prior options, a non-empty set of
      changed ids replaces the highlighted set and schedules its clearing; an
      empty one leaves the highlighted set alone. The viewer's choice follows
      `NextUserOption`.
    */
    method OnMessage(data: WebSocketMessage)
      modifies this`options, this`updatedOptions, this`userOption, this`pendingHighlightClears
      ensures options == MergeOptions(old(options), data.options)
      ensures var flagged := if old(options) == [] then {} else ChangedSpec(old(options), options);
        && updatedOptions == (if flagged == {} then old(updatedOptions) else flagged)
        && pendingHighlightClears == old(pendingHighlightClears) + (if flagged == {} then 0 else 1)
      ensures userOption == NextUserOption(old(userOption), data, viewerEmail)
    {
      var prior := options;
      var merged := MergeOptions(prior, data.options);
      if |prior| > 0 {
        var changed := ChangedIds(prior, merged);
        if |changed| > 0 {
          updatedOptions := changed;
          pendingHighlightClears := pendingHighlightClears + 1;
        }
      }
      options := merged;
      var email := if data.user.Some? then data.user.value.email else None;
      if email == viewerEmail && data.optionId.Some? {
        userOption := data.optionId;
      }
    }

    /** A highlight-clearing timer fires: nothing stays highlighted. */
    method HighlightTimerFired()
      requires pendingHighlightClears > 0
      modifies this`updatedOptions, this`pendingHighlightClears
      ensures updatedOptions == {} && pendingHighlightClears == old(pendingHighlightClears) - 1
    {
      updatedOptions := {};
      pendingHighlightClears := pendingHighlightClears - 1;
    }

    /**
      `handleVote`: signed out or disconnected, nothing is sent and the
      viewer's choice stays; otherwise the vote goes to `sendVote` and the
      choice is set to the voted option at once.
    */
    method HandleVote(optionId: int, ws: WebSocketProvider)
      requires ws.Valid()
      modifies this`userOption, ws`sent
      ensures ws.Valid()
      ensures userOption == if isAuthenticated && ws.isConnected then Some(optionId) else old(userOption)
      ensures ws.sent == old(ws.sent) + (if isAuthenticated && ws.isConnected && ws.hasSocket then [VoteIntent(pollId, optionId)] else [])
    {
      if !isAuthenticated {
        return;
      }
      if !ws.isConnected {
        return;
      }
      var _ := ws.SendVote(pollId, optionId);
      userOption := Some(optionId);
    }
  }
}
