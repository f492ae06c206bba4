/**
  The shared real-time transport and topic router (`WebSocketProvider` in
  `src/contexts/WebSocketContext.tsx`).

  One provider owns the socket and a registry from poll id to the callbacks
  subscribed to it. A callback is an opaque identity here (`CallbackId`);
  dispatching a decoded frame yields the callbacks to invoke, in order.
  JSON decoding is a parameter: a frame arrives as `Option<WebSocketMessage>`,
  `None` standing for text that `JSON.parse` rejects. Socket events (open,
  close) and the reconnect timer are methods the environment calls.
*/
module WebSocketContext {
  import opened Wrappers
  import opened PollTypes

  /** The identity of a subscriber's callback function. */
  type CallbackId = nat

  /** `Owner`: the user an inbound message is attributed to. */
  datatype Owner = Owner(name: Option<string>, email: Option<string>)

  /** An inbound frame, `{pollId, optionId, options, user}`; `optionId` and `user` may be absent. */
  datatype WebSocketMessage = WebSocketMessage(pollId: string, optionId: Option<int>, options: seq<OptionExample>, user: Option<Owner>)

  /** An outbound frame, `{pollId, optionId}`. */
  datatype VoteIntent = VoteIntent(pollId: string, optionId: int)

  /** What `subscribe` returns: the closure over `(pollId, callback)` that unsubscribes. */
  datatype Unsubscriber = Unsubscriber(pollId: string, callback: CallbackId)

  const MaxReconnectAttempts: nat := 5
  /** The reconnect delay after the n-th consecutive close is `ReconnectDelayUnit * n` ms. */
  const ReconnectDelayUnit: nat := 2000

  // ---------------------------------------------------------------------------
  // The subscriber registry: `Map<string, Set<callback>>`. A JavaScript Set
  // iterates in insertion order and holds no element twice, so each entry is a
  // duplicate-free sequence in insertion order.
  // ---------------------------------------------------------------------------

  type Registry = map<string, seq<CallbackId>>

  predicate NoDuplicates(s: seq<CallbackId>)
  {
    forall i, j :: 0 <= i < j < |s| ==> s[i] != s[j]
  }

  /** The registry never keeps an empty entry, and no entry holds a callback twice. */
  predicate WellFormed(m: Registry)
  {
    forall p | p in m :: m[p] != [] && NoDuplicates(m[p])
  }

  /** The callbacks registered under `pollId`, in subscription order. */
  function Listeners(m: Registry, pollId: string): (cbs: seq<CallbackId>)
  {
    if pollId in m then m[pollId] else []
  }

  function IndexOf(s: seq<CallbackId>, cb: CallbackId): (i: nat)
    requires cb in s
    ensures i < |s| && s[i] == cb && cb !in s[..i]
  {
    if s[0] == cb then 0 else 1 + IndexOf(s[1..], cb)
  }

  /** `Set.delete`: drops the callback from the entry, keeping the others in order. */
  function RemoveCallback(s: seq<CallbackId>, cb: CallbackId): (r: seq<CallbackId>)
    ensures cb !in s ==> r == s
    ensures cb in s ==> |r| == |s| - 1
  {
    if s == [] then []
    else if s[0] == cb then s[1..]
    else
      assert s == [s[0]] + s[1..];
      [s[0]] + RemoveCallback(s[1..], cb)
  }

  /** A present callback is cut out at its first position; the others keep their order. */
  lemma {:induction false} RemoveCallbackCut(s: seq<CallbackId>, cb: CallbackId)
    requires cb in s
    ensures RemoveCallback(s, cb) == s[..IndexOf(s, cb)] + s[IndexOf(s, cb) + 1..]
  {
    if s[0] != cb {
      var t := s[1..];
      RemoveCallbackCut(t, cb);
      var i := IndexOf(t, cb);
      assert s[..i + 1] == [s[0]] + t[..i];
      assert s[i + 2..] == t[i + 1..];
    }
  }

  /** On a duplicate-free entry, exactly `cb` leaves and the entry stays duplicate-free. */
  lemma {:induction false} RemoveCallbackMembers(s: seq<CallbackId>, cb: CallbackId)
    requires NoDuplicates(s)
    ensures NoDuplicates(RemoveCallback(s, cb)) && cb !in RemoveCallback(s, cb)
    ensures forall x :: x in RemoveCallback(s, cb) <==> x in s && x != cb
  {
    if s != [] {
      TailNoDuplicates(s);
      if s[0] != cb {
        RemoveCallbackMembers(s[1..], cb);
        var rest := RemoveCallback(s[1..], cb);
        assert forall x :: x in s <==> x == s[0] || x in s[1..];
        ConsNoDuplicates(s[0], rest);
      } else {
        assert forall x :: x in s <==> x == s[0] || x in s[1..];
      }
    }
  }

  lemma TailNoDuplicates(s: seq<CallbackId>)
    requires s != [] && NoDuplicates(s)
    ensures NoDuplicates(s[1..]) && s[0] !in s[1..]
  {
    var t := s[1..];
    forall i, j | 0 <= i < j < |t| ensures t[i] != t[j] {
      assert t[i] == s[i + 1] && t[j] == s[j + 1];
    }
    forall k | 0 <= k < |t| ensures t[k] != s[0] {
      assert t[k] == s[k + 1];
    }
  }

  lemma ConsNoDuplicates(x: CallbackId, t: seq<CallbackId>)
    requires NoDuplicates(t) && x !in t
    ensures NoDuplicates([x] + t)
  {
    var r := [x] + t;
    forall i, j | 0 <= i < j < |r| ensures r[i] != r[j] {
      assert r[j] == t[j - 1];
      if i > 0 { assert r[i] == t[i - 1]; }
    }
  }

  /** The elements of `s` other than `cb`, in their order in `s`. */
  function Without(s: seq<CallbackId>, cb: CallbackId): (r: seq<CallbackId>)
  {
    if s == [] then [] else (if s[0] == cb then [] else [s[0]]) + Without(s[1..], cb)
  }

  lemma {:induction false} WithoutAbsent(s: seq<CallbackId>, cb: CallbackId)
    requires cb !in s
    ensures Without(s, cb) == s
  {
    if s != [] {
      WithoutAbsent(s[1..], cb);
      assert s == [s[0]] + s[1..];
    }
  }

  /**
    On a duplicate-free entry, `Set.delete` is the order-keeping filter: the
    remaining callbacks are those other than `cb`, in subscription order.
  */
  lemma {:induction false} RemoveCallbackKeepsOrder(s: seq<CallbackId>, cb: CallbackId)
    requires NoDuplicates(s)
    ensures RemoveCallback(s, cb) == Without(s, cb)
  {
    if s != [] {
      TailNoDuplicates(s);
      if s[0] == cb {
        WithoutAbsent(s[1..], cb);
      } else {
        RemoveCallbackKeepsOrder(s[1..], cb);
      }
    }
  }

  /**
    `subscribe(pollId, callback)`: creates an empty entry for an unseen poll
    id, then adds the callback at the end of the entry unless it is already
    there. Every other entry is untouched.
  */
  function Subscribed(m: Registry, pollId: string, cb: CallbackId): (m': Registry)
    ensures m'.Keys == m.Keys + {pollId}
    ensures forall p | p in m && p != pollId :: m'[p] == m[p]
    ensures cb in Listeners(m, pollId) ==> m' == m
    ensures cb !in Listeners(m, pollId) ==> m'[pollId] == Listeners(m, pollId) + [cb]
    ensures WellFormed(m) ==> WellFormed(m')
  {
    var current := Listeners(m, pollId);
    if cb in current then m else m[pollId := current + [cb]]
  }

  /**
    The unsubscribe closure: removes exactly that callback from that poll's
    entry and deletes the entry once it is empty. Every other entry is
    untouched.
  */
  function Unsubscribed(m: Registry, pollId: string, cb: CallbackId): (m': Registry)
    ensures m'.Keys <= m.Keys
    ensures forall p | p in m && p != pollId :: p in m' && m'[p] == m[p]
    ensures cb !in Listeners(m, pollId) && WellFormed(m) ==> m' == m
    ensures WellFormed(m) ==> WellFormed(m') && cb !in Listeners(m', pollId)
    ensures WellFormed(m) ==> forall x :: x in Listeners(m', pollId) <==> x in Listeners(m, pollId) && x != cb
    ensures Listeners(m', pollId) == RemoveCallback(Listeners(m, pollId), cb)
  {
    if pollId !in m then m
    else
      var rest := RemoveCallback(m[pollId], cb);
      assert WellFormed(m) ==> NoDuplicates(rest) && cb !in rest && forall x :: x in rest <==> x in m[pollId] && x != cb by {
        if WellFormed(m) {
          RemoveCallbackMembers(m[pollId], cb);
        }
      }
      if rest == [] then m - {pollId} else m[pollId := rest]
  }

  /** After an unsubscribe the poll's remaining callbacks keep their subscription order. */
  lemma UnsubscribeKeepsOrder(m: Registry, pollId: string, cb: CallbackId)
    requires WellFormed(m)
    ensures Listeners(Unsubscribed(m, pollId, cb), pollId) == Without(Listeners(m, pollId), cb)
  {
    RemoveCallbackKeepsOrder(Listeners(m, pollId), cb);
  }

  /** `onmessage`: a frame that does not decode reaches nobody; a decoded one reaches its poll's callbacks. */
  function DispatchTargets(m: Registry, frame: Option<WebSocketMessage>): (targets: seq<CallbackId>)
    ensures frame.None? ==> targets == []
    ensures frame.Some? ==> targets == Listeners(m, frame.value.pollId)
    ensures forall cb :: cb in targets <==> frame.Some? && frame.value.pollId in m && cb in m[frame.value.pollId]
    ensures WellFormed(m) ==> NoDuplicates(targets)
  {
    match frame
    case None => []
    case Some(message) => Listeners(m, message.pollId)
  }

  /** A second call of the same unsubscribe closure changes nothing. */
  lemma UnsubscribeTwiceIsOnce(m: Registry, pollId: string, cb: CallbackId)
    requires WellFormed(m)
    ensures Unsubscribed(Unsubscribed(m, pollId, cb), pollId, cb) == Unsubscribed(m, pollId, cb)
  {
    var m1 := Unsubscribed(m, pollId, cb);
    assert WellFormed(m1) && cb !in Listeners(m1, pollId);
  }

  /** Deleting the callback just added at the end gives the entry back. */
  lemma {:induction false} RemoveLastAdded(before: seq<CallbackId>, cb: CallbackId)
    requires cb !in before
    ensures RemoveCallback(before + [cb], cb) == before
  {
    var s := before + [cb];
    if before == [] {
      assert s[1..] == [];
    } else {
      assert s[0] == before[0] && s[1..] == before[1..] + [cb];
      RemoveLastAdded(before[1..], cb);
      assert before == [before[0]] + before[1..];
    }
  }

  /** Subscribing a new callback and calling its unsubscribe gives the registry back. */
  lemma SubscribeThenUnsubscribe(m: Registry, pollId: string, cb: CallbackId)
    requires WellFormed(m) && cb !in Listeners(m, pollId)
    ensures Unsubscribed(Subscribed(m, pollId, cb), pollId, cb) == m
  {
    var m1 := Subscribed(m, pollId, cb);
    var before := Listeners(m, pollId);
    assert m1[pollId] == before + [cb];
    RemoveLastAdded(before, cb);
    var m2 := Unsubscribed(m1, pollId, cb);
    if pollId in m {
      assert m2 == m1[pollId := before];
    } else {
      assert before == [];
    }
    assert m2.Keys == m.Keys;
  }

  /** Once the last callback of a poll unsubscribes, a message for that poll reaches nobody. */
  lemma NoListenerAfterLastUnsubscribe(m: Registry, cb: CallbackId, message: WebSocketMessage)
    requires WellFormed(m) && Listeners(m, message.pollId) == [cb]
    ensures message.pollId !in Unsubscribed(m, message.pollId, cb)
    ensures DispatchTargets(Unsubscribed(m, message.pollId, cb), Some(message)) == []
  {
    assert IndexOf([cb], cb) == 0;
  }

  // ---------------------------------------------------------------------------
  // Reconnect backoff
  // ---------------------------------------------------------------------------

  /**
    `onclose`: below the maximum, the counter grows by one and a reconnect is
    scheduled `2000 * counter` ms later; at the maximum nothing is scheduled.
    Returns the new counter and the scheduled delay.
  */
  function CloseStep(attempts: nat): (r: (nat, Option<nat>))
    ensures attempts < MaxReconnectAttempts ==> r.0 == attempts + 1 && r.1 == Some(ReconnectDelayUnit * r.0)
    ensures attempts >= MaxReconnectAttempts ==> r == (attempts, None)
  {
    if attempts < MaxReconnectAttempts then (attempts + 1, Some(ReconnectDelayUnit * (attempts + 1)))
    else (attempts, None)
  }

  /** The delays scheduled by `closes` consecutive close events with no open between them. */
  function ScheduledDelays(attempts: nat, closes: nat): (delays: seq<nat>)
    decreases closes
  {
    if closes == 0 then []
    else
      var (next, delay) := CloseStep(attempts);
      (if delay.Some? then [delay.value] else []) + ScheduledDelays(next, closes - 1)
  }

  function Min(a: nat, b: nat): (m: nat)
  {
    if a <= b then a else b
  }

  /**
    From counter value `attempts`, consecutive closes schedule the delays
    `2000 * (attempts + 1)`, `2000 * (attempts + 2)`, ... up to `2000 * 5`:
    at most `5 - attempts` of them, each longer than the one before.
  */
  lemma {:induction false} BackoffSchedule(attempts: nat, closes: nat)
    requires attempts <= MaxReconnectAttempts
    ensures |ScheduledDelays(attempts, closes)| == Min(closes, MaxReconnectAttempts - attempts)
    ensures forall i :: 0 <= i < |ScheduledDelays(attempts, closes)| ==>
      ScheduledDelays(attempts, closes)[i] == ReconnectDelayUnit * (attempts + i + 1)
    decreases closes
  {
    if closes > 0 {
      var (next, delay) := CloseStep(attempts);
      BackoffSchedule(next, closes - 1);
      if attempts == MaxReconnectAttempts {
        assert ScheduledDelays(attempts, closes) == ScheduledDelays(next, closes - 1);
      }
    }
  }

  /** The scheduled delays strictly increase and never exceed 10000 ms. */
  lemma BackoffIncreasingAndBounded(attempts: nat, closes: nat)
    requires attempts <= MaxReconnectAttempts
    ensures forall i, j :: 0 <= i < j < |ScheduledDelays(attempts, closes)| ==>
      ScheduledDelays(attempts, closes)[i] < ScheduledDelays(attempts, closes)[j]
    ensures forall i :: 0 <= i < |ScheduledDelays(attempts, closes)| ==> ScheduledDelays(attempts, closes)[i] <= 10000
    ensures |ScheduledDelays(attempts, closes)| <= MaxReconnectAttempts
  {
    BackoffSchedule(attempts, closes);
  }

  /** From a fresh counter, any number of failures schedules 2000, 4000, ... and at most 10000. */
  lemma BackoffFromFreshCounter(closes: nat)
    requires closes >= MaxReconnectAttempts
    ensures ScheduledDelays(0, closes) == [2000, 4000, 6000, 8000, 10000]
  {
    BackoffSchedule(0, closes);
  }

  // ---------------------------------------------------------------------------
  // The provider
  // ---------------------------------------------------------------------------

  class WebSocketProvider {
    /** `subscribers.current` */
    var subscribers: Registry
    /** `reconnectAttempts.current` */
    var reconnectAttempts: nat
    var isConnected: bool
    /** Whether the `socket` state holds a socket (it is `null` otherwise). */
    var hasSocket: bool
    /** Reconnect timers scheduled and not yet fired. */
    var pendingReconnects: nat
    /** Every frame handed to `socket.send`, oldest first. */
    var sent: seq<VoteIntent>

    ghost predicate Valid()
      reads this
    {
      WellFormed(subscribers) && reconnectAttempts <= MaxReconnectAttempts
    }

    /** Mount: empty registry, counter 0, disconnected, no socket yet. */
    constructor ()
      ensures Valid()
      ensures subscribers == map[] && reconnectAttempts == 0 && pendingReconnects == 0
      ensures !isConnected && !hasSocket && sent == []
    {
      subscribers := map[];
      reconnectAttempts := 0;
      isConnected := false;
      hasSocket := false;
      pendingReconnects := 0;
      sent := [];
    }

    /**
      `connect()`: when `new WebSocket(url)` succeeds the socket state holds
      it; when the constructor throws, the error is swallowed and nothing changes.
    */
    method Connect(creationSucceeds: bool)
      requires Valid()
      modifies this`hasSocket
      ensures Valid()
      ensures hasSocket == (creationSucceeds || old(hasSocket))
    {
      if creationSucceeds {
        hasSocket := true;
      }
    }

    /** `onopen`: connected, and the attempt counter starts again from 0. */
    method OnOpen()
      requires Valid()
      modifies this`isConnected, this`reconnectAttempts
      ensures Valid()
      ensures isConnected && reconnectAttempts == 0
    {
      isConnected := true;
      reconnectAttempts := 0;
    }

    /**
      `onclose`: disconnected, no socket; while the counter is below the
      maximum it grows by one and a reconnect is scheduled, `delay` ms ahead.
    */
    method OnClose() returns (delay: Option<nat>)
      requires Valid()
      modifies this`isConnected, this`hasSocket, this`reconnectAttempts, this`pendingReconnects
      ensures Valid()
      ensures !isConnected && !hasSocket
      ensures (reconnectAttempts, delay) == CloseStep(old(reconnectAttempts))
      ensures pendingReconnects == old(pendingReconnects) + (if delay.Some? then 1 else 0)
    {
      isConnected := false;
      hasSocket := false;
      delay := None;
      if reconnectAttempts < MaxReconnectAttempts {
        reconnectAttempts := reconnectAttempts + 1;
        delay := Some(ReconnectDelayUnit * reconnectAttempts);
        pendingReconnects := pendingReconnects + 1;
      }
    }

    /** A scheduled reconnect timer fires and calls `connect()`. */
    method ReconnectTimerFired(creationSucceeds: bool)
      requires Valid() && pendingReconnects > 0
      modifies this`hasSocket, this`pendingReconnects
      ensures Valid()
      ensures pendingReconnects == old(pendingReconnects) - 1
      ensures hasSocket == (creationSucceeds || old(hasSocket))
    {
      pendingReconnects := pendingReconnects - 1;
      Connect(creationSucceeds);
    }

    /** `onmessage`: the callbacks to invoke with the frame, in order; the registry is not changed. */
    method OnMessage(frame: Option<WebSocketMessage>) returns (targets: seq<CallbackId>)
      requires Valid()
      ensures targets == DispatchTargets(subscribers, frame)
      ensures NoDuplicates(targets)
    {
      targets := [];
      if frame.Some? && frame.value.pollId in subscribers {
        targets := subscribers[frame.value.pollId];
      }
    }

    /** `sendVote`: sends `{pollId, optionId}` only with a socket present and connected; otherwise drops it. */
    method SendVote(pollId: string, optionId: int) returns (transmitted: bool)
      requires Valid()
      modifies this`sent
      ensures Valid()
      ensures transmitted == (hasSocket && isConnected)
      ensures sent == old(sent) + (if transmitted then [VoteIntent(pollId, optionId)] else [])
    {
      transmitted := hasSocket && isConnected;
      if transmitted {
        sent := sent + [VoteIntent(pollId, optionId)];
      }
    }

    /** `subscribe`: registers the callback and returns its unsubscribe closure. */
    method Subscribe(pollId: string, callback: CallbackId) returns (unsubscribe: Unsubscriber)
      requires Valid()
      modifies this`subscribers
      ensures Valid()
      ensures subscribers == Subscribed(old(subscribers), pollId, callback)
      ensures unsubscribe == Unsubscriber(pollId, callback)
    {
      var current := if pollId in subscribers then subscribers[pollId] else [];
      if callback !in current {
        subscribers := subscribers[pollId := current + [callback]];
      }
      unsubscribe := Unsubscriber(pollId, callback);
    }

    /** Calling an unsubscribe closure. */
    method Unsubscribe(unsubscribe: Unsubscriber)
      requires Valid()
      modifies this`subscribers
      ensures Valid()
      ensures subscribers == Unsubscribed(old(subscribers), unsubscribe.pollId, unsubscribe.callback)
    {
      var pollId := unsubscribe.pollId;
      if pollId in subscribers {
        var rest := RemoveCallback(subscribers[pollId], unsubscribe.callback);
        RemoveCallbackMembers(subscribers[pollId], unsubscribe.callback);
        if rest == [] {
          subscribers := subscribers - {pollId};
        } else {
          subscribers := subscribers[pollId := rest];
        }
      }
    }
  }
}
