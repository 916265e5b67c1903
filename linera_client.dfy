/** The front end's chain client: wallet connection, a per-match registry of
    event callbacks with fan-out, and a per-match cache of score tables. */
module LineraClient {
  import opened Common

  /** A callback function, by identity (a JavaScript `Set` compares
      functions by reference). */
  type CallbackId = nat

  datatype MatchEvent =
    | ScoreUpdated(scores: Record)
    | QuestionSettled(questionIndex: int)
    | AnswerSubmitted(player: string, questionIndex: int)
    | MatchFinalized

  datatype SubmitAnswerParams = SubmitAnswerParams(matchId: string, questionIndex: int, answer: string)

  /** One call of a callback during a fan-out, and whether it threw. */
  datatype Delivery = Delivery(callback: CallbackId, event: MatchEvent, threw: bool)

  /** The closure returned by `subscribeToMatch`: what it captured. */
  datatype Unsubscriber = Unsubscriber(matchId: string, callback: CallbackId)

  /** `s || fallback` for a `string | null`: null and "" are falsy. */
  function OrElse(s: Option<string>, fallback: string): (r: string)
    ensures s.Some? && s.value != "" ==> r == s.value
    ensures s.None? || s.value == "" ==> r == fallback
  {
    if s.Some? && s.value != "" then s.value else fallback
  }

  // ---------------------------------------------------------------------------
  // The subscription registry: each match id maps to its callbacks in
  // insertion order (the iteration order of a JavaScript `Set`).
  // ---------------------------------------------------------------------------

  type Registry = map<string, seq<CallbackId>>

  predicate NoDuplicates(s: seq<CallbackId>) {
    forall i, j :: 0 <= i < j < |s| ==> s[i] != s[j]
  }

  /** Every entry is a non-empty set: empty sets are deleted. */
  predicate WellFormed(reg: Registry) {
    forall m :: m in reg ==> reg[m] != [] && NoDuplicates(reg[m])
  }

  function Subscribers(reg: Registry, matchId: string): seq<CallbackId> {
    if matchId in reg then reg[matchId] else []
  }

  /** `set.delete(cb)`. */
  function Without(s: seq<CallbackId>, cb: CallbackId): (r: seq<CallbackId>)
    ensures forall c :: c in r <==> c in s && c != cb
    ensures NoDuplicates(s) ==> NoDuplicates(r)
    ensures cb !in s ==> r == s
    ensures NoDuplicates(s) && cb in s ==> |r| == |s| - 1
  {
    if s == [] then []
    else if s[0] == cb then
      assert NoDuplicates(s) ==> cb !in s[1..];
      Without(s[1..], cb)
    else
      var r := [s[0]] + Without(s[1..], cb);
      assert NoDuplicates(s) ==> s[0] !in s[1..];
      assert cb in s ==> cb in s[1..];
      r
  }

  /** What `subscribeToMatch` does to the registry: create the set if absent,
      then add the callback. */
  function Subscribe(reg: Registry, matchId: string, cb: CallbackId): (r: Registry)
    ensures WellFormed(reg) ==> WellFormed(r)
    ensures r.Keys == reg.Keys + {matchId}
    ensures forall c :: c in Subscribers(r, matchId) <==> c in Subscribers(reg, matchId) || c == cb
    ensures forall m :: m != matchId ==> Subscribers(r, m) == Subscribers(reg, m)
  {
    var cbs := Subscribers(reg, matchId);
    reg[matchId := if cb in cbs then cbs else cbs + [cb]]
  }

  /** What the unsubscribe closure does to the registry: delete the callback,
      and the match's entry once its set is empty; nothing when the entry is
      gone. */
  function Unsubscribe(reg: Registry, matchId: string, cb: CallbackId): (r: Registry)
    ensures WellFormed(reg) ==> WellFormed(r)
    ensures r.Keys <= reg.Keys
    ensures forall c :: c in Subscribers(r, matchId) <==> c in Subscribers(reg, matchId) && c != cb
    ensures forall m :: m != matchId ==> (m in r <==> m in reg) && Subscribers(r, m) == Subscribers(reg, m)
    ensures WellFormed(reg) && Subscribers(reg, matchId) == [cb] ==> matchId !in r
  {
    if matchId !in reg then reg
    else
      var rest := Without(reg[matchId], cb);
      if rest == [] then reg - {matchId} else reg[matchId := rest]
  }

  /** Calling the unsubscribe closure a second time changes nothing. */
  lemma UnsubscribeIdempotent(reg: Registry, matchId: string, cb: CallbackId)
    requires WellFormed(reg)
    ensures Unsubscribe(Unsubscribe(reg, matchId, cb), matchId, cb) == Unsubscribe(reg, matchId, cb)
  {
    var once := Unsubscribe(reg, matchId, cb);
    if matchId in once {
      assert cb !in once[matchId];
      assert Without(once[matchId], cb) == once[matchId];
    }
  }

  /** Subscribing a new callback and unsubscribing it restores the registry. */
  lemma UnsubscribeUndoesSubscribe(reg: Registry, matchId: string, cb: CallbackId)
    requires WellFormed(reg) && cb !in Subscribers(reg, matchId)
    ensures Unsubscribe(Subscribe(reg, matchId, cb), matchId, cb) == reg
  {
    var cbs := Subscribers(reg, matchId);
    WithoutAppended(cbs, cb);
    if matchId !in reg {
      assert Subscribe(reg, matchId, cb) - {matchId} == reg;
    } else {
      assert Subscribe(reg, matchId, cb)[matchId := cbs] == reg;
    }
  }

  lemma {:induction false} WithoutAppended(s: seq<CallbackId>, cb: CallbackId)
    requires cb !in s
    ensures Without(s + [cb], cb) == s
  {
    if s != [] {
      assert (s + [cb])[1..] == s[1..] + [cb];
      WithoutAppended(s[1..], cb);
    }
  }

  // ---------------------------------------------------------------------------
  // Fan-out.
  // ---------------------------------------------------------------------------

  /** Every callback, in order, was called once with the event; whether it
      threw is up to the callback and stops nobody. */
  predicate DeliveredToAll(deliveries: seq<Delivery>, callbacks: seq<CallbackId>, event: MatchEvent,
                           throws: (CallbackId, MatchEvent) -> bool)
  {
    && |deliveries| == |callbacks|
    && forall i :: 0 <= i < |callbacks| ==>
         deliveries[i] == Delivery(callbacks[i], event, throws(callbacks[i], event))
  }

  /** The `forEach` of `emitEvent`: each call sits in a `try`, and a callback
      that throws is logged and skipped.  `throws` says which calls throw. */
  method Deliver(callbacks: seq<CallbackId>, event: MatchEvent, throws: (CallbackId, MatchEvent) -> bool)
    returns (deliveries: seq<Delivery>)
    ensures DeliveredToAll(deliveries, callbacks, event, throws)
    ensures forall c :: c in callbacks <==> exists i :: 0 <= i < |deliveries| && deliveries[i].callback == c
  {
    deliveries := [];
    var i := 0;
    while i < |callbacks|
      invariant 0 <= i <= |callbacks| && |deliveries| == i
      invariant forall k :: 0 <= k < i ==>
        deliveries[k] == Delivery(callbacks[k], event, throws(callbacks[k], event))
    {
      var threw := throws(callbacks[i], event);
      deliveries := deliveries + [Delivery(callbacks[i], event, threw)];
      i := i + 1;
    }
    assert forall c :: c in callbacks ==> exists i :: 0 <= i < |deliveries| && deliveries[i].callback == c by {
      forall c | c in callbacks ensures exists i :: 0 <= i < |deliveries| && deliveries[i].callback == c {
        var i :| 0 <= i < |callbacks| && callbacks[i] == c;
        assert deliveries[i].callback == c;
      }
    }
  }

  /** The score table after the delayed settlement of a submission: exactly
      the player's entry (absent reading as 0) raised by 10, every other entry
      copied. */
  function BumpScore(scores: Record, player: string): (r: Record)
    ensures player !in Keys(scores) ==> Get(r, player) == Some(10)
    ensures player in Keys(scores) ==> Get(r, player) == Some(Get(scores, player).value + 10)
    ensures forall k :: k != player ==> Get(r, k) == Get(scores, k)
    ensures Keys(r) == Keys(scores) + {player}
    ensures DistinctKeys(scores) ==> DistinctKeys(r)
  {
    var previous := Get(scores, player);
    PutKeys(scores, player, (if previous.Some? then previous.value else 0) + 10);
    PutKeepsDistinct(scores, player, (if previous.Some? then previous.value else 0) + 10);
    Put(scores, player, (if previous.Some? then previous.value else 0) + 10)
  }

  /** The client object. */
  class LineraClientApp {
    var connected: bool
    var currentAddress: Option<string>
    var subscriptions: Registry
    var scoreCache: map<string, Record>

    ghost predicate Valid()
      reads this
    {
      WellFormed(subscriptions)
    }

    constructor ()
      ensures Valid()
      ensures !connected && currentAddress == None
      ensures subscriptions == map[] && scoreCache == map[]
    {
      connected := false;
      currentAddress := None;
      subscriptions := map[];
      scoreCache := map[];
    }

    /** `connectWallet` in demo mode; the random address is an input. */
    method ConnectWallet(address: string)
      modifies this
      ensures connected && currentAddress == Some(address)
      ensures subscriptions == old(subscriptions) && scoreCache == old(scoreCache)
    {
      currentAddress := Some(address);
      connected := true;
    }

    /** `getCachedScores`: the match's table, or the empty one. */
    function CachedScores(matchId: string): (r: Record)
      reads this
      ensures matchId in scoreCache ==> r == scoreCache[matchId]
      ensures matchId !in scoreCache ==> r == []
    {
      if matchId in scoreCache then scoreCache[matchId] else []
    }

    /** `setCachedScores`. */
    method SetCachedScores(matchId: string, scores: Record)
      modifies this
      ensures scoreCache == old(scoreCache)[matchId := scores]
      ensures connected == old(connected) && currentAddress == old(currentAddress)
      ensures subscriptions == old(subscriptions)
    {
      scoreCache := scoreCache[matchId := scores];
    }

    /** `subscribeToMatch`: registers the callback and returns its
        unsubscribe closure. */
    method SubscribeToMatch(matchId: string, callback: CallbackId) returns (unsubscribe: Unsubscriber)
      requires Valid()
      modifies this
      ensures Valid()
      ensures subscriptions == Subscribe(old(subscriptions), matchId, callback)
      ensures callback in Subscribers(subscriptions, matchId)
      ensures unsubscribe == Unsubscriber(matchId, callback)
      ensures connected == old(connected) && currentAddress == old(currentAddress)
      ensures scoreCache == old(scoreCache)
    {
      ghost var before := subscriptions;
      if matchId !in subscriptions {
        subscriptions := subscriptions[matchId := []];
      }
      var callbacks := subscriptions[matchId];
      assert callbacks == Subscribers(before, matchId);
      if callback !in callbacks {
        subscriptions := subscriptions[matchId := callbacks + [callback]];
      }
      assert subscriptions == Subscribe(before, matchId, callback);
      unsubscribe := Unsubscriber(matchId, callback);
    }

    /** Calling the closure returned by `subscribeToMatch`. */
    method CallUnsubscribe(token: Unsubscriber)
      requires Valid()
      modifies this
      ensures Valid()
      ensures subscriptions == Unsubscribe(old(subscriptions), token.matchId, token.callback)
      ensures token.callback !in Subscribers(subscriptions, token.matchId)
      ensures connected == old(connected) && currentAddress == old(currentAddress)
      ensures scoreCache == old(scoreCache)
    {
      if token.matchId in subscriptions {
        var callbacks := subscriptions[token.matchId];
        var rest := Without(callbacks, token.callback);
        if rest == [] {
          subscriptions := subscriptions - {token.matchId};
        } else {
          subscriptions := subscriptions[token.matchId := rest];
        }
      }
    }

    /** `emitEvent`: every callback of the match is called once, in order,
        whatever the others do; then a ScoreUpdated event replaces the match's
        cached scores. */
    method EmitEvent(matchId: string, event: MatchEvent, throws: (CallbackId, MatchEvent) -> bool)
      returns (deliveries: seq<Delivery>)
      requires Valid()
      modifies this
      ensures Valid()
      ensures DeliveredToAll(deliveries, Subscribers(old(subscriptions), matchId), event, throws)
      ensures event.ScoreUpdated? ==> scoreCache == old(scoreCache)[matchId := event.scores]
      ensures !event.ScoreUpdated? ==> scoreCache == old(scoreCache)
      ensures subscriptions == old(subscriptions)
      ensures connected == old(connected) && currentAddress == old(currentAddress)
    {
      deliveries := [];
      if matchId in subscriptions {
        deliveries := Deliver(subscriptions[matchId], event, throws);
      }
      if event.ScoreUpdated? {
        SetCachedScores(matchId, event.scores);
      }
    }

    /** `submitAnswer`, up to its timer: announces the submission, naming the
        current address or "unknown". */
    method SubmitAnswer(params: SubmitAnswerParams, throws: (CallbackId, MatchEvent) -> bool)
      returns (deliveries: seq<Delivery>)
      requires Valid()
      modifies this
      ensures Valid()
      ensures DeliveredToAll(deliveries, Subscribers(old(subscriptions), params.matchId),
                             AnswerSubmitted(OrElse(currentAddress, "unknown"), params.questionIndex), throws)
      ensures scoreCache == old(scoreCache) && subscriptions == old(subscriptions)
      ensures connected == old(connected) && currentAddress == old(currentAddress)
    {
      deliveries := EmitEvent(params.matchId,
                              AnswerSubmitted(OrElse(currentAddress, "unknown"), params.questionIndex), throws);
    }

    /** The timer callback of `submitAnswer`: publishes the cached table with
        the player (the current address, or "demo") raised by 10, which
        becomes the new cache. */
    method SettleSubmittedScore(matchId: string, throws: (CallbackId, MatchEvent) -> bool)
      returns (deliveries: seq<Delivery>)
      requires Valid()
      modifies this
      ensures Valid()
      ensures scoreCache == old(scoreCache)[matchId :=
                BumpScore(old(CachedScores(matchId)), OrElse(currentAddress, "demo"))]
      ensures DeliveredToAll(deliveries, Subscribers(old(subscriptions), matchId),
                ScoreUpdated(BumpScore(old(CachedScores(matchId)), OrElse(currentAddress, "demo"))), throws)
      ensures subscriptions == old(subscriptions)
      ensures connected == old(connected) && currentAddress == old(currentAddress)
    {
      var current := CachedScores(matchId);
      var playerKey := OrElse(currentAddress, "demo");
      deliveries := EmitEvent(matchId, ScoreUpdated(BumpScore(current, playerKey)), throws);
    }

    /** `getScores`: the cached table when it has an entry; otherwise the
        table giving the current address (or "demo") 0, which is cached. */
    method GetScores(matchId: string) returns (scores: Record)
      modifies this
      ensures old(CachedScores(matchId)) != [] ==>
        scores == old(CachedScores(matchId)) && scoreCache == old(scoreCache)
      ensures old(CachedScores(matchId)) == [] ==>
        scores == [(OrElse(currentAddress, "demo"), 0)]
        && scoreCache == old(scoreCache)[matchId := scores]
      ensures subscriptions == old(subscriptions)
      ensures connected == old(connected) && currentAddress == old(currentAddress)
    {
      var cached := CachedScores(matchId);
      if |cached| > 0 {
        return cached;
      }
      scores := [(OrElse(currentAddress, "demo"), 0)];
      SetCachedScores(matchId, scores);
    }
  }

  /** A subscriber that throws does not keep the event from the subscriber
      registered after it. */
  method ThrowingSubscriberDoesNotBlock(client: LineraClientApp, matchId: string, event: MatchEvent,
                                        first: CallbackId, second: CallbackId)
    returns (deliveries: seq<Delivery>)
    requires client.Valid() && client.subscriptions == map[] && first != second
    modifies client
    ensures deliveries == [Delivery(first, event, true), Delivery(second, event, false)]
  {
    var u1 := client.SubscribeToMatch(matchId, first);
    var u2 := client.SubscribeToMatch(matchId, second);
    deliveries := client.EmitEvent(matchId, event, (c, e) => c == first);
  }
}
