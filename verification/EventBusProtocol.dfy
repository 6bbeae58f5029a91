/**
 Publishers, subscribers and receivers interleaved under the RWMutex.

 A publish takes the read lock, offers its event to one listener at a time and
 releases; any number run at once.  Subscribing and unsubscribing need the write
 lock, so they happen only while no publish is under way.  A publish is named by
 the position of its start in the log.
 */
module EventBusProtocol {
  import opened Wrappers
  import opened EventBus

  type ChannelID = nat

  datatype Event =
    | Started(listeners: seq<ChannelID>)
    | Sent(publish: nat, ch: ChannelID)
    | Dropped(publish: nat, ch: ChannelID)
    | Finished(publish: nat)
    | Received(publish: nat, ch: ChannelID)
    | Subscribed(ch: ChannelID)
    | Unsubscribed(ch: ChannelID)

  /** A publish under way: the length its range loop fixed on entry, and the next index. */
  datatype Publishing = Publishing(count: nat, next: nat)

  datatype Bus = Bus(
    listeners: seq<ChannelID>,
    queues: map<ChannelID, seq<nat>>,
    publishing: map<nat, Publishing>,
    log: seq<Event>)

  datatype Action =
    | Begin
    | Offer(p: nat)
    | End(p: nat)
    | Subscribe(ch: ChannelID)
    | Unsubscribe(ch: ChannelID)
    | Receive(ch: ChannelID)

  ghost predicate Initial(s: Bus) {
    s == Bus([], map[], map[], [])
  }

  ghost predicate DoBegin(s: Bus, s': Bus) {
    s' == s.(publishing := s.publishing[|s.log| := Publishing(|s.listeners|, 0)], log := s.log + [Started(s.listeners)])
  }

  /** The loop reads the listener from the shared slice at the moment of the offer. */
  ghost predicate DoOffer(s: Bus, p: nat, s': Bus) {
    && p in s.publishing && s.publishing[p].next < s.publishing[p].count
    && s.publishing[p].next < |s.listeners|
    && var ch := s.listeners[s.publishing[p].next];
    && ch in s.queues
    && var room := |s.queues[ch]| < CAPACITY;
    && s' == s.(publishing := s.publishing[p := s.publishing[p].(next := s.publishing[p].next + 1)],
                queues := if room then s.queues[ch := s.queues[ch] + [p]] else s.queues,
                log := s.log + [if room then Sent(p, ch) else Dropped(p, ch)])
  }

  ghost predicate DoEnd(s: Bus, p: nat, s': Bus) {
    && p in s.publishing && s.publishing[p].next == s.publishing[p].count
    && s' == s.(publishing := s.publishing - {p}, log := s.log + [Finished(p)])
  }

  ghost predicate DoSubscribe(s: Bus, ch: ChannelID, s': Bus) {
    && s.publishing == map[] && ch !in s.queues
    && s' == s.(listeners := s.listeners + [ch], queues := s.queues[ch := []], log := s.log + [Subscribed(ch)])
  }

  ghost predicate DoUnsubscribe(s: Bus, ch: ChannelID, s': Bus) {
    && s.publishing == map[] && ch in s.queues
    && s' == s.(listeners := Without(s.listeners, ch), log := s.log + [Unsubscribed(ch)])
  }

  ghost predicate DoReceive(s: Bus, ch: ChannelID, s': Bus) {
    && ch in s.queues && s.queues[ch] != []
    && s' == s.(queues := s.queues[ch := s.queues[ch][1..]], log := s.log + [Received(s.queues[ch][0], ch)])
  }

  ghost predicate Step(s: Bus, a: Action, s': Bus) {
    match a
    case Begin => DoBegin(s, s')
    case Offer(p) => DoOffer(s, p, s')
    case End(p) => DoEnd(s, p, s')
    case Subscribe(ch) => DoSubscribe(s, ch, s')
    case Unsubscribe(ch) => DoUnsubscribe(s, ch, s')
    case Receive(ch) => DoReceive(s, ch, s')
  }

  ghost predicate Next(s: Bus, s': Bus) {
    exists a :: Step(s, a, s')
  }

  ghost predicate Behavior(b: seq<Bus>) {
    && |b| > 0 && Initial(b[0])
    && forall i :: 0 <= i < |b| - 1 ==> Next(b[i], b[i + 1])
  }

  // ---------- Reading the log ----------

  ghost function SentTo(log: seq<Event>, ch: ChannelID): seq<nat> {
    if log == [] then [] else
      var e := log[|log| - 1];
      SentTo(log[..|log| - 1], ch) + if e.Sent? && e.ch == ch then [e.publish] else []
  }

  ghost function ReceivedFrom(log: seq<Event>, ch: ChannelID): seq<nat> {
    if log == [] then [] else
      var e := log[|log| - 1];
      ReceivedFrom(log[..|log| - 1], ch) + if e.Received? && e.ch == ch then [e.publish] else []
  }

  lemma LogGrows(log: seq<Event>, e: Event, ch: ChannelID)
    ensures SentTo(log + [e], ch) == SentTo(log, ch) + if e.Sent? && e.ch == ch then [e.publish] else []
    ensures ReceivedFrom(log + [e], ch) == ReceivedFrom(log, ch) + if e.Received? && e.ch == ch then [e.publish] else []
  {
    assert (log + [e])[..|log|] == log;
  }

  /** The event at `k` hands publish `p` to `ch`, successfully or not. */
  predicate OffersAt(log: seq<Event>, k: nat, p: nat, ch: ChannelID)
    requires k < |log|
  {
    log[k] == Sent(p, ch) || log[k] == Dropped(p, ch)
  }

  ghost predicate Offered(log: seq<Event>, p: nat, ch: ChannelID) {
    Sent(p, ch) in log || Dropped(p, ch) in log
  }

  // ---------- Invariants ----------

  /** Listeners are distinct known channels, and none of them has been unsubscribed. */
  ghost predicate ListenersOK(s: Bus) {
    && Distinct(s.listeners)
    && (forall ch :: ch in s.listeners ==> ch in s.queues && Unsubscribed(ch) !in s.log)
    && (forall k :: 0 <= k < |s.log| && s.log[k].Unsubscribed? ==> s.log[k].ch in s.queues)
  }

  /** The slice a publish started on is still the slice, and it has been offered exactly as far as `next`. */
  ghost predicate PublishOK(s: Bus, p: nat)
    requires p in s.publishing
  {
    && p < |s.log| && s.log[p] == Started(s.listeners)
    && s.publishing[p].count == |s.listeners| && s.publishing[p].next <= |s.listeners|
    && forall ch :: Offered(s.log, p, ch) <==> ch in s.listeners[..s.publishing[p].next]
  }

  ghost predicate PublishesOK(s: Bus) {
    && (forall p :: p in s.publishing ==> PublishOK(s, p))
    && (forall k :: 0 <= k < |s.log| && (s.log[k].Sent? || s.log[k].Dropped?) ==> s.log[k].publish < k)
    && (forall k ::
          0 <= k < |s.log| && s.log[k].Finished? ==> s.log[k].publish < k && s.log[k].publish !in s.publishing)
  }

  /** What was sent to a channel is what was received from it, in order, followed by what it still holds. */
  ghost predicate QueueOK(s: Bus, ch: ChannelID)
    requires ch in s.queues
  {
    && SentTo(s.log, ch) == ReceivedFrom(s.log, ch) + s.queues[ch]
    && |s.queues[ch]| <= CAPACITY
  }

  ghost predicate ChannelOK(s: Bus, ch: ChannelID) {
    if ch in s.queues then QueueOK(s, ch) else SentTo(s.log, ch) == [] && ReceivedFrom(s.log, ch) == []
  }

  ghost predicate QueuesOK(s: Bus) {
    forall ch: ChannelID :: ChannelOK(s, ch)
  }

  // What the log itself must look like.

  ghost predicate OneOfferEach(log: seq<Event>) {
    forall p, ch, j, k :: 0 <= j < k < |log| && OffersAt(log, j, p, ch) ==> !OffersAt(log, k, p, ch)
  }

  ghost predicate DropsOnlyWhenFull(log: seq<Event>) {
    forall k :: 0 <= k < |log| && log[k].Dropped? ==>
      |SentTo(log[..k], log[k].ch)| == |ReceivedFrom(log[..k], log[k].ch)| + CAPACITY
  }

  ghost predicate FinishedOfferedAll(log: seq<Event>) {
    forall k :: 0 <= k < |log| && log[k].Finished? ==>
      && log[k].publish < k && log[log[k].publish].Started?
      && forall ch :: Offered(log, log[k].publish, ch) <==> ch in log[log[k].publish].listeners
  }

  ghost predicate NothingAfterUnsubscribe(log: seq<Event>) {
    forall j, k :: 0 <= j < k < |log| && log[j].Unsubscribed? && (log[k].Sent? || log[k].Dropped?) ==>
      log[k].ch != log[j].ch
  }

  ghost predicate Inv(s: Bus) {
    && ListenersOK(s) && PublishesOK(s) && QueuesOK(s)
    && OneOfferEach(s.log) && DropsOnlyWhenFull(s.log) && FinishedOfferedAll(s.log) && NothingAfterUnsubscribe(s.log)
  }

  lemma StepKeepsListenersOK(s: Bus, a: Action, s': Bus)
    requires Inv(s) && Step(s, a, s')
    ensures ListenersOK(s')
  {
    var e := s'.log[|s.log|];
    assert s'.log == s.log + [e];
    if a.Unsubscribe? {
      WithoutKeepsOrder(s.listeners, a.ch);
    } else if a.Subscribe? {
      assert Unsubscribed(a.ch) !in s.log;
    } else {
      assert s'.listeners == s.listeners && !e.Unsubscribed?;
    }
  }

  lemma OfferKeepsChannelOK(s: Bus, p: nat, s': Bus, ch: ChannelID)
    requires DoOffer(s, p, s') && ChannelOK(s, ch)
    ensures ChannelOK(s', ch)
  {
    LogGrows(s.log, s'.log[|s.log|], ch);
  }

  lemma ReceiveKeepsChannelOK(s: Bus, c: ChannelID, s': Bus, ch: ChannelID)
    requires DoReceive(s, c, s') && ChannelOK(s, ch)
    ensures ChannelOK(s', ch)
  {
    LogGrows(s.log, s'.log[|s.log|], ch);
    if c == ch {
      assert s.queues[ch] == [s.queues[ch][0]] + s'.queues[ch];
    }
  }

  lemma StepKeepsChannelOK(s: Bus, a: Action, s': Bus, ch: ChannelID)
    requires Step(s, a, s') && ChannelOK(s, ch)
    ensures ChannelOK(s', ch)
  {
    match a
    case Offer(p) => OfferKeepsChannelOK(s, p, s', ch);
    case Receive(c) => ReceiveKeepsChannelOK(s, c, s', ch);
    case _ => OtherKeepsChannelOK(s, s'.log[|s.log|], s', ch);
  }

  lemma OtherKeepsChannelOK(s: Bus, e: Event, s': Bus, ch: ChannelID)
    requires ChannelOK(s, ch) && s'.log == s.log + [e] && !e.Sent? && !e.Received?
    requires ch in s.queues ==> ch in s'.queues && s'.queues[ch] == s.queues[ch]
    requires ch in s'.queues && ch !in s.queues ==> s'.queues[ch] == []
    ensures ChannelOK(s', ch)
  {
    LogGrows(s.log, e, ch);
  }

  lemma StepKeepsQueuesOK(s: Bus, a: Action, s': Bus)
    requires Inv(s) && Step(s, a, s')
    ensures QueuesOK(s')
  {
    forall ch: ChannelID ensures ChannelOK(s', ch) {
      assert ChannelOK(s, ch);
      StepKeepsChannelOK(s, a, s', ch);
    }
  }

  /** A publish other than the one that moves is unaffected; while one is under way the slice cannot change. */
  lemma OthersKeepPublishOK(s: Bus, a: Action, s': Bus, p: nat)
    requires Inv(s) && Step(s, a, s') && p in s.publishing && p in s'.publishing && a != Offer(p)
    ensures PublishOK(s', p)
  {
    assert PublishOK(s, p);
    var e := s'.log[|s.log|];
    assert s'.log == s.log + [e] && s'.listeners == s.listeners && s'.publishing[p] == s.publishing[p];
    assert (e.Sent? || e.Dropped?) ==> e.publish != p;
    forall ch ensures Offered(s'.log, p, ch) <==> Offered(s.log, p, ch) {
    }
  }

  lemma OfferKeepsPublishOK(s: Bus, p: nat, s': Bus)
    requires Inv(s) && DoOffer(s, p, s')
    ensures PublishOK(s', p)
  {
    assert PublishOK(s, p);
    var next := s.publishing[p].next;
    var ch := s.listeners[next];
    assert s.listeners[..next + 1] == s.listeners[..next] + [ch];
    forall c ensures Offered(s'.log, p, c) <==> Offered(s.log, p, c) || c == ch {
      var e := s'.log[|s.log|];
      assert s'.log == s.log + [e] && (e == Sent(p, ch) || e == Dropped(p, ch));
    }
  }

  lemma BeginKeepsPublishOK(s: Bus, s': Bus)
    requires Inv(s) && DoBegin(s, s')
    ensures PublishOK(s', |s.log|)
  {
    forall ch ensures !Offered(s'.log, |s.log|, ch) {
    }
  }

  lemma StepKeepsPublishesOK(s: Bus, a: Action, s': Bus)
    requires Inv(s) && Step(s, a, s')
    ensures PublishesOK(s')
  {
    assert |s.log| !in s.publishing;
    assert a.Offer? ==> PublishOK(s, a.p);
    assert a.End? ==> PublishOK(s, a.p);
    forall p | p in s'.publishing ensures PublishOK(s', p) {
      if a.Begin? && p == |s.log| {
        BeginKeepsPublishOK(s, s');
      } else if a == Offer(p) {
        OfferKeepsPublishOK(s, p, s');
      } else {
        OthersKeepPublishOK(s, a, s', p);
      }
    }
  }

  lemma StepKeepsOneOfferEach(s: Bus, a: Action, s': Bus)
    requires Inv(s) && Step(s, a, s')
    ensures OneOfferEach(s'.log)
  {
    var e := s'.log[|s.log|];
    assert s'.log == s.log + [e];
    if a.Offer? {
      var p, next := a.p, s.publishing[a.p].next;
      var ch := s.listeners[next];
      assert PublishOK(s, p);
      assert ch !in s.listeners[..next];
      assert !Offered(s.log, p, ch);
      forall j | 0 <= j < |s.log| ensures !OffersAt(s'.log, j, p, ch) {
        assert s.log[j] in s.log;
      }
    }
    forall q, c, j, k | 0 <= j < k < |s'.log| && OffersAt(s'.log, j, q, c) ensures !OffersAt(s'.log, k, q, c) {
      if k < |s.log| {
        assert OffersAt(s.log, j, q, c);
        assert !OffersAt(s.log, k, q, c);
      }
    }
  }

  lemma StepKeepsDropsOnlyWhenFull(s: Bus, a: Action, s': Bus)
    requires Inv(s) && Step(s, a, s')
    ensures DropsOnlyWhenFull(s'.log)
  {
    var e := s'.log[|s.log|];
    assert s'.log == s.log + [e];
    forall k | 0 <= k < |s'.log| && s'.log[k].Dropped?
      ensures |SentTo(s'.log[..k], s'.log[k].ch)| == |ReceivedFrom(s'.log[..k], s'.log[k].ch)| + CAPACITY
    {
      assert s'.log[..k] == s.log[..k];
      if k == |s.log| {
        assert s.log[..k] == s.log;
        assert ChannelOK(s, e.ch);
      }
    }
  }

  lemma StepKeepsFinishedOfferedAll(s: Bus, a: Action, s': Bus)
    requires Inv(s) && Step(s, a, s')
    ensures FinishedOfferedAll(s'.log)
  {
    var e := s'.log[|s.log|];
    assert s'.log == s.log + [e];
    if a.Offer? || a.End? {
      assert PublishOK(s, a.p);
    }
    forall k | 0 <= k < |s'.log| && s'.log[k].Finished?
      ensures s'.log[k].publish < k && s'.log[s'.log[k].publish].Started?
      ensures forall ch :: Offered(s'.log, s'.log[k].publish, ch) <==> ch in s'.log[s'.log[k].publish].listeners
    {
      var p := s'.log[k].publish;
      if k == |s.log| {
        assert s.listeners[..|s.listeners|] == s.listeners;
      } else {
        assert s.log[k].Finished? && p !in s.publishing;
      }
      forall ch ensures Offered(s'.log, p, ch) <==> Offered(s.log, p, ch) {
      }
    }
  }

  lemma StepKeepsNothingAfterUnsubscribe(s: Bus, a: Action, s': Bus)
    requires Inv(s) && Step(s, a, s')
    ensures NothingAfterUnsubscribe(s'.log)
  {
    var e := s'.log[|s.log|];
    assert s'.log == s.log + [e];
    forall j | 0 <= j < |s.log| && s.log[j].Unsubscribed? && (e.Sent? || e.Dropped?) ensures e.ch != s.log[j].ch {
      assert s.log[j] == Unsubscribed(s.log[j].ch) && s.log[j] in s.log;
    }
  }

  lemma {:induction false} BehaviorInv(b: seq<Bus>)
    requires Behavior(b)
    ensures Inv(Last(b))
  {
    if |b| > 1 {
      var before := b[..|b| - 1];
      assert Behavior(before) && Next(b[|b| - 2], b[|b| - 1]);
      var s, s' := Last(before), Last(b);
      BehaviorInv(before);
      var a :| Step(s, a, s');
      StepKeepsListenersOK(s, a, s');
      StepKeepsQueuesOK(s, a, s');
      StepKeepsPublishesOK(s, a, s');
      StepKeepsOneOfferEach(s, a, s');
      StepKeepsDropsOnlyWhenFull(s, a, s');
      StepKeepsFinishedOfferedAll(s, a, s');
      StepKeepsNothingAfterUnsubscribe(s, a, s');
    }
  }

  // ---------- The promises, over every interleaving ----------

  /** The slice a publish iterates over is the one it started on, and its next offer is always possible. */
  lemma SliceConstantDuringPublish(b: seq<Bus>, p: nat)
    requires Behavior(b) && p in Last(b).publishing
    ensures p < |Last(b).log| && Last(b).log[p] == Started(Last(b).listeners)
    ensures Last(b).publishing[p].next < Last(b).publishing[p].count ==>
      exists s' :: DoOffer(Last(b), p, s')
  {
    BehaviorInv(b);
    var s := Last(b);
    assert PublishOK(s, p);
    if s.publishing[p].next < s.publishing[p].count {
      var ch := s.listeners[s.publishing[p].next];
      var room := |s.queues[ch]| < CAPACITY;
      var s' := s.(publishing := s.publishing[p := s.publishing[p].(next := s.publishing[p].next + 1)],
                   queues := if room then s.queues[ch := s.queues[ch] + [p]] else s.queues,
                   log := s.log + [if room then Sent(p, ch) else Dropped(p, ch)]);
      assert DoOffer(s, p, s');
    }
  }

  /** A finished publish reached exactly the listeners it started with, each of them exactly once. */
  lemma FinishedPublishReachedEachListenerOnce(b: seq<Bus>, p: nat)
    requires Behavior(b) && Finished(p) in Last(b).log
    ensures p < |Last(b).log| && Last(b).log[p].Started?
    ensures forall ch :: ch in Last(b).log[p].listeners <==> Offered(Last(b).log, p, ch)
    ensures forall ch, j, k ::
      0 <= j < k < |Last(b).log| && OffersAt(Last(b).log, j, p, ch) ==> !OffersAt(Last(b).log, k, p, ch)
  {
    BehaviorInv(b);
    var log := Last(b).log;
    var k :| 0 <= k < |log| && log[k] == Finished(p);
  }

  /** Sends arrive in order and none is lost or repeated; a drop happens only when the channel holds a full buffer. */
  lemma ChannelsAreLosslessQueues(b: seq<Bus>, ch: ChannelID, k: nat)
    requires Behavior(b) && ch in Last(b).queues
    ensures SentTo(Last(b).log, ch) == ReceivedFrom(Last(b).log, ch) + Last(b).queues[ch]
    ensures k < |Last(b).log| && Last(b).log[k].Dropped? && Last(b).log[k].ch == ch ==>
      |SentTo(Last(b).log[..k], ch)| - |ReceivedFrom(Last(b).log[..k], ch)| == 10
  {
    BehaviorInv(b);
    assert ChannelOK(Last(b), ch);
  }

  /** After Unsubscribe has returned nothing is offered to that channel any more, by old or new publishes. */
  lemma UnsubscribedIsNeverOffered(b: seq<Bus>, j: nat, k: nat)
    requires Behavior(b) && j < k < |Last(b).log| && Last(b).log[j].Unsubscribed?
    ensures forall p :: !OffersAt(Last(b).log, k, p, Last(b).log[j].ch)
  {
    BehaviorInv(b);
  }

  // ---------- Who listens, and what can happen next ----------

  /** A channel listens exactly from its subscription to its removal; both come after it was made. */
  ghost predicate Listening(s: Bus, ch: ChannelID) {
    && (ch in s.listeners <==> Subscribed(ch) in s.log && Unsubscribed(ch) !in s.log)
    && (Subscribed(ch) in s.log <==> ch in s.queues)
    && (Unsubscribed(ch) in s.log ==> ch in s.queues)
  }

  lemma StepKeepsListening(s: Bus, a: Action, s': Bus, ch: ChannelID)
    requires Inv(s) && Step(s, a, s') && Listening(s, ch)
    ensures Listening(s', ch)
  {
    var e := s'.log[|s.log|];
    assert s'.log == s.log + [e];
    if a.Unsubscribe? {
      WithoutKeepsOrder(s.listeners, a.ch);
    }
  }

  lemma {:induction false} ListensWhileSubscribed(b: seq<Bus>, ch: ChannelID)
    requires Behavior(b)
    ensures ch in Last(b).listeners <==> Subscribed(ch) in Last(b).log && Unsubscribed(ch) !in Last(b).log
    ensures Listening(Last(b), ch)
  {
    if |b| > 1 {
      var before := b[..|b| - 1];
      assert Behavior(before) && Next(b[|b| - 2], b[|b| - 1]);
      BehaviorInv(before);
      ListensWhileSubscribed(before, ch);
      var a :| Step(b[|b| - 2], a, b[|b| - 1]);
      StepKeepsListening(Last(before), a, Last(b), ch);
    }
  }

  ghost predicate CanStep(s: Bus, a: Action) {
    exists s' :: Step(s, a, s')
  }

  /**
   Nothing blocks for good: a publish can always begin, one under way can always
   offer or end, a channel that holds something can always be read, and while no
   publish is under way anybody can subscribe or unsubscribe.
   */
  lemma AlwaysGoesOn(b: seq<Bus>)
    requires Behavior(b)
    ensures CanStep(Last(b), Begin)
    ensures forall p :: p in Last(b).publishing ==>
      CanStep(Last(b), if Last(b).publishing[p].next < Last(b).publishing[p].count then Offer(p) else End(p))
    ensures forall ch :: ch in Last(b).queues && Last(b).queues[ch] != [] ==> CanStep(Last(b), Receive(ch))
    ensures Last(b).publishing == map[] ==>
      forall ch :: CanStep(Last(b), if ch in Last(b).queues then Unsubscribe(ch) else Subscribe(ch))
  {
    var s := Last(b);
    BehaviorInv(b);
    assert Step(s, Begin,
                s.(publishing := s.publishing[|s.log| := Publishing(|s.listeners|, 0)],
                  log := s.log + [Started(s.listeners)]));
    forall p | p in s.publishing
      ensures CanStep(s, if s.publishing[p].next < s.publishing[p].count then Offer(p) else End(p))
    {
      assert PublishOK(s, p);
      if s.publishing[p].next < s.publishing[p].count {
        SliceConstantDuringPublish(b, p);
        var s' :| DoOffer(s, p, s');
        assert Step(s, Offer(p), s');
      } else {
        assert Step(s, End(p), s.(publishing := s.publishing - {p}, log := s.log + [Finished(p)]));
      }
    }
    forall ch | ch in s.queues && s.queues[ch] != [] ensures CanStep(s, Receive(ch)) {
      assert Step(s, Receive(ch),
        s.(queues := s.queues[ch := s.queues[ch][1..]], log := s.log + [Received(s.queues[ch][0], ch)]));
    }
    if s.publishing == map[] {
      forall ch ensures CanStep(s, if ch in s.queues then Unsubscribe(ch) else Subscribe(ch)) {
        if ch in s.queues {
          assert Step(s, Unsubscribe(ch), s.(listeners := Without(s.listeners, ch), log := s.log + [Unsubscribed(ch)]));
        } else {
          assert Step(s, Subscribe(ch),
                      s.(listeners := s.listeners + [ch], queues := s.queues[ch := []],
                        log := s.log + [Subscribed(ch)]));
        }
      }
    }
  }
}
