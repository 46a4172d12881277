/** Concurrent publishers and event-stream handlers around one broker: every
    interleaving of their lock-protected sections, and what a handler that
    subscribes first and reads the history second ends up seeing.

    The broker's lock is a read-write lock. Append, Subscribe, Unsubscribe and
    Close hold it for writing and so are single steps that wait until no delivery
    is under way; a delivery holds it for reading and is broken into one step per
    send, so deliveries, history reads and channel receives interleave freely. */
module Handover {
  import opened Wrappers
  import opened Broker

  type PubId = nat

  /** A publisher between its two sections, or in the middle of the second.
      `idx` is the position of its event among all events appended to the topic. */
  datatype Pub =
    | Pending(topic: Topic, idx: nat)
    | Sending(topic: Topic, idx: nat, todo: set<ChanId>)

  /** A subscription and its history, as positions in the topic's log:
      where the log stood when it subscribed, which events were then still
      undelivered, where the log stood at the history read, what that returned,
      every event enqueued so far, the events taken out again, and each dropped
      event with the unread count that made the channel refuse it. */
  datatype Sub = Sub(
    topic: Topic, subAt: nat, owedAtSub: set<nat>, snapAt: Option<nat>, replay: seq<Event>,
    idxs: seq<nat>, received: seq<Event>, dropped: map<nat, nat>)

  datatype System = System(
    broker: State, log: map<Topic, seq<Event>>, pubs: map<PubId, Pub>, subs: map<ChanId, Sub>, panicked: bool)

  const INITIAL := System(EMPTY, map[], map[], map[], false)

  datatype Action =
    | Subscribe(topic: Topic, ch: ChanId)
    | ReadHistory(ch: ChanId)
    | Receive(ch: ChanId)
    | Unsubscribe(ch: ChanId)
    | Append(pub: PubId, topic: Topic, event: Event)
    | BeginDelivery(pub: PubId)
    | Send(pub: PubId, ch: ChanId)
    | EndDelivery(pub: PubId)
    | CloseBroker

  function Log(s: System, topic: Topic): seq<Event> {
    if topic in s.log then s.log[topic] else []
  }

  predicate NoReaders(s: System) {
    forall p :: p in s.pubs ==> s.pubs[p].Pending?
  }

  predicate Enabled(s: System, a: Action) {
    match a
    case Subscribe(topic, ch) => NoReaders(s) && ch !in s.broker.chans
    case ReadHistory(ch) => ch in s.subs && s.subs[ch].snapAt.None?
    case Receive(ch) => ch in s.subs && ch in s.broker.chans && s.broker.chans[ch].buf != []
    case Unsubscribe(ch) => NoReaders(s) && ch in s.subs
    case Append(p, topic, event) => NoReaders(s) && p !in s.pubs
    case BeginDelivery(p) => p in s.pubs && s.pubs[p].Pending?
    case Send(p, ch) => p in s.pubs && s.pubs[p].Sending? && ch in s.pubs[p].todo
                        && ch in s.subs && ch in s.broker.chans
                        && s.pubs[p].idx < |Log(s, s.pubs[p].topic)|
    case EndDelivery(p) => p in s.pubs && s.pubs[p] == Sending(s.pubs[p].topic, s.pubs[p].idx, {})
    case CloseBroker => NoReaders(s)
  }

  // The publication is still to be offered to the channel.
  predicate Owes(pub: Pub, topic: Topic, idx: nat, ch: ChanId) {
    pub.topic == topic && pub.idx == idx && (pub.Pending? || ch in pub.todo)
  }

  predicate Owed(s: System, topic: Topic, idx: nat, ch: ChanId) {
    exists p :: p in s.pubs && Owes(s.pubs[p], topic, idx, ch)
  }

  function PendingIdxs(s: System, topic: Topic): set<nat> {
    set p | p in s.pubs && s.pubs[p].topic == topic :: s.pubs[p].idx
  }

  function Next(s: System, a: Action): System
    requires Enabled(s, a)
  {
    match a
    case Subscribe(topic, ch) =>
      s.(broker := Subscribed(s.broker, topic, ch),
         subs := s.subs[ch := Sub(topic, |Log(s, topic)|, PendingIdxs(s, topic), None, [], [], [], map[])])
    case ReadHistory(ch) =>
      var sub := s.subs[ch];
      s.(subs := s.subs[ch := sub.(snapAt := Some(|Log(s, sub.topic)|), replay := History(s.broker, sub.topic))])
    case Receive(ch) =>
      var chan := s.broker.chans[ch];
      s.(broker := s.broker.(chans := s.broker.chans[ch := chan.(buf := chan.buf[1..])]),
         subs := s.subs[ch := s.subs[ch].(received := s.subs[ch].received + [chan.buf[0]])])
    case Unsubscribe(ch) =>
      var topic := s.subs[ch].topic;
      var reclosed := ch in Clients(s.broker, topic) && (ch !in s.broker.chans || s.broker.chans[ch].closed);
      s.(broker := Unsubscribed(s.broker, topic, ch), panicked := s.panicked || reclosed)
    case Append(p, topic, event) =>
      s.(broker := Appended(s.broker, topic, event),
         log := s.log[topic := Log(s, topic) + [event]],
         pubs := s.pubs[p := Pending(topic, |Log(s, topic)|)])
    case BeginDelivery(p) =>
      var pub := s.pubs[p];
      s.(pubs := s.pubs[p := Sending(pub.topic, pub.idx, Clients(s.broker, pub.topic))])
    case Send(p, ch) =>
      var pub, sub, chan := s.pubs[p], s.subs[ch], s.broker.chans[ch];
      var chan' := Offered(chan, Log(s, pub.topic)[pub.idx]);
      var sub' := if chan' == chan then sub.(dropped := sub.dropped[pub.idx := |chan.buf|])
                  else sub.(idxs := sub.idxs + [pub.idx]);
      s.(broker := s.broker.(chans := s.broker.chans[ch := chan']),
         pubs := s.pubs[p := pub.(todo := pub.todo - {ch})],
         subs := s.subs[ch := sub'],
         panicked := s.panicked || chan.closed)
    case EndDelivery(p) =>
      s.(pubs := s.pubs - {p})
    case CloseBroker =>
      var all := ClientsOf(s.broker.clients, s.broker.clients.Keys);
      s.(broker := Closed(s.broker),
         panicked := s.panicked || exists ch :: ch in all && (ch !in s.broker.chans || s.broker.chans[ch].closed))
  }

  // An action that cannot happen in a state changes nothing.
  function Step(s: System, a: Action): System {
    if Enabled(s, a) then Next(s, a) else s
  }

  function Exec(s: System, actions: seq<Action>): System
    decreases |actions|
  {
    if actions == [] then s else Step(Exec(s, actions[..|actions| - 1]), actions[|actions| - 1])
  }

  // ---- The invariant ----

  predicate IsLive(s: System, ch: ChanId) {
    ch in s.subs && ch in Clients(s.broker, s.subs[ch].topic)
  }

  ghost predicate HistoryExact(s: System) {
    && s.log.Keys == s.broker.history.Keys
    && (forall topic :: topic in s.log ==>
          s.log[topic] != [] && s.broker.history[topic] == LastN(s.log[topic], MAX_HISTORY))
  }

  ghost predicate PubsOk(s: System) {
    && (forall p :: p in s.pubs ==> s.pubs[p].idx < |Log(s, s.pubs[p].topic)|)
    && (forall p, q :: p in s.pubs && q in s.pubs && p != q ==>
          s.pubs[p].topic != s.pubs[q].topic || s.pubs[p].idx != s.pubs[q].idx)
    && (forall p :: p in s.pubs && s.pubs[p].Sending? ==> s.pubs[p].todo <= Clients(s.broker, s.pubs[p].topic))
  }

  ghost predicate ChannelsOk(s: System) {
    && Sound(s.broker) && !s.panicked
    && s.subs.Keys == s.broker.chans.Keys
    && (forall topic, ch :: topic in s.broker.clients && ch in s.broker.clients[topic] ==> s.subs[ch].topic == topic)
  }

  // What the channel holds is what was enqueued and not yet received.
  ghost predicate StreamOk(sub: Sub, log: seq<Event>, buf: seq<Event>) {
    && |sub.idxs| == |sub.received| + |buf|
    && (forall i :: 0 <= i < |sub.idxs| ==> sub.idxs[i] < |log|)
    && (forall i :: 0 <= i < |sub.received| ==> sub.received[i] == log[sub.idxs[i]])
    && (forall i :: 0 <= i < |buf| ==> buf[i] == log[sub.idxs[|sub.received| + i]])
    && (forall i, j :: 0 <= i < j < |sub.idxs| ==> sub.idxs[i] != sub.idxs[j])
    && (forall j :: j in sub.dropped ==> j < |log| && j !in sub.idxs && sub.dropped[j] == CAPACITY)
    && (forall j :: j in sub.idxs || j in sub.dropped ==> ToOffer(sub, j))
  }

  ghost predicate SnapshotOk(sub: Sub, log: seq<Event>) {
    && sub.subAt <= |log|
    && (forall j :: j in sub.owedAtSub ==> j < sub.subAt)
    && (match sub.snapAt
        case None => sub.replay == []
        case Some(n) => sub.subAt <= n <= |log| && sub.replay == LastN(log[..n], MAX_HISTORY))
  }

  ghost predicate SubOk(s: System, ch: ChanId)
    requires ch in s.subs && ch in s.broker.chans
  {
    var log := Log(s, s.subs[ch].topic);
    SnapshotOk(s.subs[ch], log) && StreamOk(s.subs[ch], log, s.broker.chans[ch].buf)
  }

  ghost predicate SubsOk(s: System)
    requires s.subs.Keys == s.broker.chans.Keys
  {
    forall ch :: ch in s.subs ==> SubOk(s, ch)
  }

  predicate Captured(sub: Sub, idx: nat) {
    idx in sub.idxs || idx in sub.dropped
  }


  // Appended after the subscription, or still undelivered when it was made.
  predicate ToOffer(sub: Sub, idx: nat) {
    idx >= sub.subAt || idx in sub.owedAtSub
  }

  // An undelivered event has not reached the channel yet, and may.
  ghost predicate NotEarly(s: System) {
    forall p, ch :: p in s.pubs && ch in s.subs && Owes(s.pubs[p], s.subs[ch].topic, s.pubs[p].idx, ch) ==>
      !Captured(s.subs[ch], s.pubs[p].idx) && ToOffer(s.subs[ch], s.pubs[p].idx)
  }

  // A live subscription misses nothing it should have been offered.
  ghost predicate NoGap(s: System) {
    forall ch, j: nat | IsLive(s, ch) && ToOffer(s.subs[ch], j) && j < |Log(s, s.subs[ch].topic)| ::
      Captured(s.subs[ch], j) || Owed(s, s.subs[ch].topic, j, ch)
  }

  ghost predicate Inv(s: System) {
    ChannelsOk(s) && HistoryExact(s) && PubsOk(s) && SubsOk(s) && NotEarly(s) && NoGap(s)
  }

  lemma SameClientsSound(st: State, st': State)
    requires Sound(st) && st'.clients == st.clients && st'.chans.Keys == st.chans.Keys
    requires forall ch :: ch in st.chans ==>
      st'.chans[ch].closed == st.chans[ch].closed && |st'.chans[ch].buf| <= CAPACITY
    requires forall topic :: topic in st'.history ==> 0 < |st'.history[topic]| <= MAX_HISTORY
    ensures Sound(st')
  {
    forall ch | ch in st'.chans && !st'.chans[ch].closed
      ensures Registered(st', ch)
    {
      var t :| t in st.clients && ch in st.clients[t];
      assert t in st'.clients && ch in st'.clients[t];
    }
  }

  lemma SendKeepsChannels(s: System, p: PubId, ch: ChanId)
    requires ChannelsOk(s) && PubsOk(s) && Enabled(s, Send(p, ch))
    ensures ChannelsOk(Next(s, Send(p, ch)))
  {
    assert ch in Clients(s.broker, s.pubs[p].topic);
    SameClientsSound(s.broker, Next(s, Send(p, ch)).broker);
  }

  lemma SubscribeKeepsChannels(s: System, topic: Topic, ch: ChanId)
    requires ChannelsOk(s) && Enabled(s, Subscribe(topic, ch))
    ensures ChannelsOk(Next(s, Subscribe(topic, ch)))
  {
    hide Sound, NoReaders, PendingIdxs, Log;
    SubscribedSound(s.broker, topic, ch);
    MembersOpen(s.broker);
  }

  lemma MembersOpen(st: State)
    requires Sound(st)
    ensures forall topic, ch :: topic in st.clients && ch in st.clients[topic] ==> ch in st.chans
  {
  }

  lemma UnsubscribeKeepsChannels(s: System, ch: ChanId)
    requires ChannelsOk(s) && Enabled(s, Unsubscribe(ch))
    ensures ChannelsOk(Next(s, Unsubscribe(ch)))
  {
    UnsubscribedSound(s.broker, s.subs[ch].topic, ch);
  }

  lemma CloseKeepsChannels(s: System)
    requires ChannelsOk(s) && Enabled(s, CloseBroker)
    ensures ChannelsOk(Next(s, CloseBroker))
  {
    ClosedSound(s.broker);
  }

  lemma ChannelsKept(s: System, a: Action)
    requires ChannelsOk(s) && PubsOk(s) && Enabled(s, a)
    ensures ChannelsOk(Next(s, a))
  {
    match a
    case Subscribe(topic, ch) => SubscribeKeepsChannels(s, topic, ch);
    case Unsubscribe(ch) => UnsubscribeKeepsChannels(s, ch);
    case Send(p, ch) => SendKeepsChannels(s, p, ch);
    case CloseBroker => CloseKeepsChannels(s);
    case Append(_, _, _) => SameClientsSound(s.broker, Next(s, a).broker);
    case Receive(_) => SameClientsSound(s.broker, Next(s, a).broker);
    case ReadHistory(_) =>
    case BeginDelivery(_) =>
    case EndDelivery(_) =>
  }

  lemma AppendKeepsHistory(s: System, p: PubId, topic: Topic, event: Event)
    requires HistoryExact(s) && Enabled(s, Append(p, topic, event))
    ensures HistoryExact(Next(s, Append(p, topic, event)))
  {
    hide LastN, NoReaders;
    var log, kept := Log(s, topic), History(s.broker, topic);
    LastOfNone();
    assert kept == LastN(log, MAX_HISTORY);
    LastAppended(log, event);
  }

  lemma LastOfNone()
    ensures LastN<Event>([], MAX_HISTORY) == []
  {
  }

  lemma LastAppended(log: seq<Event>, event: Event)
    ensures LastN(LastN(log, MAX_HISTORY) + [event], MAX_HISTORY) == LastN(log + [event], MAX_HISTORY)
  {
  }

  lemma SameHistory(s: System, a: Action)
    requires Enabled(s, a) && !a.Append?
    ensures Next(s, a).log == s.log && Next(s, a).broker.history == s.broker.history
  {
    hide Offered, Shut;
  }

  lemma HistoryKept(s: System, a: Action)
    requires HistoryExact(s) && Enabled(s, a)
    ensures HistoryExact(Next(s, a))
  {
    hide Next, LastN;
    if a.Append? {
      AppendKeepsHistory(s, a.pub, a.topic, a.event);
    } else {
      SameHistory(s, a);
    }
  }

  lemma SendKeepsPubs(s: System, p: PubId, ch: ChanId)
    requires PubsOk(s) && Enabled(s, Send(p, ch))
    ensures PubsOk(Next(s, Send(p, ch)))
  {
    hide Offered;
  }

  lemma AppendKeepsPubs(s: System, p: PubId, topic: Topic, event: Event)
    requires PubsOk(s) && Enabled(s, Append(p, topic, event))
    ensures PubsOk(Next(s, Append(p, topic, event)))
  {
    hide LastN;
  }

  lemma PubsKept(s: System, a: Action)
    requires PubsOk(s) && Enabled(s, a)
    ensures PubsOk(Next(s, a))
  {
    if a.Append? {
      AppendKeepsPubs(s, a.pub, a.topic, a.event);
    } else if a.Send? {
      SendKeepsPubs(s, a.pub, a.ch);
    } else {
      hide Offered, LastN, Shut;
    }
  }

  // ---- Subscriptions ----

  function Received(sub: Sub, event: Event): Sub {
    sub.(received := sub.received + [event])
  }

  function Offer(sub: Sub, buf: seq<Event>, idx: nat): Sub {
    if |buf| < CAPACITY then sub.(idxs := sub.idxs + [idx]) else sub.(dropped := sub.dropped[idx := |buf|])
  }

  lemma OfferOk(sub: Sub, log: seq<Event>, chan: Channel, idx: nat)
    requires StreamOk(sub, log, chan.buf) && |chan.buf| <= CAPACITY
    requires idx < |log| && !Captured(sub, idx) && ToOffer(sub, idx)
    ensures StreamOk(Offer(sub, chan.buf, idx), log, Offered(chan, log[idx]).buf)
  {
    if |chan.buf| < CAPACITY {
      OfferTaken(sub, log, chan.buf, idx);
    }
  }

  lemma OfferTaken(sub: Sub, log: seq<Event>, buf: seq<Event>, idx: nat)
    requires StreamOk(sub, log, buf) && idx < |log| && !Captured(sub, idx) && ToOffer(sub, idx)
    ensures StreamOk(sub.(idxs := sub.idxs + [idx]), log, buf + [log[idx]])
  {
    var sub' := sub.(idxs := sub.idxs + [idx]);
    forall j | j in sub'.idxs || j in sub'.dropped ensures ToOffer(sub', j) {
      assert ToOffer(sub, j);
    }
  }

  // A step that leaves a subscription, its log and its channel alone.
  lemma Untouched(s: System, s': System, ch: ChanId)
    requires ch in s.subs && ch in s.broker.chans && SubOk(s, ch)
    requires ch in s'.subs && ch in s'.broker.chans && s'.subs[ch] == s.subs[ch] && s'.log == s.log
    requires s'.broker.chans[ch].buf == s.broker.chans[ch].buf
    ensures SubOk(s', ch)
  {
  }

  lemma ReceiveOk(sub: Sub, log: seq<Event>, buf: seq<Event>)
    requires StreamOk(sub, log, buf) && buf != []
    ensures StreamOk(Received(sub, buf[0]), log, buf[1..])
  {
  }

  lemma AppendOk(sub: Sub, log: seq<Event>, buf: seq<Event>, event: Event)
    requires StreamOk(sub, log, buf) && SnapshotOk(sub, log)
    ensures StreamOk(sub, log + [event], buf) && SnapshotOk(sub, log + [event])
  {
    if sub.snapAt.Some? {
      assert (log + [event])[..sub.snapAt.value] == log[..sub.snapAt.value];
    }
  }

  lemma SendOwes(s: System, p: PubId, ch: ChanId)
    requires ChannelsOk(s) && PubsOk(s) && Enabled(s, Send(p, ch))
    ensures ch in Clients(s.broker, s.pubs[p].topic) && s.subs[ch].topic == s.pubs[p].topic
    ensures Owes(s.pubs[p], s.subs[ch].topic, s.pubs[p].idx, ch)
    ensures |s.broker.chans[ch].buf| <= CAPACITY
    ensures Next(s, Send(p, ch)).subs == s.subs[ch := Offer(s.subs[ch], s.broker.chans[ch].buf, s.pubs[p].idx)]
  {
  }

  lemma SendKeepsSub(s: System, p: PubId, ch: ChanId)
    requires ChannelsOk(s) && PubsOk(s) && Enabled(s, Send(p, ch)) && SubOk(s, ch) && NotEarly(s)
    ensures ch in Next(s, Send(p, ch)).subs && ch in Next(s, Send(p, ch)).broker.chans
    ensures SubOk(Next(s, Send(p, ch)), ch)
  {
    hide Sound, StreamOk, ToOffer, Captured;
    SendOwes(s, p, ch);
    OfferOk(s.subs[ch], Log(s, s.subs[ch].topic), s.broker.chans[ch], s.pubs[p].idx);
  }

  lemma SendKeepsSubs(s: System, p: PubId, ch: ChanId)
    requires ChannelsOk(s) && PubsOk(s) && SubsOk(s) && NotEarly(s) && Enabled(s, Send(p, ch))
    ensures Next(s, Send(p, ch)).subs.Keys == Next(s, Send(p, ch)).broker.chans.Keys
    ensures SubsOk(Next(s, Send(p, ch)))
  {
    hide SubOk, Sound, NotEarly, PubsOk, Offered;
    var s' := Next(s, Send(p, ch));
    SendKeepsSub(s, p, ch);
    forall c | c in s'.subs && c != ch ensures SubOk(s', c) {
      Untouched(s, s', c);
    }
  }

  lemma ReceiveKeepsSub(s: System, ch: ChanId)
    requires s.subs.Keys == s.broker.chans.Keys && Enabled(s, Receive(ch)) && SubOk(s, ch)
    ensures SubOk(Next(s, Receive(ch)), ch)
  {
    ReceiveOk(s.subs[ch], Log(s, s.subs[ch].topic), s.broker.chans[ch].buf);
  }

  lemma ReceiveKeepsSubs(s: System, ch: ChanId)
    requires s.subs.Keys == s.broker.chans.Keys && SubsOk(s) && Enabled(s, Receive(ch))
    ensures Next(s, Receive(ch)).subs.Keys == Next(s, Receive(ch)).broker.chans.Keys
    ensures SubsOk(Next(s, Receive(ch)))
  {
    hide SubOk;
    var s' := Next(s, Receive(ch));
    forall c | c in s'.subs ensures SubOk(s', c) {
      if c == ch {
        ReceiveKeepsSub(s, ch);
      } else {
        Untouched(s, s', c);
      }
    }
  }

  lemma AppendKeepsSub(s: System, p: PubId, topic: Topic, event: Event, ch: ChanId)
    requires Enabled(s, Append(p, topic, event)) && ch in s.subs && ch in s.broker.chans && SubOk(s, ch)
    ensures ch in Next(s, Append(p, topic, event)).subs && ch in Next(s, Append(p, topic, event)).broker.chans
    ensures SubOk(Next(s, Append(p, topic, event)), ch)
  {
    hide StreamOk, SnapshotOk, LastN;
    AppendOk(s.subs[ch], Log(s, s.subs[ch].topic), s.broker.chans[ch].buf, event);
  }

  lemma AppendKeepsSubs(s: System, p: PubId, topic: Topic, event: Event)
    requires s.subs.Keys == s.broker.chans.Keys && SubsOk(s) && Enabled(s, Append(p, topic, event))
    ensures SubsOk(Next(s, Append(p, topic, event)))
  {
    hide SubOk;
    var s' := Next(s, Append(p, topic, event));
    forall ch | ch in s'.subs ensures SubOk(s', ch) {
      AppendKeepsSub(s, p, topic, event, ch);
    }
  }

  lemma ReadHistoryKeepsSub(s: System, ch: ChanId)
    requires s.subs.Keys == s.broker.chans.Keys && HistoryExact(s) && Enabled(s, ReadHistory(ch)) && SubOk(s, ch)
    ensures SubOk(Next(s, ReadHistory(ch)), ch)
  {
    hide StreamOk;
    var log := Log(s, s.subs[ch].topic);
    assert log[..|log|] == log;
    assert History(s.broker, s.subs[ch].topic) == LastN(log, MAX_HISTORY);
    SnapshotOnly(s.subs[ch], |log|, LastN(log, MAX_HISTORY), log, s.broker.chans[ch].buf);
  }

  lemma SnapshotOnly(sub: Sub, n: nat, replay: seq<Event>, log: seq<Event>, buf: seq<Event>)
    requires StreamOk(sub, log, buf)
    ensures StreamOk(sub.(snapAt := Some(n), replay := replay), log, buf)
  {
  }

  lemma ReadHistoryKeepsSubs(s: System, ch: ChanId)
    requires s.subs.Keys == s.broker.chans.Keys && HistoryExact(s) && SubsOk(s) && Enabled(s, ReadHistory(ch))
    ensures SubsOk(Next(s, ReadHistory(ch)))
  {
    hide SubOk, HistoryExact;
    var s' := Next(s, ReadHistory(ch));
    ReadHistoryKeepsSub(s, ch);
    forall c | c in s'.subs && c != ch ensures SubOk(s', c) {
      Untouched(s, s', c);
    }
  }

  lemma SubscribeKeepsSubs(s: System, topic: Topic, ch: ChanId)
    requires ChannelsOk(s) && PubsOk(s) && SubsOk(s) && Enabled(s, Subscribe(topic, ch))
    ensures SubsOk(Next(s, Subscribe(topic, ch)))
  {
    hide SubOk, Sound, NoReaders;
    var s' := Next(s, Subscribe(topic, ch));
    NewSubOk(s, topic, ch);
    forall c | c in s'.subs && c != ch ensures SubOk(s', c) {
      Untouched(s, s', c);
    }
  }

  lemma NewSubOk(s: System, topic: Topic, ch: ChanId)
    requires PubsOk(s) && Enabled(s, Subscribe(topic, ch))
    ensures ch in Next(s, Subscribe(topic, ch)).subs && ch in Next(s, Subscribe(topic, ch)).broker.chans
    ensures SubOk(Next(s, Subscribe(topic, ch)), ch)
  {
  }

  lemma ShutKeepsSub(s: System, a: Action, ch: ChanId)
    requires Enabled(s, a) && (a.Unsubscribe? || a.CloseBroker?)
    requires ch in s.subs && ch in s.broker.chans && SubOk(s, ch)
    ensures ch in Next(s, a).subs && ch in Next(s, a).broker.chans && SubOk(Next(s, a), ch)
  {
  }

  lemma ShutKeepsKeys(s: System, a: Action)
    requires s.subs.Keys == s.broker.chans.Keys && Enabled(s, a) && (a.Unsubscribe? || a.CloseBroker?)
    ensures Next(s, a).subs == s.subs && Next(s, a).subs.Keys == Next(s, a).broker.chans.Keys
  {
  }

  lemma ShutKeepsSubs(s: System, a: Action)
    requires s.subs.Keys == s.broker.chans.Keys && SubsOk(s) && Enabled(s, a) && (a.Unsubscribe? || a.CloseBroker?)
    ensures Next(s, a).subs.Keys == Next(s, a).broker.chans.Keys
    ensures SubsOk(Next(s, a))
  {
    hide SubOk, Next;
    ShutKeepsKeys(s, a);
    forall ch | ch in s.subs ensures SubOk(Next(s, a), ch) {
      ShutKeepsSub(s, a, ch);
    }
  }

  lemma ChannelsMatch(s: System)
    requires ChannelsOk(s)
    ensures s.subs.Keys == s.broker.chans.Keys
  {
  }

  lemma DeliveryKeepsSubs(s: System, a: Action)
    requires s.subs.Keys == s.broker.chans.Keys && SubsOk(s) && Enabled(s, a) && (a.BeginDelivery? || a.EndDelivery?)
    ensures Next(s, a).subs.Keys == Next(s, a).broker.chans.Keys
    ensures SubsOk(Next(s, a))
  {
    hide SubOk;
    forall ch | ch in Next(s, a).subs ensures SubOk(Next(s, a), ch) {
      Untouched(s, Next(s, a), ch);
    }
  }

  lemma SubsKept(s: System, a: Action)
    requires ChannelsOk(s) && HistoryExact(s) && PubsOk(s) && SubsOk(s) && NotEarly(s) && Enabled(s, a)
    ensures Next(s, a).subs.Keys == Next(s, a).broker.chans.Keys
    ensures SubsOk(Next(s, a))
  {
    hide SubOk, ChannelsOk, HistoryExact, PubsOk, NotEarly;
    ChannelsMatch(s);
    match a
    case Subscribe(topic, ch) => SubscribeKeepsSubs(s, topic, ch);
    case ReadHistory(ch) => ReadHistoryKeepsSubs(s, ch);
    case Receive(ch) => ReceiveKeepsSubs(s, ch);
    case Append(p, topic, event) => AppendKeepsSubs(s, p, topic, event);
    case Send(p, ch) => SendKeepsSubs(s, p, ch);
    case Unsubscribe(_) => ShutKeepsSubs(s, a);
    case CloseBroker => ShutKeepsSubs(s, a);
    case BeginDelivery(_) => DeliveryKeepsSubs(s, a);
    case EndDelivery(_) => DeliveryKeepsSubs(s, a);
  }

  // ---- Nothing early, nothing missed ----

  // The next event of the log is new to every subscription.
  lemma NextIsNew(s: System, ch: ChanId)
    requires ch in s.subs && ch in s.broker.chans && SubOk(s, ch)
    ensures var n := |Log(s, s.subs[ch].topic)|; !Captured(s.subs[ch], n) && ToOffer(s.subs[ch], n)
  {
  }

  lemma AppendKeepsNotEarly(s: System, p: PubId, topic: Topic, event: Event)
    requires ChannelsOk(s) && PubsOk(s) && SubsOk(s) && NotEarly(s) && Enabled(s, Append(p, topic, event))
    ensures NotEarly(Next(s, Append(p, topic, event)))
  {
    hide SubOk, Sound, PubsOk, Captured, ToOffer, Appended;
    var s' := Next(s, Append(p, topic, event));
    forall q, ch | q in s'.pubs && ch in s'.subs && Owes(s'.pubs[q], s'.subs[ch].topic, s'.pubs[q].idx, ch)
      ensures !Captured(s'.subs[ch], s'.pubs[q].idx) && ToOffer(s'.subs[ch], s'.pubs[q].idx)
    {
      if q != p {
        assert Owes(s.pubs[q], s.subs[ch].topic, s.pubs[q].idx, ch);
      } else {
        NextIsNew(s, ch);
      }
    }
  }

  lemma SendKeepsNotEarly(s: System, p: PubId, ch: ChanId)
    requires ChannelsOk(s) && PubsOk(s) && NotEarly(s) && Enabled(s, Send(p, ch))
    ensures NotEarly(Next(s, Send(p, ch)))
  {
    var s' := Next(s, Send(p, ch));
    SendOwes(s, p, ch);
    forall q, c | q in s'.pubs && c in s'.subs && Owes(s'.pubs[q], s'.subs[c].topic, s'.pubs[q].idx, c)
      ensures !Captured(s'.subs[c], s'.pubs[q].idx) && ToOffer(s'.subs[c], s'.pubs[q].idx)
    {
      assert Owes(s.pubs[q], s.subs[c].topic, s.pubs[q].idx, c);
    }
  }

  lemma OtherKeepsNotEarly(s: System, a: Action)
    requires ChannelsOk(s) && PubsOk(s) && NotEarly(s) && Enabled(s, a) && !a.Append? && !a.Send? && !a.Subscribe?
    ensures NotEarly(Next(s, a))
  {
    var s' := Next(s, a);
    forall q, ch | q in s'.pubs && ch in s'.subs && Owes(s'.pubs[q], s'.subs[ch].topic, s'.pubs[q].idx, ch)
      ensures !Captured(s'.subs[ch], s'.pubs[q].idx) && ToOffer(s'.subs[ch], s'.pubs[q].idx)
    {
      assert Owes(s.pubs[q], s.subs[ch].topic, s.pubs[q].idx, ch);
    }
  }

  lemma SubscribeKeepsNotEarly(s: System, topic: Topic, ch: ChanId)
    requires ChannelsOk(s) && PubsOk(s) && NotEarly(s) && Enabled(s, Subscribe(topic, ch))
    ensures NotEarly(Next(s, Subscribe(topic, ch)))
  {
    var s' := Next(s, Subscribe(topic, ch));
    forall q, c | q in s'.pubs && c in s'.subs && Owes(s'.pubs[q], s'.subs[c].topic, s'.pubs[q].idx, c)
      ensures !Captured(s'.subs[c], s'.pubs[q].idx) && ToOffer(s'.subs[c], s'.pubs[q].idx)
    {
      if c != ch {
        assert Owes(s.pubs[q], s.subs[c].topic, s.pubs[q].idx, c);
      }
    }
  }

  lemma NotEarlyKept(s: System, a: Action)
    requires ChannelsOk(s) && PubsOk(s) && SubsOk(s) && NotEarly(s) && Enabled(s, a)
    ensures NotEarly(Next(s, a))
  {
    match a
    case Append(p, topic, event) => AppendKeepsNotEarly(s, p, topic, event);
    case Send(p, ch) => SendKeepsNotEarly(s, p, ch);
    case Subscribe(topic, ch) => SubscribeKeepsNotEarly(s, topic, ch);
    case _ => OtherKeepsNotEarly(s, a);
  }

  // Whoever still owed an event to a live channel before the step still does after
  // it, unless the step hands it over.
  lemma OwedKept(s: System, a: Action, ch: ChanId, idx: nat)
    requires ChannelsOk(s) && PubsOk(s) && Enabled(s, a)
    requires ch in s.subs && Owed(s, s.subs[ch].topic, idx, ch) && ch in Clients(s.broker, s.subs[ch].topic)
    ensures var s' := Next(s, a);
            ch in s'.subs && (Captured(s'.subs[ch], idx) || Owed(s', s.subs[ch].topic, idx, ch))
  {
    hide Sound, Offered, Subscribed, Unsubscribed, Appended, Closed;
    var s' := Next(s, a);
    var p :| p in s.pubs && Owes(s.pubs[p], s.subs[ch].topic, idx, ch);
    if a.Send? && a.pub == p && a.ch == ch {
      SendOwes(s, p, ch);
    } else {
      assert !(a.EndDelivery? && a.pub == p);
      assert p in s'.pubs && Owes(s'.pubs[p], s.subs[ch].topic, idx, ch);
    }
  }

  lemma NoGapKept(s: System, a: Action)
    requires ChannelsOk(s) && PubsOk(s) && NoGap(s) && Enabled(s, a)
    ensures NoGap(Next(s, a))
  {
    var s' := Next(s, a);
    forall ch, j: nat | IsLive(s', ch) && ToOffer(s'.subs[ch], j) && j < |Log(s', s'.subs[ch].topic)|
      ensures Captured(s'.subs[ch], j) || Owed(s', s'.subs[ch].topic, j, ch)
    {
      if a.Subscribe? && a.ch == ch {
        var p :| p in s.pubs && s.pubs[p].topic == a.topic && s.pubs[p].idx == j;
        assert p in s'.pubs && Owes(s'.pubs[p], a.topic, j, ch);
      } else if j == |Log(s, s.subs[ch].topic)| {
        assert a.pub in s'.pubs && Owes(s'.pubs[a.pub], s.subs[ch].topic, j, ch);
      } else {
        assert IsLive(s, ch);
        if Owed(s, s.subs[ch].topic, j, ch) {
          OwedKept(s, a, ch, j);
        }
      }
    }
  }

  lemma InvStep(s: System, a: Action)
    requires Inv(s)
    ensures Inv(Step(s, a))
  {
    hide ChannelsOk, HistoryExact, PubsOk, SubsOk, NotEarly, NoGap, Next;
    ChannelsMatch(s);
    if Enabled(s, a) {
      ChannelsKept(s, a);
      HistoryKept(s, a);
      PubsKept(s, a);
      SubsKept(s, a);
      NotEarlyKept(s, a);
      NoGapKept(s, a);
    }
  }

  lemma {:induction false} Invariant(actions: seq<Action>)
    ensures Inv(Exec(INITIAL, actions))
    decreases |actions|
  {
    if actions != [] {
      var init, a := actions[..|actions| - 1], actions[|actions| - 1];
      Invariant(init);
      InvStep(Exec(INITIAL, init), a);
    }
  }

  lemma ExecAppend(actions: seq<Action>, a: Action)
    ensures Exec(INITIAL, actions + [a]) == Step(Exec(INITIAL, actions), a)
  {
    assert (actions + [a])[..|actions|] == actions;
  }

  // ---- What holds of every interleaving ----

  /** No closed channel is ever sent to or closed again: the registered channels
      are exactly the open ones. The history of a topic is always the last fifty
      of all the events appended to it, in order. */
  lemma ChannelSafety(actions: seq<Action>)
    ensures var s := Exec(INITIAL, actions);
            && !s.panicked
            && (forall ch :: ch in s.broker.chans ==> (!s.broker.chans[ch].closed <==> Registered(s.broker, ch)))
            && (forall topic ::
                  var log := Log(s, topic);
                  History(s.broker, topic) == if |log| > 50 then log[|log| - 50..] else log)
  {
    Invariant(actions);
  }

  function ReplayStart(n: nat): nat {
    if n > MAX_HISTORY then n - MAX_HISTORY else 0
  }

  /** The handover has no gap. The replay is exactly the last fifty events at the
      history read. The channel has been offered exactly the events appended after
      the subscription or still undelivered at that moment: each was enqueued, or was
      refused by a full channel, or is still on its way. So every event since the start
      of the replay is in the replay, or in the stream, or was refused with 64 unread,
      or is on its way. */
  lemma NoGapHandover(actions: seq<Action>, ch: ChanId)
    requires var s := Exec(INITIAL, actions); ch in s.subs && s.subs[ch].snapAt.Some?
    ensures var s := Exec(INITIAL, actions);
            var sub := s.subs[ch];
            var log, n := Log(s, sub.topic), sub.snapAt.value;
            var start := if n > 50 then n - 50 else 0;
            && sub.subAt <= n <= |log|
            && sub.replay == log[start..n]
            && (forall j :: j in sub.dropped ==> sub.dropped[j] == 64)
            && (forall j: nat :: Captured(sub, j) ==> ToOffer(sub, j) && j < |log| && !Owed(s, sub.topic, j, ch))
            && (IsLive(s, ch) ==>
                  forall j: nat | j < |log| && ToOffer(sub, j) :: Captured(sub, j) || Owed(s, sub.topic, j, ch))
            && (IsLive(s, ch) ==> forall j: nat | start <= j < |log| ::
                  j < n || Captured(sub, j) || Owed(s, sub.topic, j, ch))
  {
    hide Exec, Sound, HistoryExact, PubsOk;
    Invariant(actions);
    var s := Exec(INITIAL, actions);
    assert SubOk(s, ch);
    var sub := s.subs[ch];
    var log, n := Log(s, sub.topic), sub.snapAt.value;
    assert LastN(log[..n], MAX_HISTORY) == log[ReplayStart(n)..n];
  }

  function Events(log: seq<Event>, idxs: seq<nat>): seq<Event>
    requires forall i :: 0 <= i < |idxs| ==> idxs[i] < |log|
  {
    seq(|idxs|, i requires 0 <= i < |idxs| => log[idxs[i]])
  }

  /** The channel neither loses, repeats nor alters an event: what was received
      followed by what is still buffered is what was enqueued, each event once. */
  lemma StreamExact(actions: seq<Action>, ch: ChanId)
    requires ch in Exec(INITIAL, actions).subs
    ensures var s := Exec(INITIAL, actions);
            var sub, log := s.subs[ch], Log(s, s.subs[ch].topic);
            && ch in s.broker.chans
            && |sub.received| <= |sub.idxs|
            && (forall i :: 0 <= i < |sub.idxs| ==> sub.idxs[i] < |log|)
            && sub.received == Events(log, sub.idxs[..|sub.received|])
            && s.broker.chans[ch].buf == Events(log, sub.idxs[|sub.received|..])
            && (forall i, j :: 0 <= i < j < |sub.idxs| ==> sub.idxs[i] != sub.idxs[j])
  {
    hide Exec, Sound, HistoryExact, PubsOk, NotEarly, NoGap, SnapshotOk, ToOffer;
    Invariant(actions);
    var s := Exec(INITIAL, actions);
    assert SubOk(s, ch);
  }

  /** The same subscription with a longer stream: what was captured stays captured, the
      replay is never touched, and an ended subscription does not come back. */
  ghost predicate Continued(s: System, s': System, ch: ChanId) {
    && ch in s.subs && ch in s'.subs
    && s'.subs[ch].topic == s.subs[ch].topic && s'.subs[ch].subAt == s.subs[ch].subAt
    && s.subs[ch].idxs <= s'.subs[ch].idxs && s.subs[ch].received <= s'.subs[ch].received
    && (forall j :: j in s.subs[ch].dropped ==> j in s'.subs[ch].dropped)
    && Log(s, s.subs[ch].topic) <= Log(s', s.subs[ch].topic)
    && (s.subs[ch].snapAt.Some? ==>
          s'.subs[ch].snapAt == s.subs[ch].snapAt && s'.subs[ch].replay == s.subs[ch].replay)
    && (IsLive(s', ch) ==> IsLive(s, ch))
  }

  /** Later steps only extend a subscription's stream. */
  lemma {:induction false} StreamGrows(actions: seq<Action>, more: seq<Action>, ch: ChanId)
    requires ch in Exec(INITIAL, actions).subs
    ensures Continued(Exec(INITIAL, actions), Exec(INITIAL, actions + more), ch)
    decreases |more|
  {
    if more == [] {
      assert actions + more == actions;
    } else {
      var init, a := more[..|more| - 1], more[|more| - 1];
      StreamGrows(actions, init, ch);
      assert actions + more == (actions + init) + [a];
      ExecAppend(actions + init, a);
      Invariant(actions + init);
      hide Inv, Exec, Step;
      ChannelsMatchInv(Exec(INITIAL, actions + init));
      GrowsByStep(Exec(INITIAL, actions + init), a, ch);
      ContinuedOn(Exec(INITIAL, actions), Exec(INITIAL, actions + init), Exec(INITIAL, actions + more), ch);
    }
  }

  lemma ChannelsMatchInv(s: System)
    requires Inv(s)
    ensures s.subs.Keys == s.broker.chans.Keys
  {
  }

  lemma ContinuedOn(s: System, s': System, s'': System, ch: ChanId)
    requires Continued(s, s', ch) && Continued(s', s'', ch)
    ensures Continued(s, s'', ch)
  {
  }

  lemma GrowsByStep(s: System, a: Action, ch: ChanId)
    requires s.subs.Keys == s.broker.chans.Keys && ch in s.subs
    ensures Continued(s, Step(s, a), ch)
  {
    hide Next, Continued;
    if !Enabled(s, a) {
      ContinuedSame(s, ch);
    } else if a.Send? || a.Receive? || a.ReadHistory? {
      GrowsOwn(s, a, ch);
    } else {
      GrowsOther(s, a, ch);
    }
  }

  lemma ContinuedSame(s: System, ch: ChanId)
    requires ch in s.subs
    ensures Continued(s, s, ch)
  {
  }

  lemma GrowsOwn(s: System, a: Action, ch: ChanId)
    requires s.subs.Keys == s.broker.chans.Keys && ch in s.subs && Enabled(s, a)
    requires a.Send? || a.Receive? || a.ReadHistory?
    ensures Continued(s, Next(s, a), ch)
  {
    hide Offered, NoReaders;
  }

  lemma GrowsOther(s: System, a: Action, ch: ChanId)
    requires s.subs.Keys == s.broker.chans.Keys && ch in s.subs && Enabled(s, a)
    requires !a.Send? && !a.Receive? && !a.ReadHistory?
    ensures Continued(s, Next(s, a), ch)
  {
    hide LastN, Shut, NoReaders, PendingIdxs;
  }

  // ---- One publisher at a time on a topic ----

  /** Every append to the topic finds the previous publication of that topic finished. */
  ghost predicate Serial(actions: seq<Action>, topic: Topic) {
    forall i :: 0 <= i < |actions| && actions[i].Append? && actions[i].topic == topic ==>
      NoneInFlight(Exec(INITIAL, actions[..i]), topic)
  }

  predicate NoneInFlight(s: System, topic: Topic) {
    forall p :: p in s.pubs ==> s.pubs[p].topic != topic
  }

  // Where the stream starts: one earlier if an event was still undelivered then.
  function First(sub: Sub): int {
    if sub.owedAtSub == {} then sub.subAt else sub.subAt - 1
  }

  ghost predicate SerialPubs(s: System, topic: Topic) {
    && (forall p, q :: p in s.pubs && q in s.pubs && s.pubs[p].topic == topic && s.pubs[q].topic == topic ==> p == q)
    && (forall p :: p in s.pubs && s.pubs[p].topic == topic ==> s.pubs[p].idx == |Log(s, topic)| - 1)
  }

  ghost predicate SerialSub(s: System, ch: ChanId)
    requires ch in s.subs
  {
    var sub := s.subs[ch];
    var last := |Log(s, sub.topic)| - 1;
    && 0 <= First(sub)
    && (forall i, j :: 0 <= i < j < |sub.idxs| ==> sub.idxs[i] < sub.idxs[j])
    && (sub.dropped == map[] ==> forall i :: 0 <= i < |sub.idxs| ==> sub.idxs[i] == First(sub) + i)
    && (sub.dropped == map[] && IsLive(s, ch) ==>
          First(sub) + |sub.idxs| == if last >= 0 && Owed(s, sub.topic, last, ch) then last else last + 1)
  }

  ghost predicate SerialInv(s: System, topic: Topic) {
    SerialPubs(s, topic) && forall ch :: ch in s.subs && s.subs[ch].topic == topic ==> SerialSub(s, ch)
  }

  lemma SerialPubsKept(s: System, a: Action, topic: Topic)
    requires Enabled(s, a) && SerialPubs(s, topic)
    requires a.Append? && a.topic == topic ==> NoneInFlight(s, topic)
    ensures SerialPubs(Next(s, a), topic)
  {
  }

  // What is sent is the last event of the log, and new to the channel.
  lemma SendIsLast(s: System, p: PubId, ch: ChanId)
    requires ChannelsOk(s) && PubsOk(s) && SubsOk(s) && NotEarly(s) && Enabled(s, Send(p, ch))
    requires SerialPubs(s, s.subs[ch].topic)
    ensures var sub, log := s.subs[ch], Log(s, s.subs[ch].topic);
            && s.pubs[p].idx == |log| - 1 && !Captured(sub, |log| - 1)
            && StreamOk(sub, log, s.broker.chans[ch].buf)
            && IsLive(s, ch) && Owed(s, sub.topic, |log| - 1, ch)
            && Next(s, Send(p, ch)).subs[ch] == Offer(sub, s.broker.chans[ch].buf, |log| - 1)
            && Log(Next(s, Send(p, ch)), sub.topic) == log
  {
    hide Sound, SnapshotOk, StreamOk, Captured;
    SendOwes(s, p, ch);
    assert SubOk(s, ch);
  }

  lemma SendKeepsSerial(s: System, p: PubId, ch: ChanId)
    requires ChannelsOk(s) && PubsOk(s) && SubsOk(s) && NotEarly(s) && Enabled(s, Send(p, ch))
    requires SerialPubs(s, s.subs[ch].topic) && SerialSub(s, ch)
    ensures ch in Next(s, Send(p, ch)).subs && SerialSub(Next(s, Send(p, ch)), ch)
  {
    hide Next, ChannelsOk, PubsOk, NotEarly, SubsOk, StreamOk, Captured, SerialPubs, Owed, IsLive;
    var s' := Next(s, Send(p, ch));
    SendOwes(s, p, ch);
    SendIsLast(s, p, ch);
    SendSettles(s, p, ch);
    OfferInOrder(s.subs[ch], Log(s, s.subs[ch].topic), s.broker.chans[ch].buf, s.pubs[p].idx);
  }

  lemma OfferInOrder(sub: Sub, log: seq<Event>, buf: seq<Event>, last: nat)
    requires StreamOk(sub, log, buf) && last == |log| - 1 && !Captured(sub, last)
    requires forall i, j :: 0 <= i < j < |sub.idxs| ==> sub.idxs[i] < sub.idxs[j]
    requires sub.dropped == map[] ==>
      First(sub) + |sub.idxs| == last && forall i :: 0 <= i < |sub.idxs| ==> sub.idxs[i] == First(sub) + i
    ensures var sub' := Offer(sub, buf, last);
            && (forall i, j :: 0 <= i < j < |sub'.idxs| ==> sub'.idxs[i] < sub'.idxs[j])
            && (sub'.dropped == map[] ==>
                  First(sub') + |sub'.idxs| == last + 1 && forall i :: 0 <= i < |sub'.idxs| ==>
                    sub'.idxs[i] == First(sub') + i)
  {
    forall i | 0 <= i < |sub.idxs| ensures sub.idxs[i] < last {
      assert sub.idxs[i] in sub.idxs;
    }
    if |buf| >= CAPACITY {
      assert last in Offer(sub, buf, last).dropped;
    }
  }

  // The only publication of the topic has now been offered to the channel.
  lemma SendSettles(s: System, p: PubId, ch: ChanId)
    requires ChannelsOk(s) && PubsOk(s) && Enabled(s, Send(p, ch)) && SerialPubs(s, s.subs[ch].topic)
    ensures forall idx: nat :: !Owed(Next(s, Send(p, ch)), s.subs[ch].topic, idx, ch)
  {
    SendOwes(s, p, ch);
  }

  lemma AppendKeepsSerial(s: System, p: PubId, topic: Topic, event: Event, ch: ChanId)
    requires Enabled(s, Append(p, topic, event)) && ch in s.subs && SerialSub(s, ch)
    requires s.subs[ch].topic == topic ==> NoneInFlight(s, topic)
    ensures SerialSub(Next(s, Append(p, topic, event)), ch)
  {
    var s' := Next(s, Append(p, topic, event));
    var sub := s.subs[ch];
    var last := |Log(s', sub.topic)| - 1;
    if sub.topic == topic {
      assert p in s'.pubs && Owes(s'.pubs[p], topic, last, ch);
    } else if last >= 0 && Owed(s, sub.topic, last, ch) {
      var q :| q in s.pubs && Owes(s.pubs[q], sub.topic, last, ch);
      assert q in s'.pubs && Owes(s'.pubs[q], sub.topic, last, ch);
    }
  }

  // A step that neither appends nor sends to the channel leaves what is owed alone.
  lemma OwedUnchanged(s: System, a: Action, ch: ChanId, idx: nat)
    requires ChannelsOk(s) && PubsOk(s) && Enabled(s, a) && ch in s.subs
    requires !a.Append? && !(a.Send? && a.ch == ch)
    requires ch in Clients(s.broker, s.subs[ch].topic)
    ensures Owed(s, s.subs[ch].topic, idx, ch) <==> Owed(Next(s, a), s.subs[ch].topic, idx, ch)
  {
    hide Sound, Offered, Subscribed, Unsubscribed, Appended, Closed;
    var s' := Next(s, a);
    if Owed(s, s.subs[ch].topic, idx, ch) {
      var p :| p in s.pubs && Owes(s.pubs[p], s.subs[ch].topic, idx, ch);
      assert !(a.EndDelivery? && a.pub == p);
      assert p in s'.pubs && Owes(s'.pubs[p], s.subs[ch].topic, idx, ch);
    }
    if Owed(s', s.subs[ch].topic, idx, ch) {
      var p :| p in s'.pubs && Owes(s'.pubs[p], s.subs[ch].topic, idx, ch);
      assert p in s.pubs && Owes(s.pubs[p], s.subs[ch].topic, idx, ch);
    }
  }

  lemma OtherKeepsSerial(s: System, a: Action, ch: ChanId)
    requires ChannelsOk(s) && PubsOk(s) && Enabled(s, a) && ch in s.subs && SerialSub(s, ch)
    requires !a.Append? && !(a.Send? && a.ch == ch) && !(a.Subscribe? && a.ch == ch)
    ensures ch in Next(s, a).subs && SerialSub(Next(s, a), ch)
  {
    hide Next, Log, Owed, IsLive, PubsOk, Enabled;
    ChannelsMatch(s);
    hide ChannelsOk;
    KeepsStream(s, a, ch);
    var s' := Next(s, a);
    var last := |Log(s, s.subs[ch].topic)| - 1;
    if IsLive(s', ch) && last >= 0 {
      assert ch in Clients(s.broker, s.subs[ch].topic) by {
        LiveMeans(s, ch);
      }
      OwedUnchanged(s, a, ch, last);
    }
  }

  lemma LiveMeans(s: System, ch: ChanId)
    requires IsLive(s, ch)
    ensures ch in s.subs && ch in Clients(s.broker, s.subs[ch].topic)
  {
  }

  // Only a send to the channel or its history read changes the subscription itself.
  lemma KeepsStream(s: System, a: Action, ch: ChanId)
    requires s.subs.Keys == s.broker.chans.Keys && Enabled(s, a) && ch in s.subs
    requires !a.Append? && !(a.Send? && a.ch == ch)
    ensures ch in Next(s, a).subs
    ensures var sub, sub' := s.subs[ch], Next(s, a).subs[ch];
            && sub'.topic == sub.topic && sub'.idxs == sub.idxs && sub'.dropped == sub.dropped
            && First(sub') == First(sub) && Log(Next(s, a), sub.topic) == Log(s, sub.topic)
    ensures IsLive(Next(s, a), ch) ==> IsLive(s, ch)
  {
    hide Offered, Shut, NoReaders;
  }

  lemma SubscribeKeepsSerial(s: System, topic: Topic, ch: ChanId)
    requires PubsOk(s) && SerialPubs(s, topic) && Enabled(s, Subscribe(topic, ch))
    ensures SerialSub(Next(s, Subscribe(topic, ch)), ch)
  {
    var s' := Next(s, Subscribe(topic, ch));
    var sub := s'.subs[ch];
    var last := |Log(s, topic)| - 1;
    if sub.owedAtSub != {} {
      var p :| p in s.pubs && s.pubs[p].topic == topic;
      assert p in s'.pubs && Owes(s'.pubs[p], topic, last, ch);
    } else {
      NonePending(s, topic);
    }
  }

  lemma NonePending(s: System, topic: Topic)
    requires PendingIdxs(s, topic) == {}
    ensures NoneInFlight(s, topic)
  {
    assert forall p :: p in s.pubs && s.pubs[p].topic == topic ==> s.pubs[p].idx in PendingIdxs(s, topic);
  }

  lemma SameTopic(s: System, a: Action, ch: ChanId)
    requires s.subs.Keys == s.broker.chans.Keys && Enabled(s, a) && ch in Next(s, a).subs
    ensures if a.Subscribe? && a.ch == ch then Next(s, a).subs[ch].topic == a.topic
            else ch in s.subs && Next(s, a).subs[ch].topic == s.subs[ch].topic
  {
    hide Offered, Appended, Unsubscribed, Subscribed, Closed;
  }

  lemma SerialKept(s: System, a: Action, topic: Topic)
    requires Inv(s) && Enabled(s, a) && SerialInv(s, topic)
    requires a.Append? && a.topic == topic ==> NoneInFlight(s, topic)
    ensures SerialInv(Next(s, a), topic)
  {
    hide Next, SerialSub, SerialPubs, ChannelsOk, HistoryExact, PubsOk, SubsOk, NotEarly, NoGap;
    ChannelsMatch(s);
    var s' := Next(s, a);
    SerialPubsKept(s, a, topic);
    forall ch | ch in s'.subs && s'.subs[ch].topic == topic ensures SerialSub(s', ch) {
      SameTopic(s, a, ch);
      match a
      case Subscribe(t, c) =>
        if c == ch {
          SubscribeKeepsSerial(s, t, ch);
        } else {
          OtherKeepsSerial(s, a, ch);
        }
      case Append(p, t, event) => AppendKeepsSerial(s, p, t, event, ch);
      case Send(p, c) =>
        if c == ch {
          SendKeepsSerial(s, p, ch);
        } else {
          OtherKeepsSerial(s, a, ch);
        }
      case _ => OtherKeepsSerial(s, a, ch);
    }
  }

  lemma {:induction false} SerialInvariant(actions: seq<Action>, topic: Topic)
    requires Serial(actions, topic)
    ensures SerialInv(Exec(INITIAL, actions), topic)
    decreases |actions|
  {
    if actions != [] {
      var init, a := actions[..|actions| - 1], actions[|actions| - 1];
      forall i | 0 <= i < |init| && init[i].Append? && init[i].topic == topic
        ensures NoneInFlight(Exec(INITIAL, init[..i]), topic)
      {
        assert init[..i] == actions[..i] && actions[i] == init[i];
      }
      SerialInvariant(init, topic);
      Invariant(init);
      if Enabled(Exec(INITIAL, init), a) {
        SerialKept(Exec(INITIAL, init), a, topic);
      }
    }
  }

  /** The first `k` entries of the stream are also in the replay; the replay and the
      other entries together are the log from the start of the replay to `end`. */
  ghost predicate Contiguous(sub: Sub, log: seq<Event>, n: nat, k: nat, end: nat) {
    && k <= |sub.idxs| && n <= end <= |log| <= end + 1
    && (forall i :: 0 <= i < |sub.idxs| ==> sub.idxs[i] < |log| && (sub.idxs[i] < n <==> i < k))
    && sub.replay + Events(log, sub.idxs[k..]) == log[ReplayStart(n)..end]
  }

  /** With one publisher at a time the live stream is in append order, and while
      nothing was refused it skips nothing: the replay followed by the stream's
      entries past the history read is one contiguous piece of the topic's log that
      lacks at most the event being delivered right now. */
  lemma SerialHandover(actions: seq<Action>, ch: ChanId)
    requires var s := Exec(INITIAL, actions);
             ch in s.subs && s.subs[ch].snapAt.Some? && Serial(actions, s.subs[ch].topic)
    ensures var s := Exec(INITIAL, actions);
            var sub, log := s.subs[ch], Log(s, s.subs[ch].topic);
            && (forall i, j :: 0 <= i < j < |sub.idxs| ==> sub.idxs[i] < sub.idxs[j] < |log|)
            && (sub.dropped == map[] && IsLive(s, ch) ==>
                  exists k, end :: Contiguous(sub, log, sub.snapAt.value, k, end))
  {
    hide Exec, Serial, Contiguous, IsLive, Owed, Captured, ToOffer;
    SerialInvariant(actions, Exec(INITIAL, actions).subs[ch].topic);
    NoGapHandover(actions, ch);
    StreamExact(actions, ch);
    var s := Exec(INITIAL, actions);
    var sub, log := s.subs[ch], Log(s, s.subs[ch].topic);
    assert SerialSub(s, ch);
    if sub.dropped == map[] && IsLive(s, ch) {
      ContiguousFrom(sub, log, sub.snapAt.value);
    }
  }

  lemma ContiguousFrom(sub: Sub, log: seq<Event>, n: nat)
    requires 0 <= First(sub) <= n <= |log| && sub.replay == log[ReplayStart(n)..n]
    requires |log| - 1 <= First(sub) + |sub.idxs| <= |log|
    requires forall i :: 0 <= i < |sub.idxs| ==> sub.idxs[i] == First(sub) + i
    ensures exists k, end :: Contiguous(sub, log, n, k, end)
  {
    var k, end := SplitAtSnapshot(sub.replay, log, sub.idxs, First(sub), ReplayStart(n), n);
    assert Contiguous(sub, log, n, k, end);
  }

  lemma SplitAtSnapshot(replay: seq<Event>, log: seq<Event>, idxs: seq<nat>, first: nat, lo: nat, n: nat)
    returns (k: nat, end: nat)
    requires lo <= n && first <= n <= |log| && replay == log[lo..n] && first + |idxs| <= |log|
    requires forall i :: 0 <= i < |idxs| ==> idxs[i] == first + i
    ensures k <= |idxs| && end == if n < first + |idxs| then first + |idxs| else n
    ensures forall i :: 0 <= i < |idxs| ==> (idxs[i] < n <==> i < k)
    ensures replay + Events(log, idxs[k..]) == log[lo..end]
  {
    k := if n - first < |idxs| then n - first else |idxs|;
    end := if n < first + |idxs| then first + |idxs| else n;
    assert Events(log, idxs[k..]) == log[n..end];
    assert log[lo..n] + log[n..end] == log[lo..end];
  }

  // ---- A delivery nobody interrupts is the broker's Deliver ----

  function SendAll(s: System, p: PubId, order: seq<ChanId>): System
    decreases |order|
  {
    if order == [] then s
    else Step(SendAll(s, p, order[..|order| - 1]), Send(p, order[|order| - 1]))
  }

  function Set(order: seq<ChanId>): set<ChanId> {
    set ch | ch in order
  }

  predicate Distinct(order: seq<ChanId>) {
    forall i, j :: 0 <= i < j < |order| ==> order[i] != order[j]
  }

  lemma SendEffect(s: System, p: PubId, ch: ChanId)
    requires s.subs.Keys == s.broker.chans.Keys && p in s.pubs && ch in s.subs
    requires s.pubs[p].Sending? && ch in s.pubs[p].todo && s.pubs[p].idx < |Log(s, s.pubs[p].topic)|
    ensures var s', pub := Step(s, Send(p, ch)), s.pubs[p];
            && s'.log == s.log && s'.subs.Keys == s'.broker.chans.Keys == s.subs.Keys
            && s'.pubs == s.pubs[p := Sending(pub.topic, pub.idx, pub.todo - {ch})]
            && s'.broker
            == s.broker.(chans := s.broker.chans[ch := Offered(s.broker.chans[ch], Log(s, pub.topic)[pub.idx])])
  {
    hide Offered;
  }

  lemma OfferedMore(chans: map<ChanId, Channel>, done: set<ChanId>, ch: ChanId, event: Event)
    requires ch in chans && ch !in done
    ensures var mid := OfferedTo(chans, done, event);
            ch in mid && mid[ch := Offered(mid[ch], event)] == OfferedTo(chans, done + {ch}, event)
  {
    hide Offered;
  }

  lemma {:induction false} SendAllOffers(s: System, p: PubId, topic: Topic, idx: nat, order: seq<ChanId>)
    requires s.subs.Keys == s.broker.chans.Keys && p in s.pubs && idx < |Log(s, topic)|
    requires s.pubs[p].Sending? && s.pubs[p].topic == topic && s.pubs[p].idx == idx
    requires Distinct(order) && (forall ch :: ch in order ==> ch in s.pubs[p].todo && ch in s.subs)
    ensures var s' := SendAll(s, p, order);
            && s'.subs.Keys == s'.broker.chans.Keys == s.subs.Keys && s'.log == s.log
            && s'.pubs == s.pubs[p := Sending(topic, idx, s.pubs[p].todo - Set(order))]
            && s'.broker == s.broker.(chans := OfferedTo(s.broker.chans, Set(order), Log(s, topic)[idx]))
    decreases |order|
  {
    hide Step, Offered, OfferedTo;
    if order == [] {
      assert s.pubs[p] == Sending(topic, idx, s.pubs[p].todo - Set(order));
      OfferedToNone(s.broker.chans, Set(order), Log(s, topic)[idx]);
    } else {
      var init, ch := order[..|order| - 1], order[|order| - 1];
      SendAllOffers(s, p, topic, idx, init);
      assert forall c :: c in order <==> c in init || c == ch;
      assert ch !in init;
      var mid := SendAll(s, p, init);
      assert Set(order) == Set(init) + {ch};
      assert s.pubs[p].todo - Set(order) == (s.pubs[p].todo - Set(init)) - {ch};
      SendEffect(mid, p, ch);
      OfferedMore(s.broker.chans, Set(init), ch, Log(s, topic)[idx]);
    }
  }

  lemma OfferedToNone(chans: map<ChanId, Channel>, none: set<ChanId>, event: Event)
    requires none == {}
    ensures OfferedTo(chans, none, event) == chans
  {
  }

  /** Offering the event to the registered channels one by one, in whatever order
      the map is walked, has the effect of the broker's second section. */
  lemma UninterruptedDelivery(actions: seq<Action>, p: PubId, order: seq<ChanId>)
    requires var s := Exec(INITIAL, actions);
             && p in s.pubs && s.pubs[p].Pending? && Distinct(order)
             && (forall ch :: ch in order <==> ch in Clients(s.broker, s.pubs[p].topic))
    ensures var s := Exec(INITIAL, actions);
            var pub := s.pubs[p];
            var s' := Step(SendAll(Step(s, BeginDelivery(p)), p, order), EndDelivery(p));
            && pub.idx < |Log(s, pub.topic)|
            && s'.broker == Delivered(s.broker, pub.topic, Log(s, pub.topic)[pub.idx])
            && p !in s'.pubs
  {
    Invariant(actions);
    DeliveryFrom(Exec(INITIAL, actions), p, order);
  }

  lemma DeliveryFrom(s: System, p: PubId, order: seq<ChanId>)
    requires ChannelsOk(s) && PubsOk(s)
    requires p in s.pubs && s.pubs[p].Pending? && Distinct(order)
    requires forall ch :: ch in order <==> ch in Clients(s.broker, s.pubs[p].topic)
    ensures var pub := s.pubs[p];
            var s' := Step(SendAll(Step(s, BeginDelivery(p)), p, order), EndDelivery(p));
            && s'.broker == Delivered(s.broker, pub.topic, Log(s, pub.topic)[pub.idx])
            && p !in s'.pubs
  {
    var pub := s.pubs[p];
    var begun := Step(s, BeginDelivery(p));
    assert Set(order) == Clients(s.broker, pub.topic);
    assert forall ch :: ch in order ==> ch in s.subs;
    SendAllOffers(begun, p, pub.topic, pub.idx, order);
    var sent := SendAll(begun, p, order);
    assert sent.pubs[p] == Sending(pub.topic, pub.idx, {});
    assert Enabled(sent, EndDelivery(p));
  }
}
