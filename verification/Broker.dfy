/** The event broker of internal/sse/broker.go: what each of its critical
    sections does to the registered channels and the bounded history. */
module Broker {
  type Topic = string
  type ChanId = nat

  datatype Event = Event(instanceID: string, body: string, timestamp: int)

  // A buffered Go channel.
  datatype Channel = Channel(buf: seq<Event>, closed: bool)

  const CAPACITY := 64
  const MAX_HISTORY := 50

  /** `chans` holds every channel ever made; `clients` the registered ones. */
  datatype State = State(clients: map<Topic, set<ChanId>>, history: map<Topic, seq<Event>>, chans: map<ChanId, Channel>)

  const EMPTY := State(map[], map[], map[])

  function Clients(st: State, topic: Topic): set<ChanId> {
    if topic in st.clients then st.clients[topic] else {}
  }

  function History(st: State, topic: Topic): seq<Event> {
    if topic in st.history then st.history[topic] else []
  }

  function LastN<T>(s: seq<T>, n: nat): seq<T> {
    if |s| > n then s[|s| - n..] else s
  }

  function Subscribed(st: State, topic: Topic, ch: ChanId): State {
    st.(clients := st.clients[topic := Clients(st, topic) + {ch}],
        chans := st.chans[ch := Channel([], false)])
  }

  function Shut(chans: map<ChanId, Channel>, ids: set<ChanId>): map<ChanId, Channel> {
    map ch | ch in chans :: if ch in ids then chans[ch].(closed := true) else chans[ch]
  }

  function Unsubscribed(st: State, topic: Topic, ch: ChanId): State {
    if ch !in Clients(st, topic) then st
    else
      var rest := st.clients[topic] - {ch};
      st.(clients := if rest == {} then st.clients - {topic} else st.clients[topic := rest],
          chans := Shut(st.chans, {ch}))
  }

  /** The defaults Publish fills in before it takes the lock. */
  function Stamped(topic: Topic, event: Event, now: int): (stamped: Event)
    ensures stamped.body == event.body
    ensures event.instanceID == "" ==> stamped.instanceID == topic
    ensures event.instanceID != "" ==> stamped.instanceID == event.instanceID
    ensures event.timestamp == 0 ==> stamped.timestamp == now
    ensures event.timestamp != 0 ==> stamped.timestamp == event.timestamp
  {
    Event(if event.instanceID == "" then topic else event.instanceID, event.body,
          if event.timestamp == 0 then now else event.timestamp)
  }

  function Appended(st: State, topic: Topic, event: Event): State {
    st.(history := st.history[topic := LastN(History(st, topic) + [event], MAX_HISTORY)])
  }

  // The non-blocking send: a full channel drops the event.
  function Offered(channel: Channel, event: Event): Channel {
    if |channel.buf| < CAPACITY then channel.(buf := channel.buf + [event]) else channel
  }

  function OfferedTo(chans: map<ChanId, Channel>, ids: set<ChanId>, event: Event): map<ChanId, Channel> {
    map ch | ch in chans :: if ch in ids then Offered(chans[ch], event) else chans[ch]
  }

  function Delivered(st: State, topic: Topic, event: Event): State {
    st.(chans := OfferedTo(st.chans, Clients(st, topic), event))
  }

  ghost predicate Registered(st: State, ch: ChanId) {
    exists topic :: topic in st.clients && ch in st.clients[topic]
  }

  function ClientsOf(clients: map<Topic, set<ChanId>>, topics: set<Topic>): set<ChanId> {
    set topic, ch | topic in topics && topic in clients && ch in clients[topic] :: ch
  }

  function Closed(st: State): State {
    State(map[], st.history, Shut(st.chans, ClientsOf(st.clients, st.clients.Keys)))
  }

  ghost predicate OneTopicEach(st: State) {
    forall s, t, ch :: s in st.clients && t in st.clients && ch in st.clients[s] && ch in st.clients[t] ==> s == t
  }

  /** Registered channels are exactly the open ones, each under one topic. */
  ghost predicate Sound(st: State) {
    && (forall topic, ch :: topic in st.clients && ch in st.clients[topic] ==> ch in st.chans && !st.chans[ch].closed)
    && (forall ch :: ch in st.chans && !st.chans[ch].closed ==> Registered(st, ch))
    && OneTopicEach(st)
    && (forall topic :: topic in st.clients ==> st.clients[topic] != {})
    && (forall ch :: ch in st.chans ==> |st.chans[ch].buf| <= CAPACITY)
    && (forall topic :: topic in st.history ==> 0 < |st.history[topic]| <= MAX_HISTORY)
  }

  // ---- What each section does, told from before and after ----

  predicate Member(st: State, topic: Topic, ch: ChanId) {
    topic in st.clients && ch in st.clients[topic]
  }

  /** A new channel joins the topic and nothing else changes. */
  ghost predicate Joins(before: State, topic: Topic, ch: ChanId, after: State) {
    && (forall t, c :: Member(after, t, c) <==> Member(before, t, c) || (t == topic && c == ch))
    && after.clients.Keys == before.clients.Keys + {topic}
    && after.chans == before.chans[ch := Channel([], false)] && after.history == before.history
  }

  /** A member of the topic is closed with its buffer kept and is in no topic any more;
      the topic stays exactly if someone else is left. An unknown channel changes
      nothing. */
  ghost predicate Leaves(before: State, topic: Topic, ch: ChanId, after: State) {
    if !Member(before, topic, ch) then after == before
    else
      && (forall t :: !Member(after, t, ch))
      && ch in before.chans && ch in after.chans && after.chans[ch] == Channel(before.chans[ch].buf, true)
      && after.chans.Keys == before.chans.Keys
      && (forall c :: c in before.chans && c != ch ==> after.chans[c] == before.chans[c])
      && (forall t, c :: c != ch ==> (Member(after, t, c) <==> Member(before, t, c)))
      && (topic in after.clients <==> exists c :: c != ch && Member(before, topic, c))
      && after.clients.Keys + {topic} == before.clients.Keys
      && after.history == before.history
  }

  /** The event ends the topic's history, of which the last fifty are kept. */
  ghost predicate Records(before: State, topic: Topic, event: Event, after: State) {
    && after.clients == before.clients && after.chans == before.chans
    && after.history.Keys == before.history.Keys + {topic}
    && (forall t :: t in before.history && t != topic ==> after.history[t] == before.history[t])
    && var all := (if topic in before.history then before.history[topic] else []) + [event];
       after.history[topic] == if |all| > 50 then all[|all| - 50..] else all
  }

  /** Every member of the topic with fewer than 64 unread events gets the event. */
  ghost predicate Offers(before: State, topic: Topic, event: Event, after: State) {
    && after.clients == before.clients && after.history == before.history && after.chans.Keys == before.chans.Keys
    && forall c :: c in before.chans ==>
         after.chans[c] == if Member(before, topic, c) && |before.chans[c].buf| < 64
                           then Channel(before.chans[c].buf + [event], before.chans[c].closed) else before.chans[c]
  }

  /** Nobody is left, all members are closed and nothing else changes. */
  ghost predicate Ends(before: State, after: State) {
    && after.clients == map[] && after.history == before.history && after.chans.Keys == before.chans.Keys
    && forall c :: c in before.chans ==>
         after.chans[c] == if Registered(before, c) then Channel(before.chans[c].buf, true) else before.chans[c]
  }

  lemma SubscribedJoins(st: State, topic: Topic, ch: ChanId)
    ensures Joins(st, topic, ch, Subscribed(st, topic, ch))
  {
  }

  lemma UnsubscribedLeaves(st: State, topic: Topic, ch: ChanId)
    requires Sound(st)
    ensures Leaves(st, topic, ch, Unsubscribed(st, topic, ch))
  {
    hide Registered;
    if Member(st, topic, ch) {
      var st', rest := Unsubscribed(st, topic, ch), st.clients[topic] - {ch};
      if rest != {} {
        var c :| c in rest;
        assert c != ch && Member(st, topic, c);
      }
      assert forall c :: c != ch && Member(st, topic, c) ==> c in rest;
      forall t ensures !Member(st', t, ch) {
        assert Member(st, t, ch) ==> t == topic;
      }
    }
  }

  lemma AppendedRecords(st: State, topic: Topic, event: Event)
    ensures Records(st, topic, event, Appended(st, topic, event))
  {
  }

  lemma DeliveredOffers(st: State, topic: Topic, event: Event)
    ensures Offers(st, topic, event, Delivered(st, topic, event))
  {
  }

  lemma ClosedEnds(st: State)
    ensures Ends(st, Closed(st))
  {
  }

  class EventBroker {
    var clients: map<Topic, set<ChanId>>
    var history: map<Topic, seq<Event>>
    var chans: map<ChanId, Channel>
    var made: nat

    constructor ()
      ensures Valid() && Contents() == EMPTY
      ensures clients == map[] && history == map[] && chans == map[]
    {
      clients, history, chans, made := map[], map[], map[], 0;
    }

    function Contents(): State
      reads this
    {
      State(clients, history, chans)
    }

    ghost predicate Valid()
      reads this
    {
      Sound(Contents()) && forall ch :: ch in chans ==> ch < made
    }

    // Go panics when a closed channel is closed again, hence the requires.
    method CloseChannel(ch: ChanId)
      requires ch in chans && !chans[ch].closed
      modifies this`chans
      ensures chans == Shut(old(chans), {ch})
    {
      chans := chans[ch := chans[ch].(closed := true)];
    }

    // Go panics when a closed channel is sent to.
    method TrySend(ch: ChanId, event: Event)
      requires ch in chans && !chans[ch].closed
      modifies this`chans
      ensures chans == old(chans)[ch := Offered(old(chans)[ch], event)]
    {
      if |chans[ch].buf| < CAPACITY {
        chans := chans[ch := chans[ch].(buf := chans[ch].buf + [event])];
      } else {
        assert chans == chans[ch := chans[ch]];
      }
    }

    method Subscribe(topic: Topic) returns (ch: ChanId)
      requires Valid()
      modifies this
      ensures Valid() && ch !in old(chans)
      ensures Contents() == Subscribed(old(Contents()), topic, ch)
      ensures Joins(old(Contents()), topic, ch, Contents())
    {
      hide Sound, Joins;
      ch, made := made, made + 1;
      chans := chans[ch := Channel([], false)];
      if topic !in clients {
        clients := clients[topic := {}];
      }
      clients := clients[topic := clients[topic] + {ch}];
      SubscribedSound(old(Contents()), topic, ch);
      SubscribedJoins(old(Contents()), topic, ch);
      assert clients == Subscribed(old(Contents()), topic, ch).clients;
    }

    method Unsubscribe(topic: Topic, ch: ChanId)
      requires Valid()
      modifies this
      ensures Valid() && Contents() == Unsubscribed(old(Contents()), topic, ch)
      ensures Leaves(old(Contents()), topic, ch, Contents())
    {
      hide Sound, Leaves;
      RegisteredIsOpen(Contents(), topic);
      if topic in clients {
        var todo := clients[topic];
        while todo != {}
          invariant todo <= clients[topic]
          invariant ch in clients[topic] ==> ch in todo
          invariant topic in clients && Contents() == old(Contents())
        {
          var c :| c in todo;
          if c == ch {
            clients := clients[topic := clients[topic] - {c}];
            CloseChannel(c);
            break;
          }
          todo := todo - {c};
        }
        if clients[topic] == {} {
          clients := clients - {topic};
        }
      }
      UnsubscribedSound(old(Contents()), topic, ch);
      UnsubscribedLeaves(old(Contents()), topic, ch);
      assert clients == Unsubscribed(old(Contents()), topic, ch).clients;
    }

    /** The first critical section of Publish. */
    method Append(topic: Topic, event: Event)
      requires Valid()
      modifies this
      ensures Valid() && Contents() == Appended(old(Contents()), topic, event)
      ensures Records(old(Contents()), topic, event, Contents())
    {
      hide Sound, LastN, Records;
      AppendedSound(Contents(), topic, event);
      AppendedRecords(Contents(), topic, event);
      var events := if topic in history then history[topic] else [];
      history := history[topic := events + [event]];
      if |history[topic]| > MAX_HISTORY {
        history := history[topic := history[topic][|history[topic]| - MAX_HISTORY..]];
      }
      LastNTaken(events + [event]);
      assert history == Appended(old(Contents()), topic, event).history;
    }

    /** The second critical section of Publish. */
    method Deliver(topic: Topic, event: Event)
      requires Valid()
      modifies this
      ensures Valid() && Contents() == Delivered(old(Contents()), topic, event)
      ensures Offers(old(Contents()), topic, event, Contents())
    {
      hide Offers, Sound;
      DeliveredOffers(Contents(), topic, event);
      DeliveredSound(Contents(), topic, event);
      RegisteredIsOpen(Contents(), topic);
      var targets := if topic in clients then clients[topic] else {};
      var todo := targets;
      while todo != {}
        invariant todo <= targets && unchanged(`clients, `history, `made)
        invariant chans == OfferedTo(old(chans), targets - todo, event)
      {
        var ch :| ch in todo;
        todo := todo - {ch};
        TrySend(ch, event);
      }
      assert targets - todo == Clients(old(Contents()), topic);
    }

    /** Publish outside of any concurrency: one section after the other. */
    method Publish(topic: Topic, event: Event, now: int)
      requires Valid()
      modifies this
      ensures Valid()
      ensures var stamped := Stamped(topic, event, now);
              Contents() == Delivered(Appended(old(Contents()), topic, stamped), topic, stamped)
    {
      var stamped := event;
      if stamped.timestamp == 0 {
        stamped := stamped.(timestamp := now);
      }
      if stamped.instanceID == "" {
        stamped := stamped.(instanceID := topic);
      }
      Append(topic, stamped);
      Deliver(topic, stamped);
    }

    method Snapshot(topic: Topic) returns (events: seq<Event>)
      ensures events == History(Contents(), topic)
      ensures events == if topic in history then history[topic] else []
    {
      if topic !in history {
        return [];
      }
      events := history[topic];
    }

    method Close()
      requires Valid()
      modifies this
      ensures Valid() && Contents() == Closed(old(Contents()))
      ensures Ends(old(Contents()), Contents())
    {
      hide Sound, Shut, ClientsOf, Ends;
      ghost var before := Contents();
      ghost var done := {};
      NothingShut(before);
      while clients.Keys != {}
        invariant done <= before.clients.Keys && clients.Keys == before.clients.Keys - done
        invariant clients == before.clients - done
        invariant chans == Shut(before.chans, ClientsOf(before.clients, done)) && unchanged(`history, `made)
        decreases clients.Keys
      {
        var topic :| topic in clients;
        CloseStep(before, done, topic);
        CloseChannels(clients[topic]);
        clients := clients - {topic};
        done := done + {topic};
      }
      assert done == before.clients.Keys;
      ClosedSound(before);
      ClosedEnds(before);
    }

    // The inner loop of Close.
    method CloseChannels(ids: set<ChanId>)
      requires forall ch :: ch in ids ==> ch in chans && !chans[ch].closed
      modifies this`chans
      ensures chans == Shut(old(chans), ids)
    {
      var todo := ids;
      while todo != {}
        invariant todo <= ids && chans == Shut(old(chans), ids - todo)
      {
        var ch :| ch in todo;
        todo := todo - {ch};
        CloseChannel(ch);
      }
    }
  }

  lemma LastNTaken(events: seq<Event>)
    ensures LastN(events, MAX_HISTORY) == if |events| > MAX_HISTORY then events[|events| - MAX_HISTORY..] else events
  {
  }

  lemma AppendedSound(st: State, topic: Topic, event: Event)
    requires Sound(st)
    ensures Sound(Appended(st, topic, event))
  {
    forall ch | ch in st.chans && !st.chans[ch].closed ensures Registered(Appended(st, topic, event), ch) {
      var t :| t in st.clients && ch in st.clients[t];
    }
  }

  lemma DeliveredSound(st: State, topic: Topic, event: Event)
    requires Sound(st)
    ensures Sound(Delivered(st, topic, event))
  {
    var st' := Delivered(st, topic, event);
    forall ch | ch in st'.chans && !st'.chans[ch].closed
      ensures Registered(st', ch)
    {
      var t :| t in st.clients && ch in st.clients[t];
      assert t in st'.clients && ch in st'.clients[t];
    }
  }

  // The channels of the next topic are still open, whatever topics came before.
  lemma CloseStep(st: State, done: set<Topic>, topic: Topic)
    requires Sound(st) && topic in st.clients && topic !in done
    ensures ClientsOf(st.clients, done + {topic}) == ClientsOf(st.clients, done) + st.clients[topic]
    ensures var chans := Shut(st.chans, ClientsOf(st.clients, done));
            && (forall ch :: ch in st.clients[topic] ==> ch in chans && !chans[ch].closed)
            && Shut(chans, st.clients[topic]) == Shut(st.chans, ClientsOf(st.clients, done + {topic}))
  {
  }

  lemma NothingShut(st: State)
    ensures Shut(st.chans, ClientsOf(st.clients, {})) == st.chans
  {
    assert ClientsOf(st.clients, {}) == {};
  }

  lemma ClosedSound(st: State)
    requires Sound(st)
    ensures Sound(Closed(st)) && Closed(st).chans.Keys == st.chans.Keys
  {
    forall ch | ch in st.chans && !st.chans[ch].closed
      ensures ch in ClientsOf(st.clients, st.clients.Keys)
    {
      var t :| t in st.clients && ch in st.clients[t];
    }
  }

  lemma SubscribedRegistered(st: State, topic: Topic, ch: ChanId, c: ChanId)
    requires c == ch || Registered(st, c)
    ensures Registered(Subscribed(st, topic, ch), c)
  {
    var st' := Subscribed(st, topic, ch);
    if c == ch {
      assert topic in st'.clients && ch in st'.clients[topic];
    } else {
      var t :| t in st.clients && c in st.clients[t];
      assert t in st'.clients && c in st'.clients[t];
    }
  }

  lemma SubscribedMembers(st: State, topic: Topic, ch: ChanId)
    ensures var st' := Subscribed(st, topic, ch);
            && st'.clients.Keys == st.clients.Keys + {topic}
            && (forall t :: t in st'.clients && t != topic ==> st'.clients[t] == st.clients[t])
            && st'.clients[topic] == Clients(st, topic) + {ch}
            && st'.chans == st.chans[ch := Channel([], false)] && st'.history == st.history
  {
  }

  lemma SubscribedOneTopic(st: State, topic: Topic, ch: ChanId)
    requires OneTopicEach(st) && forall t :: t in st.clients ==> ch !in st.clients[t]
    ensures OneTopicEach(Subscribed(st, topic, ch))
  {
    hide Subscribed;
    SubscribedMembers(st, topic, ch);
  }

  lemma SubscribedSound(st: State, topic: Topic, ch: ChanId)
    requires Sound(st) && ch !in st.chans
    ensures Sound(Subscribed(st, topic, ch))
  {
    hide Registered, Subscribed, OneTopicEach;
    var st' := Subscribed(st, topic, ch);
    SubscribedMembers(st, topic, ch);
    SubscribedOneTopic(st, topic, ch);
    forall c | c in st'.chans && !st'.chans[c].closed ensures Registered(st', c) {
      SubscribedRegistered(st, topic, ch, c);
    }
  }

  lemma UnsubscribedRegistered(st: State, topic: Topic, ch: ChanId, c: ChanId)
    requires Registered(st, c) && (c != ch || ch !in Clients(st, topic))
    ensures Registered(Unsubscribed(st, topic, ch), c)
  {
    var st' := Unsubscribed(st, topic, ch);
    var t :| t in st.clients && c in st.clients[t];
    if t == topic && ch in Clients(st, topic) {
      var rest := st.clients[topic] - {ch};
      assert c in rest;
      assert st'.clients == st.clients[topic := rest];
    }
    assert t in st'.clients && c in st'.clients[t];
  }

  lemma UnsubscribedSound(st: State, topic: Topic, ch: ChanId)
    requires Sound(st)
    ensures Sound(Unsubscribed(st, topic, ch))
  {
    hide Registered;
    var st' := Unsubscribed(st, topic, ch);
    forall c | c in st'.chans && !st'.chans[c].closed ensures Registered(st', c) {
      UnsubscribedRegistered(st, topic, ch, c);
    }
  }

  lemma RegisteredIsOpen(st: State, topic: Topic)
    requires Sound(st)
    ensures forall ch :: ch in Clients(st, topic) ==> ch in st.chans && !st.chans[ch].closed
    ensures topic in st.clients ==> st.clients[topic] != {}
  {
  }
}
