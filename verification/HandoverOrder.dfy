/** When a subscriber sees a topic's events in the order in which they were appended:
    exactly as long as no two publications are on their way to it at once. */
module HandoverOrder {
  import opened Broker
  import opened Handover

  /** The publication is still to be offered to the channel. */
  predicate OnItsWay(s: System, p: PubId, ch: ChanId) {
    p in s.pubs && ch in s.subs && Owes(s.pubs[p], s.subs[ch].topic, s.pubs[p].idx, ch)
  }

  ghost predicate OneOnItsWay(s: System, ch: ChanId) {
    IsLive(s, ch) ==> forall p, q :: OnItsWay(s, p, ch) && OnItsWay(s, q, ch) ==> p == q
  }

  /** The stream is in append order. */
  predicate Ordered(sub: Sub) {
    forall i, j :: 0 <= i < j < |sub.idxs| ==> sub.idxs[i] < sub.idxs[j]
  }

  predicate NoAppends(actions: seq<Action>) {
    forall i :: 0 <= i < |actions| ==> !actions[i].Append?
  }

  /** However things go on from here, without new publications. */
  ghost predicate StaysOrdered(s: System, ch: ChanId) {
    ch in s.subs ==>
      forall more :: NoAppends(more) ==> ch in Exec(s, more).subs && Ordered(Exec(s, more).subs[ch])
  }

  lemma {:induction false} ExecConcat(s: System, a: seq<Action>, b: seq<Action>)
    ensures Exec(s, a + b) == Exec(Exec(s, a), b)
    decreases |b|
  {
    if b == [] {
      assert a + b == a;
    } else {
      var init, last := b[..|b| - 1], b[|b| - 1];
      assert (a + b)[..|a + b| - 1] == a + init;
      ExecConcat(s, a, init);
    }
  }

  lemma ExecOne(s: System, a: Action)
    ensures Exec(s, [a]) == Step(s, a)
  {
    assert [a][..0] == [];
  }

  // ---- Two on their way can change places ----

  /** What it takes to hand one event over: room, a started delivery, the send. */
  function MakeRoom(s: System, ch: ChanId): seq<Action> {
    if ch in s.broker.chans && |s.broker.chans[ch].buf| >= CAPACITY then [Receive(ch)] else []
  }

  function Begin(s: System, p: PubId): seq<Action> {
    if p in s.pubs && s.pubs[p].Pending? then [BeginDelivery(p)] else []
  }

  /** Everything about the other publications and the subscription but its stream. */
  ghost predicate SameBut(s: System, s': System, p: PubId, ch: ChanId) {
    && ch in s.subs && ch in s'.subs && s'.subs[ch].topic == s.subs[ch].topic && s'.subs[ch].idxs == s.subs[ch].idxs
    && (forall q :: OnItsWay(s, q, ch) && q != p ==> OnItsWay(s', q, ch) && s'.pubs[q].idx == s.pubs[q].idx)
  }

  lemma RoomMade(s: System, ch: ChanId, p: PubId)
    requires Inv(s) && IsLive(s, ch) && OnItsWay(s, p, ch)
    ensures var s' := Exec(s, MakeRoom(s, ch));
            && Inv(s') && IsLive(s', ch) && ch in s'.broker.chans && |s'.broker.chans[ch].buf| < CAPACITY
            && OnItsWay(s', p, ch) && s'.pubs[p] == s.pubs[p] && SameBut(s, s', p, ch)
  {
    hide ChannelsOk, HistoryExact, PubsOk, SubsOk, NotEarly, NoGap;
    BufferBounded(s, ch);
    if |s.broker.chans[ch].buf| >= CAPACITY {
      ExecOne(s, Receive(ch));
      InvStep(s, Receive(ch));
    }
  }

  lemma BufferBounded(s: System, ch: ChanId)
    requires ChannelsOk(s) && ch in s.subs
    ensures ch in s.broker.chans && |s.broker.chans[ch].buf| <= CAPACITY
  {
  }

  lemma Begun(s: System, ch: ChanId, p: PubId)
    requires Inv(s) && IsLive(s, ch) && OnItsWay(s, p, ch) && ch in s.broker.chans
    requires |s.broker.chans[ch].buf| < CAPACITY
    ensures var s' := Exec(s, Begin(s, p));
            && Inv(s') && IsLive(s', ch) && ch in s'.broker.chans && |s'.broker.chans[ch].buf| < CAPACITY
            && OnItsWay(s', p, ch) && s'.pubs[p].idx == s.pubs[p].idx && s'.pubs[p].Sending? && SameBut(s, s', p, ch)
  {
    hide ChannelsOk, HistoryExact, PubsOk, SubsOk, NotEarly, NoGap;
    if s.pubs[p].Pending? {
      ExecOne(s, BeginDelivery(p));
      InvStep(s, BeginDelivery(p));
    }
  }

  lemma Sent(s: System, ch: ChanId, p: PubId)
    requires Inv(s) && IsLive(s, ch) && OnItsWay(s, p, ch) && s.pubs[p].Sending?
    requires ch in s.broker.chans && |s.broker.chans[ch].buf| < CAPACITY
    ensures var s' := Exec(s, [Send(p, ch)]);
            && Inv(s') && IsLive(s', ch) && s'.subs[ch].topic == s.subs[ch].topic
            && s'.subs[ch].idxs == s.subs[ch].idxs + [s.pubs[p].idx]
            && (forall q :: OnItsWay(s, q, ch) && q != p ==> OnItsWay(s', q, ch) && s'.pubs[q].idx == s.pubs[q].idx)
  {
    hide HistoryExact, SubsOk, NotEarly, NoGap;
    ExecOne(s, Send(p, ch));
    InvStep(s, Send(p, ch));
    assert Enabled(s, Send(p, ch));
    SendOwes(s, p, ch);
  }

  /** From every reachable state: one undelivered publication, handed over now. */
  lemma Deliver(s: System, ch: ChanId, p: PubId) returns (more: seq<Action>)
    requires Inv(s) && IsLive(s, ch) && OnItsWay(s, p, ch)
    ensures NoAppends(more) && Inv(Exec(s, more)) && IsLive(Exec(s, more), ch)
    ensures Exec(s, more).subs[ch].idxs == s.subs[ch].idxs + [s.pubs[p].idx]
    ensures forall q :: OnItsWay(s, q, ch) && q != p ==>
      OnItsWay(Exec(s, more), q, ch) && Exec(s, more).pubs[q].idx == s.pubs[q].idx
  {
    hide Inv, IsLive, OnItsWay, Exec;
    var room := MakeRoom(s, ch);
    var s1 := Exec(s, room);
    RoomMade(s, ch, p);
    var begin := Begin(s1, p);
    var s2 := Exec(s1, begin);
    Begun(s1, ch, p);
    Sent(s2, ch, p);
    more := room + begin + [Send(p, ch)];
    ExecConcat(s, room, begin);
    ExecConcat(s, room + begin, [Send(p, ch)]);
  }

  /** From every reachable state: of any two publications on their way to a live
      subscription, in the middle of their deliveries or not, either may arrive first. */
  lemma EitherFirst(s: System, ch: ChanId, p: PubId, q: PubId) returns (more: seq<Action>)
    requires Inv(s) && IsLive(s, ch) && OnItsWay(s, p, ch) && OnItsWay(s, q, ch) && p != q
    ensures NoAppends(more) && ch in Exec(s, more).subs
    ensures Exec(s, more).subs[ch].idxs == s.subs[ch].idxs + [s.pubs[q].idx, s.pubs[p].idx]
  {
    hide Inv, Owes, Exec;
    var first := Deliver(s, ch, q);
    var second := Deliver(Exec(s, first), ch, p);
    more := first + second;
    ExecConcat(s, first, second);
    assert [s.pubs[q].idx] + [s.pubs[p].idx] == [s.pubs[q].idx, s.pubs[p].idx];
  }

  lemma TwoDiffer(s: System, ch: ChanId, p: PubId, q: PubId)
    requires PubsOk(s) && OnItsWay(s, p, ch) && OnItsWay(s, q, ch) && p != q
    ensures s.pubs[p].idx != s.pubs[q].idx
  {
  }

  lemma NotOrderedBackwards(sub: Sub, idxs: seq<nat>, later: nat, earlier: nat)
    requires sub.idxs == idxs + [later, earlier] && earlier < later
    ensures !Ordered(sub)
  {
    assert sub.idxs[|idxs|] == later && sub.idxs[|idxs| + 1] == earlier;
  }

  lemma TwoReorder(s: System, ch: ChanId)
    requires Inv(s) && !OneOnItsWay(s, ch)
    ensures !StaysOrdered(s, ch)
  {
    hide Inv, Owes, Exec, Ordered;
    var p, q :| OnItsWay(s, p, ch) && OnItsWay(s, q, ch) && p != q;
    assert PubsOk(s) by { InvGives(s); }
    TwoDiffer(s, ch, p, q);
    var early, late := if s.pubs[p].idx < s.pubs[q].idx then p else q, if s.pubs[p].idx < s.pubs[q].idx then q else p;
    var more := EitherFirst(s, ch, early, late);
    NotOrderedBackwards(Exec(s, more).subs[ch], s.subs[ch].idxs, s.pubs[late].idx, s.pubs[early].idx);
  }

  lemma InvGives(s: System)
    requires Inv(s)
    ensures PubsOk(s) && ChannelsOk(s) && s.subs.Keys == s.broker.chans.Keys
  {
  }

  // ---- One at a time keeps the order ----

  /** Whatever is on its way comes later in the log than all that was enqueued. */
  ghost predicate Ahead(s: System, ch: ChanId)
    requires ch in s.subs
  {
    && Ordered(s.subs[ch])
    && forall p, i :: OnItsWay(s, p, ch) && IsLive(s, ch) && 0 <= i < |s.subs[ch].idxs| ==>
         s.subs[ch].idxs[i] < s.pubs[p].idx
  }

  lemma NothingOld(s: System, a: Action, ch: ChanId, p: PubId)
    requires Inv(s) && ch in s.subs && Enabled(s, a) && OnItsWay(Next(s, a), p, ch) && IsLive(Next(s, a), ch)
    requires !(a.Append? && a.pub == p)
    ensures OnItsWay(s, p, ch) && Next(s, a).pubs[p].idx == s.pubs[p].idx && IsLive(s, ch)
    ensures !(a.Send? && a.ch == ch && a.pub == p)
  {
    hide HistoryExact, SubsOk, NotEarly, NoGap, Sound;
    GrowsByStep(s, a, ch);
  }

  lemma AppendAhead(s: System, a: Action, ch: ChanId)
    requires Inv(s) && ch in s.subs && Enabled(s, a) && a.Append? && Ahead(s, ch)
    requires ch in Next(s, a).subs && OneOnItsWay(Next(s, a), ch)
    ensures Ahead(Next(s, a), ch)
  {
    hide Inv, Owes, Ordered;
    var s' := Next(s, a);
    assert s'.subs == s.subs;
    forall p, i | OnItsWay(s', p, ch) && IsLive(s', ch) && 0 <= i < |s'.subs[ch].idxs|
      ensures s'.subs[ch].idxs[i] < s'.pubs[p].idx
    {
      if p == a.pub {
        NewIsLast(s, a, ch, i);
      } else {
        NothingOld(s, a, ch, p);
      }
    }
  }

  lemma NewIsLast(s: System, a: Action, ch: ChanId, i: nat)
    requires Inv(s) && ch in s.subs && Enabled(s, a) && a.Append? && i < |s.subs[ch].idxs|
    requires OnItsWay(Next(s, a), a.pub, ch)
    ensures s.subs[ch].idxs[i] < Next(s, a).pubs[a.pub].idx
  {
    hide HistoryExact, PubsOk, NotEarly, NoGap, Sound, SnapshotOk, LastN;
    assert SubOk(s, ch);
  }

  lemma SendAhead(s: System, a: Action, ch: ChanId)
    requires Inv(s) && ch in s.subs && Enabled(s, a) && a.Send? && a.ch == ch && Ahead(s, ch) && OneOnItsWay(s, ch)
    ensures ch in Next(s, a).subs && Ahead(Next(s, a), ch)
  {
    hide Inv, OnItsWay;
    InvGives(s);
    SendOwes(s, a.pub, ch);
    SendIsOnItsWay(s, a.pub, ch);
    var s' := Next(s, a);
    forall p | OnItsWay(s', p, ch) && IsLive(s', ch) ensures false {
      NothingOld(s, a, ch, p);
    }
  }

  lemma SendIsOnItsWay(s: System, p: PubId, ch: ChanId)
    requires ChannelsOk(s) && PubsOk(s) && Enabled(s, Send(p, ch))
    ensures OnItsWay(s, p, ch) && IsLive(s, ch)
  {
    SendOwes(s, p, ch);
  }

  lemma OtherAhead(s: System, a: Action, ch: ChanId)
    requires Inv(s) && ch in s.subs && Enabled(s, a) && !a.Append? && !(a.Send? && a.ch == ch) && Ahead(s, ch)
    ensures ch in Next(s, a).subs && Ahead(Next(s, a), ch)
  {
    hide Inv, Owes, IsLive;
    InvGives(s);
    SameStream(s, a, ch);
    var s' := Next(s, a);
    forall p, i | OnItsWay(s', p, ch) && IsLive(s', ch) && 0 <= i < |s'.subs[ch].idxs|
      ensures s'.subs[ch].idxs[i] < s'.pubs[p].idx
    {
      NothingOld(s, a, ch, p);
    }
  }

  lemma SameStream(s: System, a: Action, ch: ChanId)
    requires s.subs.Keys == s.broker.chans.Keys && ch in s.subs && Enabled(s, a) && !(a.Send? && a.ch == ch)
    ensures ch in Next(s, a).subs && Next(s, a).subs[ch].idxs == s.subs[ch].idxs
  {
    hide Offered, Appended, Unsubscribed, Closed, Subscribed;
  }

  lemma AheadKept(s: System, a: Action, ch: ChanId)
    requires Inv(s) && ch in s.subs && Ahead(s, ch) && OneOnItsWay(s, ch) && OneOnItsWay(Step(s, a), ch)
    ensures ch in Step(s, a).subs && Ahead(Step(s, a), ch)
  {
    hide Inv, Ahead, OneOnItsWay, Next;
    if Enabled(s, a) {
      if a.Append? {
        InvGives(s);
        SameStream(s, a, ch);
        AppendAhead(s, a, ch);
      } else if a.Send? && a.ch == ch {
        SendAhead(s, a, ch);
      } else {
        OtherAhead(s, a, ch);
      }
    }
  }

  lemma FreshAhead(s: System, a: Action, ch: ChanId)
    requires Inv(s) && ch !in s.subs && ch in Step(s, a).subs
    ensures Ahead(Step(s, a), ch)
  {
    hide HistoryExact, PubsOk, SubsOk, NotEarly, NoGap, Sound, Offered, Appended, Unsubscribed, Closed, Subscribed,
         OnItsWay, IsLive;
  }

  /** Without an append nothing gets on its way. */
  lemma StillOne(s: System, a: Action, ch: ChanId)
    requires Inv(s) && ch in s.subs && !a.Append? && OneOnItsWay(s, ch)
    ensures OneOnItsWay(Step(s, a), ch)
  {
    hide Inv, OnItsWay, IsLive, Next;
    if Enabled(s, a) {
      forall p, q | OnItsWay(Next(s, a), p, ch) && OnItsWay(Next(s, a), q, ch) && IsLive(Next(s, a), ch)
        ensures p == q
      {
        NothingOld(s, a, ch, p);
        NothingOld(s, a, ch, q);
      }
    }
  }

  lemma {:induction false} AheadFrom(s: System, more: seq<Action>, ch: ChanId)
    requires Inv(s) && ch in s.subs && Ahead(s, ch) && OneOnItsWay(s, ch) && NoAppends(more)
    ensures Inv(Exec(s, more)) && ch in Exec(s, more).subs && Ahead(Exec(s, more), ch) && OneOnItsWay(Exec(s, more), ch)
    decreases |more|
  {
    hide Inv, Ahead, OneOnItsWay, Step;
    if more != [] {
      var init, a := more[..|more| - 1], more[|more| - 1];
      AheadFrom(s, init, ch);
      InvStep(Exec(s, init), a);
      StillOne(Exec(s, init), a, ch);
      AheadKept(Exec(s, init), a, ch);
    }
  }

  ghost predicate AlwaysOne(actions: seq<Action>, ch: ChanId) {
    forall n :: 0 <= n <= |actions| ==> OneOnItsWay(Exec(INITIAL, actions[..n]), ch)
  }

  ghost predicate AlwaysOrdered(actions: seq<Action>, ch: ChanId) {
    forall n :: 0 <= n <= |actions| ==> StaysOrdered(Exec(INITIAL, actions[..n]), ch)
  }

  lemma {:induction false} AheadSoFar(actions: seq<Action>, ch: ChanId, n: nat)
    requires AlwaysOne(actions, ch) && n <= |actions| && ch in Exec(INITIAL, actions[..n]).subs
    ensures Ahead(Exec(INITIAL, actions[..n]), ch)
  {
    hide Ahead, OneOnItsWay, Step;
    assert OneOnItsWay(Exec(INITIAL, actions[..n]), ch);
    if n > 0 {
      var s := Exec(INITIAL, actions[..n - 1]);
      assert actions[..n][..n - 1] == actions[..n - 1];
      Invariant(actions[..n - 1]);
      assert OneOnItsWay(s, ch);
      if ch in s.subs {
        AheadSoFar(actions, ch, n - 1);
        AheadKept(s, actions[n - 1], ch);
      } else {
        FreshAhead(s, actions[n - 1], ch);
      }
    }
  }

  /** For every interleaving: a subscriber's stream is in append order at every stage,
      however that stage goes on without new publications, if and only if at no stage
      two publications are on their way to it at once. */
  lemma OrderedUnlessTwo(actions: seq<Action>, ch: ChanId)
    ensures AlwaysOrdered(actions, ch) <==> AlwaysOne(actions, ch)
  {
    hide Inv, Ahead, OneOnItsWay, Exec, StaysOrdered, Ordered;
    forall n | 0 <= n <= |actions| && !OneOnItsWay(Exec(INITIAL, actions[..n]), ch)
      ensures !StaysOrdered(Exec(INITIAL, actions[..n]), ch)
    {
      Invariant(actions[..n]);
      TwoReorder(Exec(INITIAL, actions[..n]), ch);
    }
    if AlwaysOne(actions, ch) {
      forall n | 0 <= n <= |actions| ensures StaysOrdered(Exec(INITIAL, actions[..n]), ch) {
        OrderedFrom(actions, ch, n);
      }
    }
  }

  lemma OrderedFrom(actions: seq<Action>, ch: ChanId, n: nat)
    requires AlwaysOne(actions, ch) && n <= |actions|
    ensures StaysOrdered(Exec(INITIAL, actions[..n]), ch)
  {
    hide Inv, Exec, OneOnItsWay;
    var s := Exec(INITIAL, actions[..n]);
    if ch in s.subs {
      AheadSoFar(actions, ch, n);
      Invariant(actions[..n]);
      assert OneOnItsWay(s, ch);
      forall more | NoAppends(more) ensures ch in Exec(s, more).subs && Ordered(Exec(s, more).subs[ch]) {
        AheadFrom(s, more, ch);
      }
    }
  }

  // ---- In terms of the topic's publications ----

  /** From every reachable state: two publications of a topic that have not begun their
      deliveries can reach any live subscription of it in either order. */
  lemma TwoPendingReorder(actions: seq<Action>, ch: ChanId, p: PubId, q: PubId) returns (more: seq<Action>)
    requires var s := Exec(INITIAL, actions);
             && IsLive(s, ch) && p in s.pubs && q in s.pubs && p != q
             && s.pubs[p] == Pending(s.subs[ch].topic, s.pubs[p].idx)
             && s.pubs[q] == Pending(s.subs[ch].topic, s.pubs[q].idx)
    ensures var s, s' := Exec(INITIAL, actions), Exec(INITIAL, actions + more);
            NoAppends(more) && ch in s'.subs && s'.subs[ch].idxs == s.subs[ch].idxs + [s.pubs[q].idx, s.pubs[p].idx]
  {
    hide Inv, Exec;
    Invariant(actions);
    more := EitherFirst(Exec(INITIAL, actions), ch, p, q);
    ExecConcat(INITIAL, actions, more);
  }

  lemma SerialAhead(s: System, ch: ChanId)
    requires Inv(s) && ch in s.subs && SerialInv(s, s.subs[ch].topic)
    ensures Ahead(s, ch) && OneOnItsWay(s, ch)
  {
    hide HistoryExact, PubsOk, NoGap, Sound, SnapshotOk, IsLive, Owed;
    assert SubOk(s, ch) && SerialSub(s, ch);
  }

  /** One publication of the topic at a time is enough. */
  lemma SerialIsOrdered(actions: seq<Action>, ch: ChanId)
    requires ch in Exec(INITIAL, actions).subs && Serial(actions, Exec(INITIAL, actions).subs[ch].topic)
    ensures OneOnItsWay(Exec(INITIAL, actions), ch) && StaysOrdered(Exec(INITIAL, actions), ch)
  {
    hide Exec, Serial, Inv, SerialInv;
    var s := Exec(INITIAL, actions);
    SerialInvariant(actions, s.subs[ch].topic);
    Invariant(actions);
    SerialAhead(s, ch);
    forall more | NoAppends(more) ensures ch in Exec(s, more).subs && Ordered(Exec(s, more).subs[ch]) {
      AheadFrom(s, more, ch);
    }
  }

  /** It does happen, whenever nobody is delivering: two publishers append to the topic
      of a live subscription, and it receives the later of the two events first. */
  lemma ConcurrentPublishersReorder(actions: seq<Action>, ch: ChanId, p: PubId, q: PubId, e0: Event, e1: Event)
      returns (more: seq<Action>)
    requires IsLive(Exec(INITIAL, actions), ch) && NoReaders(Exec(INITIAL, actions))
    requires p != q && p !in Exec(INITIAL, actions).pubs && q !in Exec(INITIAL, actions).pubs
    ensures var s := Exec(INITIAL, actions);
            var topic, n := s.subs[ch].topic, |Log(s, s.subs[ch].topic)|;
            var s' := Exec(INITIAL, actions + [Append(p, topic, e0), Append(q, topic, e1)] + more);
            NoAppends(more) && ch in s'.subs && s'.subs[ch].idxs == s.subs[ch].idxs + [n + 1, n]
  {
    hide Inv, OnItsWay, Exec, LastN;
    var s := Exec(INITIAL, actions);
    var topic := s.subs[ch].topic;
    var twice := [Append(p, topic, e0), Append(q, topic, e1)];
    BothAppended(s, ch, p, q, e0, e1);
    ExecConcat(INITIAL, actions, twice);
    Invariant(actions + twice);
    var s2 := Exec(INITIAL, actions + twice);
    more := EitherFirst(s2, ch, p, q);
    ExecConcat(INITIAL, actions + twice, more);
  }

  lemma BothAppended(s: System, ch: ChanId, p: PubId, q: PubId, e0: Event, e1: Event)
    requires IsLive(s, ch) && NoReaders(s) && p != q && p !in s.pubs && q !in s.pubs
    ensures var topic, n := s.subs[ch].topic, |Log(s, s.subs[ch].topic)|;
            var s' := Exec(s, [Append(p, topic, e0), Append(q, topic, e1)]);
            && s'.subs == s.subs && IsLive(s', ch) && OnItsWay(s', p, ch) && OnItsWay(s', q, ch)
            && s'.pubs[p].idx == n && s'.pubs[q].idx == n + 1
  {
    hide LastN;
    var topic := s.subs[ch].topic;
    ExecConcat(s, [Append(p, topic, e0)], [Append(q, topic, e1)]);
    assert [Append(p, topic, e0)] + [Append(q, topic, e1)] == [Append(p, topic, e0), Append(q, topic, e1)];
    ExecOne(s, Append(p, topic, e0));
    ExecOne(Step(s, Append(p, topic, e0)), Append(q, topic, e1));
  }
}
