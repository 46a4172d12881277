/** The life of one subscription over whole runs: when it begins and ends, and that
    receiving takes out everything that was enqueued. */
module Subscriptions {
  import opened Wrappers
  import opened Broker
  import opened Handover
  import opened HandoverOrder

  /** The handler leaves or the broker closes. */
  predicate EndsIt(a: Action, ch: ChanId) {
    a == Unsubscribe(ch) || a.CloseBroker?
  }

  // Both wait until nobody is in the middle of a delivery.
  predicate NobodySends(s: System) {
    forall p :: p in s.pubs ==> s.pubs[p].Pending?
  }

  ghost predicate EndedAt(s: System, more: seq<Action>, ch: ChanId, n: nat)
    requires n < |more|
  {
    NobodySends(Exec(s, more[..n])) && EndsIt(more[n], ch)
  }

  lemma EndsIfEnabled(s: System, a: Action, ch: ChanId)
    requires ch in s.subs
    ensures Enabled(s, a) && EndsIt(a, ch) <==> NobodySends(s) && EndsIt(a, ch)
  {
  }

  lemma SubscribeBegins(s: System, topic: Topic, ch: ChanId)
    requires NobodySends(s) && ch !in s.broker.chans
    ensures var s' := Step(s, Subscribe(topic, ch));
            && IsLive(s', ch) && s'.subs[ch].topic == topic && s'.subs[ch].subAt == |Log(s, topic)|
            && ch in s'.broker.chans && s'.broker.chans[ch] == Channel([], false)
  {
  }

  /** One step ends a live subscription exactly if it is one of the two. */
  lemma StepEnds(s: System, a: Action, ch: ChanId)
    requires Inv(s) && ch in s.subs && Enabled(s, a)
    ensures ch in Next(s, a).subs
    ensures IsLive(Next(s, a), ch) <==> IsLive(s, ch) && !EndsIt(a, ch)
  {
    hide HistoryExact, PubsOk, SubsOk, NotEarly, NoGap, Offered, LastN, Shut, PendingIdxs;
    InvGives(s);
    GrowsByStep(s, a, ch);
    if a.Unsubscribe? {
      LeavesOnly(s, a.ch, ch);
    }
  }

  lemma LeavesOnly(s: System, leaver: ChanId, ch: ChanId)
    requires ChannelsOk(s) && leaver in s.subs && ch in s.subs
    ensures var st' := Unsubscribed(s.broker, s.subs[leaver].topic, leaver);
            ch in Clients(st', s.subs[ch].topic) <==> ch in Clients(s.broker, s.subs[ch].topic) && ch != leaver
  {
    hide Unsubscribed;
    var topic := s.subs[leaver].topic;
    UnsubscribedLeaves(s.broker, topic, leaver);
    assert Member(Unsubscribed(s.broker, topic, leaver), s.subs[ch].topic, ch)
      <==> ch in Clients(Unsubscribed(s.broker, topic, leaver), s.subs[ch].topic);
    assert Member(s.broker, s.subs[ch].topic, ch) <==> ch in Clients(s.broker, s.subs[ch].topic);
  }

  lemma LivesOneStep(s: System, a: Action, ch: ChanId)
    requires Inv(s) && ch in s.subs
    ensures Inv(Step(s, a)) && ch in Step(s, a).subs
    ensures IsLive(Step(s, a), ch) <==> IsLive(s, ch) && !(NobodySends(s) && EndsIt(a, ch))
  {
    hide Inv, IsLive, Next, Enabled, EndsIt, NobodySends;
    EndsIfEnabled(s, a, ch);
    InvStep(s, a);
    if Enabled(s, a) {
      StepEnds(s, a, ch);
    }
  }

  lemma EndedEarlier(s: System, more: seq<Action>, ch: ChanId, n: nat)
    requires n < |more| - 1
    ensures EndedAt(s, more, ch, n) <==> EndedAt(s, more[..|more| - 1], ch, n)
  {
    hide Exec, NobodySends, EndsIt;
    assert more[..n] == more[..|more| - 1][..n];
  }

  lemma LivesStep(s: System, more: seq<Action>, ch: ChanId, k: nat)
    requires k == |more| - 1 && Inv(Exec(s, more[..k])) && ch in Exec(s, more[..k]).subs
    ensures Inv(Exec(s, more)) && ch in Exec(s, more).subs
    ensures IsLive(Exec(s, more), ch) <==> IsLive(Exec(s, more[..k]), ch) && !EndedAt(s, more, ch, k)
  {
    hide Inv, IsLive, Step, NobodySends, EndsIt;
    LivesOneStep(Exec(s, more[..k]), more[k], ch);
  }

  lemma NothingDone(s: System)
    ensures Exec(s, []) == s
  {
  }

  lemma {:induction false} LivesFrom(s: System, more: seq<Action>, ch: ChanId)
    requires Inv(s) && ch in s.subs && IsLive(s, ch)
    ensures Inv(Exec(s, more)) && ch in Exec(s, more).subs
    ensures IsLive(Exec(s, more), ch) <==> forall n :: 0 <= n < |more| ==> !EndedAt(s, more, ch, n)
    decreases |more|
  {
    hide Inv, IsLive, Exec, EndedAt;
    if more == [] {
      NothingDone(s);
    } else {
      var k := |more| - 1;
      LivesFrom(s, more[..k], ch);
      LivesStep(s, more, ch, k);
      forall n | 0 <= n < k ensures EndedAt(s, more, ch, n) <==> EndedAt(s, more[..k], ch, n) {
        EndedEarlier(s, more, ch, n);
      }
    }
  }

  lemma DeadIsClosed(s: System, ch: ChanId)
    requires Inv(s) && ch in s.subs
    ensures ch in s.broker.chans && (s.broker.chans[ch].closed <==> !IsLive(s, ch))
  {
    hide HistoryExact, PubsOk, SubsOk, NotEarly, NoGap;
    if !s.broker.chans[ch].closed {
      var t :| t in s.broker.clients && ch in s.broker.clients[t];
      assert s.subs[ch].topic == t;
    }
  }

  lemma LiveIsMember(s: System, ch: ChanId)
    requires ch in s.subs
    ensures var topic := s.subs[ch].topic; IsLive(s, ch) <==> topic in s.broker.clients && ch in s.broker.clients[topic]
  {
  }

  /** For every interleaving: a subscription is live, and its channel open, from its
      subscribe on until the handler leaves or the broker closes, and never again. */
  lemma LiveUntilEnded(actions: seq<Action>, topic: Topic, ch: ChanId, more: seq<Action>)
    requires NobodySends(Exec(INITIAL, actions)) && ch !in Exec(INITIAL, actions).broker.chans
    ensures var s := Exec(INITIAL, actions + [Subscribe(topic, ch)]);
            var s' := Exec(INITIAL, actions + [Subscribe(topic, ch)] + more);
            && ch in s'.subs && s'.subs[ch].topic == topic && ch in s'.broker.chans
            && (IsLive(s', ch) <==> forall n :: 0 <= n < |more| ==> !EndedAt(s, more, ch, n))
            && (IsLive(s', ch) <==> topic in s'.broker.clients && ch in s'.broker.clients[topic])
            && (s'.broker.chans[ch].closed <==> !IsLive(s', ch))
  {
    hide Inv, IsLive, Exec, Enabled, Step, EndedAt, NobodySends;
    var begun := actions + [Subscribe(topic, ch)];
    ExecAppend(actions, Subscribe(topic, ch));
    SubscribeBegins(Exec(INITIAL, actions), topic, ch);
    Invariant(begun);
    LivesFrom(Exec(INITIAL, begun), more, ch);
    ExecConcat(INITIAL, begun, more);
    StreamGrows(begun, more, ch);
    DeadIsClosed(Exec(INITIAL, begun + more), ch);
    LiveIsMember(Exec(INITIAL, begun + more), ch);
  }

  /** From every reachable state: a handler that has not read the history yet can read
      it, and gets the last fifty events of its topic. */
  lemma HistoryIsRead(actions: seq<Action>, ch: ChanId)
    requires ch in Exec(INITIAL, actions).subs && Exec(INITIAL, actions).subs[ch].snapAt == None
    ensures var s := Exec(INITIAL, actions);
            var log := Log(s, s.subs[ch].topic);
            var sub' := s.subs[ch].(snapAt := Some(|log|), replay := if |log| > 50 then log[|log| - 50..] else log);
            Exec(INITIAL, actions + [ReadHistory(ch)]) == s.(subs := s.subs[ch := sub'])
  {
    hide Exec, Sound, PubsOk, SubsOk, NotEarly, NoGap, ChannelsOk;
    ExecAppend(actions, ReadHistory(ch));
    Invariant(actions);
  }

  // ---- Receiving ----

  function Receives(ch: ChanId, n: nat): (actions: seq<Action>)
    ensures |actions| == n && forall i :: 0 <= i < n ==> actions[i] == Receive(ch)
  {
    if n == 0 then [] else Receives(ch, n - 1) + [Receive(ch)]
  }

  lemma ReceiveTakesFirst(s: System, ch: ChanId)
    requires Enabled(s, Receive(ch))
    ensures var s' := Step(s, Receive(ch));
            && ch in s'.subs && ch in s'.broker.chans && s'.log == s.log && s'.subs[ch].topic == s.subs[ch].topic
            && s'.subs[ch].received == s.subs[ch].received + [s.broker.chans[ch].buf[0]]
            && s'.broker.chans[ch].buf == s.broker.chans[ch].buf[1..] && s'.subs[ch].idxs == s.subs[ch].idxs
  {
  }

  lemma {:induction false} ReceiveMany(s: System, ch: ChanId, n: nat)
    requires ch in s.subs && ch in s.broker.chans && n <= |s.broker.chans[ch].buf|
    ensures var s' := Exec(s, Receives(ch, n));
            && ch in s'.subs && ch in s'.broker.chans && s'.log == s.log && s'.subs[ch].topic == s.subs[ch].topic
            && s'.subs[ch].received == s.subs[ch].received + s.broker.chans[ch].buf[..n]
            && s'.broker.chans[ch].buf == s.broker.chans[ch].buf[n..] && s'.subs[ch].idxs == s.subs[ch].idxs
  {
    if n > 0 {
      hide Step;
      ReceiveMany(s, ch, n - 1);
      var actions, init := Receives(ch, n), Receives(ch, n - 1);
      assert actions[..n - 1] == init;
      ReceiveTakesFirst(Exec(s, init), ch);
    }
  }

  /** From every reachable state, closed subscriptions included: receiving until the
      channel is empty hands over, in order, exactly what was ever enqueued. */
  lemma ReceivingDrains(actions: seq<Action>, ch: ChanId)
    requires ch in Exec(INITIAL, actions).subs && ch in Exec(INITIAL, actions).broker.chans
    ensures var s := Exec(INITIAL, actions);
            var s' := Exec(INITIAL, actions + Receives(ch, |s.broker.chans[ch].buf|));
            var log := Log(s, s.subs[ch].topic);
            && ch in s'.subs && ch in s'.broker.chans && s'.broker.chans[ch].buf == []
            && (forall i :: 0 <= i < |s.subs[ch].idxs| ==> s.subs[ch].idxs[i] < |log|)
            && s'.subs[ch].received == Events(log, s.subs[ch].idxs)
  {
    hide Exec;
    var s := Exec(INITIAL, actions);
    var n := |s.broker.chans[ch].buf|;
    ReceiveMany(s, ch, n);
    ExecConcat(INITIAL, actions, Receives(ch, n));
    StreamExact(actions, ch);
    var log, idxs, k := Log(s, s.subs[ch].topic), s.subs[ch].idxs, |s.subs[ch].received|;
    assert Events(log, idxs[..k]) + Events(log, idxs[k..]) == Events(log, idxs);
  }
}
