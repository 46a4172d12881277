/** Everything that races on one VPS row: any number of SSH dials, each a sequence
    of read, handshake, set-if-unset and re-read; token issues and callbacks; and
    full-row updates from copies that may be arbitrarily stale. Database calls may
    fail before or after they took effect, and the row may be deleted. */
module VpsRaces {
  import opened Wrappers
  import opened VpsRepository

  type DialId = nat
  type CopyId = nat

  datatype Dial =
    | HasRead(stored: Option<string>)
    | Shaken(stored: Option<string>, presented: string)
    | LostRace(presented: string)
    | Succeeded(presented: string)
    | Failed

  /** `presented` collects every key any server presented; `delivered` the
      credentials of every callback that was told it succeeded, oldest first;
      `token` is the hash issued last. */
  datatype System = System(
    row: Option<Vps>, dials: map<DialId, Dial>, copies: map<CopyId, Vps>,
    presented: set<string>, delivered: seq<string>, token: Option<string>)

  datatype Action =
    | StartDial(dial: DialId)
    | Handshake(dial: DialId, presented: string)
    | Verify(dial: DialId, now: Time)
    | Reread(dial: DialId)
    | FailDial(dial: DialId)
    | SetThenFail(dial: DialId, now: Time)
    | IssueToken(hash: string, expiresAt: Time, now: Time)
    | Callback(hash: string, credentials: string, now: Time)
    | CallbackThenFail(hash: string, credentials: string, now: Time)
    | Read(copy: CopyId)
    | Edit(copy: CopyId, profile: string, status: string)
    | Update(copy: CopyId, now: Time)
    | UpdateStatus(status: string, now: Time)
    | Delete

  /** A row as Create inserts it. */
  predicate Fresh(row: Vps) {
    row.credentials.None? && row.tokenHash.None? && row.fingerprint.None?
  }

  function Initial(row: Vps): System {
    System(Some(row), map[], map[], {}, [], None)
  }

  function Stored(s: System): Option<string> {
    if s.row.Some? then s.row.value.fingerprint else None
  }

  function AfterVerify(s: System, dial: DialId, now: Time): System
    requires dial in s.dials && s.dials[dial].Shaken?
  {
    var d := s.dials[dial];
    if d.presented == "" then s.(dials := s.dials[dial := Failed])
    else if !IsUnset(d.stored) then
      s.(dials := s.dials[dial := if d.stored == Some(d.presented) then Succeeded(d.presented) else Failed])
    else if s.row.Some? && IsUnset(s.row.value.fingerprint) then
      s.(row := Some(WithFingerprintIfUnset(s.row.value, d.presented, now).0),
         dials := s.dials[dial := Succeeded(d.presented)])
    else s.(dials := s.dials[dial := LostRace(d.presented)])
  }

  function Step(s: System, a: Action): System {
    match a
    case StartDial(dial) =>
      if dial in s.dials then s else s.(dials := s.dials[dial := HasRead(Stored(s))])
    case Handshake(dial, presented) =>
      if dial in s.dials && s.dials[dial].HasRead? then
        s.(dials := s.dials[dial := if CallbackAccepts(s.dials[dial].stored, presented)
                                    then Shaken(s.dials[dial].stored, presented) else Failed],
           presented := s.presented + {presented})
      else s
    case Verify(dial, now) =>
      if dial in s.dials && s.dials[dial].Shaken? then AfterVerify(s, dial, now) else s
    case Reread(dial) =>
      if dial in s.dials && s.dials[dial].LostRace? then
        var presented := s.dials[dial].presented;
        s.(dials := s.dials[dial := if !IsUnset(Stored(s)) && Stored(s) == Some(presented)
                                    then Succeeded(presented) else Failed])
      else s
    case FailDial(dial) =>
      if dial in s.dials && !s.dials[dial].Succeeded? then s.(dials := s.dials[dial := Failed]) else s
    case SetThenFail(dial, now) =>
      if dial in s.dials && s.dials[dial].Shaken? then
        AfterVerify(s, dial, now).(dials := s.dials[dial := Failed])
      else s
    case IssueToken(hash, expiresAt, now) =>
      if s.row.Some? then s.(row := Some(WithToken(s.row.value, hash, expiresAt, now)), token := Some(hash)) else s
    case Callback(hash, credentials, now) =>
      if s.row.Some? then
        var (row, consumed) := WithCredentials(s.row.value, hash, credentials, now);
        s.(row := Some(row), delivered := if consumed then s.delivered + [credentials] else s.delivered)
      else s
    case CallbackThenFail(hash, credentials, now) =>
      if s.row.Some? then s.(row := Some(WithCredentials(s.row.value, hash, credentials, now).0)) else s
    case Read(copy) =>
      if s.row.Some? then s.(copies := s.copies[copy := s.row.value]) else s
    case Edit(copy, profile, status) =>
      if copy in s.copies then s.(copies := s.copies[copy := s.copies[copy].(profile := profile, status := status)])
      else s
    case Update(copy, now) =>
      if s.row.Some? && copy in s.copies then s.(row := Some(Overwritten(s.row.value, s.copies[copy], now))) else s
    case UpdateStatus(status, now) =>
      if s.row.Some? then s.(row := Some(WithStatus(s.row.value, status, now))) else s
    case Delete => s.(row := None)
  }

  function Exec(s: System, actions: seq<Action>): System
    decreases |actions|
  {
    if actions == [] then s else Step(Exec(s, actions[..|actions| - 1]), actions[|actions| - 1])
  }

  lemma ExecOn(s: System, actions: seq<Action>, more: seq<Action>)
    requires more != []
    ensures Exec(s, actions + more) == Step(Exec(s, actions + more[..|more| - 1]), more[|more| - 1])
  {
    hide Step;
    assert (actions + more)[..|actions + more| - 1] == actions + more[..|more| - 1];
  }

  // ---- Host keys ----

  // Nothing that was read or accepted contradicts the pin.
  ghost predicate Pinned(s: System, pin: Option<string>) {
    && (s.row.Some? ==> s.row.value.fingerprint == pin)
    && (IsUnset(pin) ==> pin == None)
    && (pin.Some? ==> pin.value in s.presented)
    && (forall d :: d in s.dials && (s.dials[d].HasRead? || s.dials[d].Shaken?) ==>
          s.dials[d].stored == None || s.dials[d].stored == pin)
    && (forall d :: d in s.dials && (s.dials[d].Shaken? || s.dials[d].LostRace?) ==>
         s.dials[d].presented in s.presented)
    && (forall d :: d in s.dials && s.dials[d].Succeeded? ==> pin == Some(s.dials[d].presented))
  }

  function PinAfter(s: System, pin: Option<string>, s': System): Option<string> {
    if s'.row.Some? then s'.row.value.fingerprint else pin
  }

  lemma VerifyKeepsPinned(s: System, pin: Option<string>, a: Action)
    requires Pinned(s, pin) && (a.Verify? || a.SetThenFail?)
    ensures var pin' := PinAfter(s, pin, Step(s, a));
            Pinned(Step(s, a), pin') && (pin.Some? ==> pin' == pin)
  {
  }

  lemma PinnedKept(s: System, pin: Option<string>, a: Action)
    requires Pinned(s, pin)
    ensures var pin' := PinAfter(s, pin, Step(s, a));
            Pinned(Step(s, a), pin') && (pin.Some? ==> pin' == pin)
  {
    if a.Verify? || a.SetThenFail? {
      VerifyKeepsPinned(s, pin, a);
    } else {
      hide AfterVerify;
    }
  }

  lemma {:induction false} PinFor(row: Vps, actions: seq<Action>) returns (pin: Option<string>)
    requires Fresh(row)
    ensures Pinned(Exec(Initial(row), actions), pin)
    decreases |actions|
  {
    if actions == [] {
      pin := None;
    } else {
      var init, a := actions[..|actions| - 1], actions[|actions| - 1];
      pin := PinFor(row, init);
      PinnedKept(Exec(Initial(row), init), pin, a);
      pin := PinAfter(Exec(Initial(row), init), pin, Exec(Initial(row), actions));
    }
  }

  /** Any two dials that succeed were presented the same key, even if the row was
      deleted in between; while the row exists it holds that key, and a key the row
      holds was presented by some server. */
  lemma PinAgreement(row: Vps, actions: seq<Action>, d: DialId, e: DialId)
    requires Fresh(row)
    requires var s := Exec(Initial(row), actions);
             d in s.dials && e in s.dials && s.dials[d].Succeeded? && s.dials[e].Succeeded?
    ensures var s := Exec(Initial(row), actions);
            && s.dials[d].presented == s.dials[e].presented != ""
            && s.dials[d].presented in s.presented
            && (s.row.Some? ==> s.row.value.fingerprint == Some(s.dials[d].presented))
  {
    var pin := PinFor(row, actions);
  }

  lemma FingerprintKept(s: System, a: Action)
    ensures Step(s, a).row.Some? ==> s.row.Some?
    ensures Step(s, a).row.Some? && !IsUnset(s.row.value.fingerprint) ==>
      Step(s, a).row.value.fingerprint == s.row.value.fingerprint
  {
  }

  /** From every reachable state, a dial that nothing else disturbs succeeds exactly if
      the row is there and names no other key; then the row names the presented one. */
  lemma UndisturbedDial(row: Vps, actions: seq<Action>, dial: DialId, presented: string, now: Time)
    requires dial !in Exec(Initial(row), actions).dials
    ensures var s := Exec(Initial(row), actions);
            var s' := Exec(Initial(row), actions + [StartDial(dial), Handshake(dial, presented), Verify(dial, now)]);
            && dial in s'.dials
            && (s'.dials[dial] == Succeeded(presented)
                <==> && s.row.Some? && presented != ""
                     && (|| s.row.value.fingerprint == None || s.row.value.fingerprint == Some("")
                         || s.row.value.fingerprint == Some(presented)))
            && (s'.dials[dial] == Succeeded(presented) ==>
                  s'.row.Some? && s'.row.value == s.row.value.(fingerprint := Some(presented),
                    updatedAt := if s.row.value.fingerprint == Some(presented) then s.row.value.updatedAt else now))
  {
    var steps := [StartDial(dial), Handshake(dial, presented), Verify(dial, now)];
    ExecThree(Initial(row), actions, steps);
  }

  lemma ExecThree(s: System, actions: seq<Action>, steps: seq<Action>)
    requires |steps| == 3
    ensures Exec(s, actions + steps) == Step(Step(Step(Exec(s, actions), steps[0]), steps[1]), steps[2])
  {
    hide Step;
    ExecOn(s, actions, steps);
    ExecOn(s, actions, steps[..2]);
    ExecOn(s, actions, steps[..1]);
    assert steps[..2][..1] == steps[..1] && actions + steps[..1][..0] == actions;
  }

  /** Once set, the stored key never changes while the row exists. */
  lemma {:induction false} PinStable(row: Vps, actions: seq<Action>, more: seq<Action>)
    requires Fresh(row)
    requires !IsUnset(Stored(Exec(Initial(row), actions)))
    ensures var s, s' := Exec(Initial(row), actions), Exec(Initial(row), actions + more);
            s'.row.Some? ==> s'.row.value.fingerprint == s.row.value.fingerprint
    decreases |more|
  {
    if more == [] {
      assert actions + more == actions;
    } else {
      var init, a := more[..|more| - 1], more[|more| - 1];
      hide Step, Exec;
      PinStable(row, actions, init);
      FingerprintKept(Exec(Initial(row), actions + init), a);
      ExecOn(Initial(row), actions, more);
    }
  }

  // ---- Credentials ----

  ghost predicate WriteOnce(s: System) {
    && (s.row.Some? ==> forall c :: c in s.copies && s.copies[c].credentials.Some? ==>
         s.copies[c].credentials == s.row.value.credentials)
    && |s.delivered| <= 1
    && (s.row.Some? && s.delivered != [] ==> s.row.value.credentials == Some(s.delivered[0]))
    && (s.row.Some? && s.row.value.tokenHash.Some? ==> s.row.value.tokenHash == s.token)
  }

  lemma CallbackKeepsWriteOnce(s: System, a: Action)
    requires WriteOnce(s) && (a.Callback? || a.CallbackThenFail?)
    ensures WriteOnce(Step(s, a))
  {
    hide AfterVerify;
  }

  lemma WriteOnceKept(s: System, a: Action)
    requires WriteOnce(s)
    ensures WriteOnce(Step(s, a))
  {
    if a.Callback? || a.CallbackThenFail? {
      CallbackKeepsWriteOnce(s, a);
    } else {
      hide WithCredentials, Accepts;
    }
  }

  lemma CredentialsKept(s: System, a: Action)
    requires WriteOnce(s)
    ensures Step(s, a).row.Some? ==> s.row.Some?
    ensures Step(s, a).row.Some? && s.row.value.credentials.Some? ==>
      Step(s, a).row.value.credentials == s.row.value.credentials
  {
  }

  lemma {:induction false} WriteOnceInvariant(row: Vps, actions: seq<Action>)
    requires Fresh(row)
    ensures WriteOnce(Exec(Initial(row), actions))
    decreases |actions|
  {
    if actions != [] {
      var init, a := actions[..|actions| - 1], actions[|actions| - 1];
      WriteOnceInvariant(row, init);
      WriteOnceKept(Exec(Initial(row), init), a);
    }
  }

  /** At most one callback is ever told that it succeeded, however often tokens are
      issued again, and as long as the row exists it holds what that one delivered. */
  lemma OneCallbackSucceeds(row: Vps, actions: seq<Action>)
    requires Fresh(row)
    ensures var s := Exec(Initial(row), actions);
            && |s.delivered| <= 1
            && (s.row.Some? && s.delivered != [] ==> s.row.value.credentials == Some(s.delivered[0]))
  {
    WriteOnceInvariant(row, actions);
  }

  /** A callback succeeds exactly when its token is the one issued last, has not
      expired and was not used, the machine is provisioning or running, and no
      credentials have been stored; then the token is spent. */
  lemma CallbackNeedsLatestToken(row: Vps, actions: seq<Action>, hash: string, credentials: string, now: Time)
    requires Fresh(row)
    ensures var s := Exec(Initial(row), actions);
            var s' := Step(s, Callback(hash, credentials, now));
            && (s'.delivered != s.delivered ==>
                  && s.row.Some? && s.delivered == [] && s'.delivered == [credentials]
                  && s.token == Some(hash) && s.row.value.tokenExpires.Some? && now < s.row.value.tokenExpires.value
                  && s.row.value.credentials == None && s'.row.value.credentials == Some(credentials)
                  && forall h, c, t :: Step(s', Callback(h, c, t)) == s')
            && (s'.delivered == s.delivered + [credentials]
                <==> && s.row.Some? && s.row.value.tokenHash == Some(hash)
                     && s.row.value.tokenExpires.Some? && now < s.row.value.tokenExpires.value
                     && s.row.value.tokenUsedAt == None && s.row.value.credentials == None
                     && (s.row.value.status == "provisioning" || s.row.value.status == "running"))
  {
    WriteOnceInvariant(row, actions);
  }

  /** From every reachable state: a token that is used right after it was issued
      delivers the credentials exactly if it has not expired, the machine is
      provisioning or running, and none are stored. */
  lemma IssuedTokenDelivers(row: Vps, actions: seq<Action>, hash: string, credentials: string, expiresAt: Time,
                            issuedAt: Time, now: Time)
    ensures var s := Exec(Initial(row), actions);
            var s' := Exec(Initial(row),
                        actions + [IssueToken(hash, expiresAt, issuedAt), Callback(hash, credentials, now)]);
            && (s'.delivered == s.delivered + [credentials]
                <==> && s.row.Some? && now < expiresAt && s.row.value.credentials == None
                     && (s.row.value.status == "provisioning" || s.row.value.status == "running"))
            && (s'.delivered != s.delivered ==> s'.row.Some? && s'.row.value.credentials == Some(credentials))
  {
    var steps := [IssueToken(hash, expiresAt, issuedAt), Callback(hash, credentials, now)];
    ExecOn(Initial(row), actions, steps);
    ExecOn(Initial(row), actions, steps[..1]);
    assert actions + steps[..1][..0] == actions;
  }

  /** From every reachable state: an edit that nothing else disturbs is in the row
      afterwards, and changes nothing else. */
  lemma UndisturbedEdit(row: Vps, actions: seq<Action>, copy: CopyId, profile: string, status: string, now: Time)
    ensures var s := Exec(Initial(row), actions);
            var s' := Exec(Initial(row), actions + [Read(copy), Edit(copy, profile, status), Update(copy, now)]);
            s'.row == match s.row
                      case None => None
                      case Some(r) => Some(r.(profile := profile, status := status, updatedAt := now))
  {
    ExecThree(Initial(row), actions, [Read(copy), Edit(copy, profile, status), Update(copy, now)]);
  }

  /** Stored credentials never change and never become NULL while the row exists,
      not even through a full-row update from a copy read before they arrived. */
  lemma {:induction false} CredentialsStable(row: Vps, actions: seq<Action>, more: seq<Action>)
    requires Fresh(row)
    requires var s := Exec(Initial(row), actions); s.row.Some? && s.row.value.credentials.Some?
    ensures var s, s' := Exec(Initial(row), actions), Exec(Initial(row), actions + more);
            s'.row.Some? ==> s'.row.value.credentials == s.row.value.credentials
    decreases |more|
  {
    if more == [] {
      assert actions + more == actions;
    } else {
      var init, a := more[..|more| - 1], more[|more| - 1];
      hide Step, Exec;
      var mid := Exec(Initial(row), actions + init);
      CredentialsStable(row, actions, init);
      WriteOnceInvariant(row, actions + init);
      CredentialsKept(mid, a);
      ExecOn(Initial(row), actions, more);
    }
  }
}
