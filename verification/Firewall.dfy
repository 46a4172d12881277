/** The firewall rules of internal/service/provision.go: writing a rule set to a
    network security group, reading it back, and what survives. */
module Firewall {
  import opened Wrappers

  /** A rule as the API speaks of it. */
  datatype Rule = Rule(
    port: int, name: string, description: string, direction: string, source: string, destination: string)

  datatype PortRange = PortRange(min: Option<int>, max: Option<int>)

  datatype Ports = Ports(destination: Option<PortRange>, source: Option<PortRange>)

  datatype Icmp = Icmp(kind: int, code: Option<int>)

  /** A rule as the security group stores it, without its id; an absent type is "". */
  datatype Details = Details(
    protocol: string, direction: string,
    source: Option<string>, sourceType: string, destination: Option<string>, destinationType: string,
    description: Option<string>, tcp: Option<Ports>, udp: Option<Ports>, icmp: Option<Icmp>, stateless: bool)

  datatype Stored = Stored(id: string, details: Details)

  const TCP := "6"
  const ANYWHERE := "0.0.0.0/0"
  const CIDR := "CIDR_BLOCK"

  function LowerChar(c: char): char {
    if 'A' <= c <= 'Z' then ((c as int) + 32) as char else c
  }

  function ToLower(s: string): (lower: string)
    ensures |lower| == |s|
    ensures forall i :: 0 <= i < |s| ==> lower[i] == LowerChar(s[i])
  {
    if s == "" then "" else [LowerChar(s[0])] + ToLower(s[1..])
  }

  function OrAnywhere(range: string): string {
    if range != "" then range else ANYWHERE
  }

  function OnlyPort(port: int): Option<Ports> {
    if port > 0 then Some(Ports(Some(PortRange(Some(port), Some(port))), None)) else None
  }

  /** What UpdateFirewallRules sends for one rule; nothing for an unknown direction. */
  function ToDetails(rule: Rule): Option<Details> {
    var tcp := OnlyPort(rule.port);
    var description := if rule.description != "" then Some(rule.description) else None;
    if ToLower(rule.direction) == "ingress" then
      Some(Details(TCP, "INGRESS", Some(OrAnywhere(rule.source)), CIDR, None, "", description, tcp, None, None, false))
    else if ToLower(rule.direction) == "egress" then
      Some(Details(TCP, "EGRESS", None, "", Some(OrAnywhere(rule.destination)), CIDR,
                   description, tcp, None, None, false))
    else None
  }

  function OrEmpty(text: Option<string>): string {
    if text.Some? then text.value else ""
  }

  predicate HasRange(ports: Option<Ports>) {
    ports.Some? && ports.value.destination.Some?
  }

  function FirstPort(ports: Option<Ports>): int
    requires HasRange(ports)
  {
    var range := ports.value.destination.value;
    if range.min.Some? then range.min.value else 0
  }

  /** What GetFirewallRules makes of one stored rule. */
  function FromDetails(d: Details): Rule {
    var port := if HasRange(d.tcp) then FirstPort(d.tcp) else if HasRange(d.udp) then FirstPort(d.udp) else 0;
    Rule(port, OrEmpty(d.description), OrEmpty(d.description), ToLower(d.direction),
         OrEmpty(d.source), OrEmpty(d.destination))
  }

  function AllDetails(rules: seq<Rule>): seq<Details> {
    if rules == [] then []
    else (if ToDetails(rules[0]).Some? then [ToDetails(rules[0]).value] else []) + AllDetails(rules[1..])
  }

  function AllRules(ds: seq<Details>): seq<Rule> {
    if ds == [] then [] else [FromDetails(ds[0])] + AllRules(ds[1..])
  }

  function Contents(stored: seq<Stored>): (ds: seq<Details>)
    ensures |ds| == |stored|
  {
    if stored == [] then [] else [stored[0].details] + Contents(stored[1..])
  }

  // ---- The normal form of a rule ----

  predicate Known(rule: Rule) {
    ToLower(rule.direction) in {"ingress", "egress"}
  }

  /** Lower-case direction, no negative port, the description as name, the range of
      the rule's own direction only, and anywhere when that is missing. */
  function Normalised(rule: Rule): Rule {
    var ingress := ToLower(rule.direction) == "ingress";
    Rule(if rule.port > 0 then rule.port else 0, rule.description, rule.description, ToLower(rule.direction),
         if ingress then (if rule.source == "" then "0.0.0.0/0" else rule.source) else "",
         if ingress then "" else (if rule.destination == "" then "0.0.0.0/0" else rule.destination))
  }

  lemma LowerIsStable(s: string)
    ensures ToLower(ToLower(s)) == ToLower(s)
  {
  }

  lemma LowerDirections()
    ensures ToLower("INGRESS") == "ingress" && ToLower("EGRESS") == "egress"
  {
  }

  lemma KnownIsWritten(rule: Rule)
    ensures ToDetails(rule).Some? <==> Known(rule)
  {
  }

  lemma ReadBack(rule: Rule)
    requires Known(rule)
    ensures FromDetails(ToDetails(rule).value) == Normalised(rule)
  {
    LowerDirections();
  }

  lemma NormalisedIsKnown(rule: Rule)
    requires Known(rule)
    ensures Known(Normalised(rule))
    ensures Normalised(Normalised(rule)) == Normalised(rule)
  {
    LowerIsStable(rule.direction);
  }

  lemma NormalisedWritesSame(rule: Rule)
    requires Known(rule)
    ensures ToDetails(Normalised(rule)) == ToDetails(rule)
  {
    LowerIsStable(rule.direction);
    assert ToLower(Normalised(rule).direction) == ToLower(rule.direction);
  }

  /** One rule written and read back is its normal form, and is dropped exactly when
      its direction is unknown; normal forms are left alone. */
  lemma RuleRoundTrip(rule: Rule)
    ensures ToDetails(rule).Some? <==> Known(rule)
    ensures Known(rule) ==> FromDetails(ToDetails(rule).value) == Normalised(rule)
    ensures Known(rule) ==> Known(Normalised(rule)) && Normalised(Normalised(rule)) == Normalised(rule)
    ensures Known(rule) ==> ToDetails(Normalised(rule)) == ToDetails(rule)
  {
    hide *;
    KnownIsWritten(rule);
    if Known(rule) {
      ReadBack(rule);
      NormalisedIsKnown(rule);
      NormalisedWritesSame(rule);
    }
  }

  function NormalForms(rules: seq<Rule>): seq<Rule> {
    if rules == [] then []
    else (if Known(rules[0]) then [Normalised(rules[0])] else []) + NormalForms(rules[1..])
  }

  lemma {:induction false} WriteThenReadList(rules: seq<Rule>)
    ensures AllRules(AllDetails(rules)) == NormalForms(rules)
    decreases rules
  {
    if rules != [] {
      hide ToDetails, FromDetails, Known, Normalised;
      RuleRoundTrip(rules[0]);
      WriteThenReadList(rules[1..]);
      if Known(rules[0]) {
        var d := ToDetails(rules[0]).value;
        assert AllDetails(rules) == [d] + AllDetails(rules[1..]);
        assert ([d] + AllDetails(rules[1..]))[1..] == AllDetails(rules[1..]);
      } else {
        assert AllDetails(rules) == AllDetails(rules[1..]);
      }
    }
  }

  // ---- Lists are compared as multisets: the group keeps no order ----

  lemma {:induction false} AllRulesAppend(a: seq<Details>, b: seq<Details>)
    ensures AllRules(a + b) == AllRules(a) + AllRules(b)
    decreases a
  {
    if a == [] {
      assert a + b == b;
    } else {
      assert (a + b)[1..] == a[1..] + b;
      AllRulesAppend(a[1..], b);
    }
  }

  lemma {:induction false} AllDetailsAppend(a: seq<Rule>, b: seq<Rule>)
    ensures AllDetails(a + b) == AllDetails(a) + AllDetails(b)
    decreases a
  {
    if a == [] {
      assert a + b == b;
    } else {
      assert (a + b)[1..] == a[1..] + b;
      AllDetailsAppend(a[1..], b);
    }
  }

  lemma Insert<T>(l: seq<T>, m: seq<T>, r: seq<T>)
    ensures multiset(l + (m + r)) == multiset(l + r) + multiset(m)
  {
  }

  lemma AllRulesOne(d: Details)
    ensures AllRules([d]) == [FromDetails(d)]
  {
    hide FromDetails;
    assert [d][1..] == [];
  }

  lemma AllRulesAt(b: seq<Details>, i: nat)
    requires i < |b|
    ensures multiset(AllRules(b)) == multiset(AllRules(b[..i] + b[i + 1..])) + multiset([FromDetails(b[i])])
  {
    hide AllRules, FromDetails;
    var l, m, r := AllRules(b[..i]), AllRules([b[i]]), AllRules(b[i + 1..]);
    AllRulesOne(b[i]);
    AllRulesAppend(b[..i], b[i + 1..]);
    AllRulesAppend(b[..i], b[i..]);
    AllRulesAppend([b[i]], b[i + 1..]);
    assert b == b[..i] + b[i..] && b[i..] == [b[i]] + b[i + 1..];
    Insert(l, m, r);
  }

  lemma AllDetailsAt(b: seq<Rule>, i: nat)
    requires i < |b|
    ensures multiset(AllDetails(b)) == multiset(AllDetails(b[..i] + b[i + 1..])) + multiset(AllDetails([b[i]]))
  {
    hide AllDetails;
    var l, m, r := AllDetails(b[..i]), AllDetails([b[i]]), AllDetails(b[i + 1..]);
    AllDetailsAppend(b[..i], b[i + 1..]);
    AllDetailsAppend(b[..i], b[i..]);
    AllDetailsAppend([b[i]], b[i + 1..]);
    assert b == b[..i] + b[i..] && b[i..] == [b[i]] + b[i + 1..];
    Insert(l, m, r);
  }

  lemma Find<T>(b: seq<T>, x: T) returns (i: nat)
    requires x in multiset(b)
    ensures i < |b| && b[i] == x
    ensures multiset(b[..i] + b[i + 1..]) == multiset(b) - multiset{x}
  {
    i :| 0 <= i < |b| && b[i] == x;
    assert b == b[..i] + [b[i]] + b[i + 1..];
  }

  lemma HeadTail<T>(a: seq<T>)
    requires a != []
    ensures multiset(a[1..]) == multiset(a) - multiset{a[0]} && a[0] in multiset(a)
    ensures a[..0] + a[1..] == a[1..]
  {
    assert a == [a[0]] + a[1..];
  }

  lemma OnlyEmpty<T>(b: seq<T>)
    requires multiset(b) == multiset{}
    ensures b == []
  {
    assert |b| == |multiset(b)|;
  }

  lemma {:induction false} SameRules(a: seq<Details>, b: seq<Details>)
    requires multiset(a) == multiset(b)
    ensures multiset(AllRules(a)) == multiset(AllRules(b))
    decreases |a|
  {
    if a == [] {
      OnlyEmpty(b);
    } else {
      HeadTail(a);
      var i := Find(b, a[0]);
      SameRules(a[1..], b[..i] + b[i + 1..]);
      AllRulesAt(a, 0);
      AllRulesAt(b, i);
    }
  }

  lemma {:induction false} SameDetails(a: seq<Rule>, b: seq<Rule>)
    requires multiset(a) == multiset(b)
    ensures multiset(AllDetails(a)) == multiset(AllDetails(b))
    decreases |a|
  {
    if a == [] {
      OnlyEmpty(b);
    } else {
      HeadTail(a);
      var i := Find(b, a[0]);
      SameDetails(a[1..], b[..i] + b[i + 1..]);
      AllDetailsAt(a, 0);
      AllDetailsAt(b, i);
    }
  }

  // ---- The security group and the service ----

  datatype Failure = ListFailed | RemoveFailed | AddFailed

  /** The group as the service sees it: it lists its rules in an order of its own,
      and any call may fail, a failed change having happened or not. */
  class SecurityGroup {
    var stored: seq<Stored>
    var made: nat

    constructor ()
      ensures stored == []
    {
      stored, made := [], 0;
    }

    method List() returns (ok: bool, listed: seq<Stored>)
      ensures multiset(Contents(listed)) == multiset(Contents(stored)) && Ids(listed) == Ids(stored)
    {
      listed := stored;
      ok := *;
    }

    method Remove(ids: set<string>) returns (ok: bool)
      modifies this`stored
      ensures stored == old(stored) || stored == Without(old(stored), ids)
      ensures ok ==> stored == Without(old(stored), ids)
    {
      ok := *;
      var effect := *;
      if ok || effect {
        stored := Without(stored, ids);
      }
    }

    method Add(ds: seq<Details>) returns (ok: bool)
      modifies this
      ensures Contents(stored) == Contents(old(stored)) || Contents(stored) == Contents(old(stored)) + ds
      ensures ok ==> Contents(stored) == Contents(old(stored)) + ds
    {
      ok := *;
      var effect := *;
      if ok || effect {
        var i := 0;
        while i < |ds|
          invariant 0 <= i <= |ds| && Contents(stored) == Contents(old(stored)) + ds[..i]
        {
          var id := seq(made, _ => 'x');
          ContentsAppend(stored, [Stored(id, ds[i])]);
          stored := stored + [Stored(id, ds[i])];
          made := made + 1;
          assert ds[..i + 1] == ds[..i] + [ds[i]];
          i := i + 1;
        }
        assert ds[..|ds|] == ds;
      }
    }
  }

  function Ids(stored: seq<Stored>): set<string> {
    set s | s in stored :: s.id
  }

  function Without(stored: seq<Stored>, ids: set<string>): seq<Stored> {
    if stored == [] then []
    else (if stored[0].id in ids then [] else [stored[0]]) + Without(stored[1..], ids)
  }

  lemma {:induction false} WithoutAll(stored: seq<Stored>, ids: set<string>)
    requires Ids(stored) <= ids
    ensures Without(stored, ids) == []
    decreases stored
  {
    if stored != [] {
      assert stored[0].id in Ids(stored);
      assert Ids(stored[1..]) <= Ids(stored);
      WithoutAll(stored[1..], ids);
    }
  }

  lemma {:induction false} ContentsAppend(a: seq<Stored>, b: seq<Stored>)
    ensures Contents(a + b) == Contents(a) + Contents(b)
    decreases a
  {
    if a == [] {
      assert a + b == b;
    } else {
      assert (a + b)[1..] == a[1..] + b;
      ContentsAppend(a[1..], b);
    }
  }

  /** Replaces the group's rules. On success it holds exactly what was sent. On
      failure it holds what it held before, or nothing, or what was sent: the
      replacement is not atomic. */
  method UpdateFirewallRules(group: SecurityGroup, rules: seq<Rule>) returns (failure: Option<Failure>)
    modifies group
    ensures failure.None? ==> Contents(group.stored) == AllDetails(rules)
    ensures failure.Some? ==>
      || group.stored == old(group.stored) || group.stored == []
      || (failure == Some(AddFailed) && Contents(group.stored) == AllDetails(rules))
    ensures failure == Some(ListFailed) ==> group.stored == old(group.stored)
  {
    var listed, current := group.List();
    if !listed {
      return Some(ListFailed);
    }
    var ids := CollectIds(current);
    WithoutAll(group.stored, ids);
    var removed := group.Remove(ids);
    if !removed {
      return Some(RemoveFailed);
    }
    if |rules| == 0 {
      return None;
    }
    var details := ConvertAll(rules);
    assert [] + details == details;
    var added := group.Add(details);
    if !added {
      return Some(AddFailed);
    }
    return None;
  }

  method CollectIds(current: seq<Stored>) returns (ids: set<string>)
    ensures ids == Ids(current)
  {
    ids := {};
    var i := 0;
    while i < |current|
      invariant 0 <= i <= |current| && ids == Ids(current[..i])
    {
      assert current[..i + 1] == current[..i] + [current[i]];
      ids := ids + {current[i].id};
      i := i + 1;
    }
    assert current[..|current|] == current;
  }

  method ConvertAll(rules: seq<Rule>) returns (details: seq<Details>)
    ensures details == AllDetails(rules)
  {
    details := [];
    var i := 0;
    while i < |rules|
      invariant 0 <= i <= |rules| && details == AllDetails(rules[..i])
    {
      assert rules[..i + 1] == rules[..i] + [rules[i]];
      AllDetailsAppend(rules[..i], [rules[i]]);
      var converted := Convert(rules[i]);
      if converted.Some? {
        details := details + [converted.value];
      }
      i := i + 1;
    }
    assert rules[..|rules|] == rules;
  }

  method ReadAll(current: seq<Stored>) returns (read: seq<Rule>)
    ensures read == AllRules(Contents(current))
  {
    read := [];
    var i := 0;
    while i < |current|
      invariant 0 <= i <= |current| && read == AllRules(Contents(current[..i]))
    {
      assert current[..i + 1] == current[..i] + [current[i]];
      ContentsAppend(current[..i], [current[i]]);
      AllRulesAppend(Contents(current[..i]), Contents([current[i]]));
      var rule := ReadRule(current[i].details);
      read := read + [rule];
      i := i + 1;
    }
    assert current[..|current|] == current;
  }

  // The body of the conversion loop; None is its "continue".
  method Convert(rule: Rule) returns (converted: Option<Details>)
    ensures converted == ToDetails(rule)
    ensures converted.Some? <==> ToLower(rule.direction) == "ingress" || ToLower(rule.direction) == "egress"
    ensures converted.Some? ==>
      var d := converted.value;
      && d.protocol == "6" && d.udp == None && d.icmp == None && !d.stateless
      && d.tcp
         == (if rule.port > 0 then Some(Ports(Some(PortRange(Some(rule.port), Some(rule.port))), None)) else None)
      && d.description == if rule.description == "" then None else Some(rule.description)
    ensures ToLower(rule.direction) == "ingress" ==>
      var d := converted.value;
      && d.direction == "INGRESS" && d.sourceType == "CIDR_BLOCK" && d.destination == None && d.destinationType == ""
      && d.source == Some(if rule.source == "" then "0.0.0.0/0" else rule.source)
    ensures ToLower(rule.direction) == "egress" ==>
      var d := converted.value;
      && d.direction == "EGRESS" && d.destinationType == "CIDR_BLOCK" && d.source == None && d.sourceType == ""
      && d.destination == Some(if rule.destination == "" then "0.0.0.0/0" else rule.destination)
  {
    var d := Details(TCP, "", None, "", None, "", None, None, None, None, false);
    var direction := ToLower(rule.direction);
    if direction == "ingress" {
      d := d.(direction := "INGRESS");
      if rule.source != "" {
        d := d.(source := Some(rule.source), sourceType := CIDR);
      } else {
        d := d.(source := Some(ANYWHERE), sourceType := CIDR);
      }
      if rule.port > 0 {
        d := d.(tcp := Some(Ports(Some(PortRange(Some(rule.port), Some(rule.port))), None)));
      }
    } else if direction == "egress" {
      d := d.(direction := "EGRESS");
      if rule.destination != "" {
        d := d.(destination := Some(rule.destination), destinationType := CIDR);
      } else {
        d := d.(destination := Some(ANYWHERE), destinationType := CIDR);
      }
      if rule.port > 0 {
        d := d.(tcp := Some(Ports(Some(PortRange(Some(rule.port), Some(rule.port))), None)));
      }
    } else {
      return None;
    }
    if rule.description != "" {
      d := d.(description := Some(rule.description));
    }
    return Some(d);
  }

  // The body of the reading loop.
  method ReadRule(d: Details) returns (rule: Rule)
    ensures rule == FromDetails(d)
    ensures rule.direction == ToLower(d.direction)
    ensures d.source == Some(rule.source) || (d.source == None && rule.source == "")
    ensures d.destination == Some(rule.destination) || (d.destination == None && rule.destination == "")
    ensures d.description == Some(rule.description) || (d.description == None && rule.description == "")
    ensures rule.name == rule.description
    // The TCP range if there is one, else the UDP range; its lower end, if that is set.
    ensures d.tcp.Some? && d.tcp.value.destination.Some? ==>
      rule.port == match d.tcp.value.destination.value.min { case Some(p) => p case None => 0 }
    ensures !(d.tcp.Some? && d.tcp.value.destination.Some?) && d.udp.Some? && d.udp.value.destination.Some? ==>
      rule.port == match d.udp.value.destination.value.min { case Some(p) => p case None => 0 }
    ensures (&& !(d.tcp.Some? && d.tcp.value.destination.Some?)
             && !(d.udp.Some? && d.udp.value.destination.Some?)) ==> rule.port == 0
  {
    rule := Rule(0, "", "", ToLower(d.direction), "", "");
    if d.source.Some? {
      rule := rule.(source := d.source.value);
    }
    if d.destination.Some? {
      rule := rule.(destination := d.destination.value);
    }
    if d.description.Some? {
      rule := rule.(name := d.description.value, description := d.description.value);
    }
    if d.tcp.Some? && d.tcp.value.destination.Some? {
      if d.tcp.value.destination.value.min.Some? {
        rule := rule.(port := d.tcp.value.destination.value.min.value);
      }
    } else if d.udp.Some? && d.udp.value.destination.Some? {
      if d.udp.value.destination.value.min.Some? {
        rule := rule.(port := d.udp.value.destination.value.min.value);
      }
    }
  }

  method GetFirewallRules(group: SecurityGroup) returns (rules: Option<seq<Rule>>)
    ensures rules.Some? ==> multiset(rules.value) == multiset(AllRules(Contents(group.stored)))
  {
    var listed, current := group.List();
    if !listed {
      return None;
    }
    var read := ReadAll(current);
    SameRules(Contents(current), Contents(group.stored));
    return Some(read);
  }

  /** The update handler: write, read back, and answer with the two directions apart. */
  method UpdateAndShow(group: SecurityGroup, rules: seq<Rule>) returns (shown: Option<(seq<Rule>, seq<Rule>)>)
    modifies group
    ensures shown.Some? ==>
      && multiset(shown.value.0 + shown.value.1) == multiset(NormalForms(rules))
      && (forall r :: r in shown.value.0 ==> r.direction == "ingress")
      && (forall r :: r in shown.value.1 ==> r.direction != "ingress")
  {
    var failure := UpdateFirewallRules(group, rules);
    if failure.Some? {
      return None;
    }
    var read := GetFirewallRules(group);
    if read.None? {
      return None;
    }
    WriteThenReadList(rules);
    var ingress, egress := Split(read.value);
    return Some((ingress, egress));
  }

  method Split(rules: seq<Rule>) returns (ingress: seq<Rule>, egress: seq<Rule>)
    ensures multiset(ingress + egress) == multiset(rules)
    ensures forall r :: r in ingress ==> r.direction == "ingress"
    ensures forall r :: r in egress ==> r.direction != "ingress"
  {
    ingress, egress := [], [];
    var i := 0;
    while i < |rules|
      invariant 0 <= i <= |rules| && multiset(ingress) + multiset(egress) == multiset(rules[..i])
      invariant forall r :: r in ingress ==> r.direction == "ingress"
      invariant forall r :: r in egress ==> r.direction != "ingress"
    {
      assert rules[..i + 1] == rules[..i] + [rules[i]];
      if rules[i].direction == "ingress" {
        ingress := ingress + [rules[i]];
      } else {
        egress := egress + [rules[i]];
      }
      i := i + 1;
    }
    assert rules[..|rules|] == rules;
  }

  // ---- Saving back what was loaded ----

  /** The form of the rules this code writes: stateful TCP, one destination port or
      all of them, a non-empty description or none, and an address range for its own
      direction only. */
  predicate WrittenForm(d: Details) {
    && d.protocol == "6" && d.udp.None? && d.icmp.None? && !d.stateless
    && (d.tcp.Some? ==>
          && d.tcp.value.source.None? && d.tcp.value.destination.Some?
          && var range := d.tcp.value.destination.value;
             range.min.Some? && range.min.value > 0 && range.max == range.min)
    && d.description != Some("")
    && match d.direction
       case "INGRESS" =>
         && d.source.Some? && d.source != Some("") && d.sourceType == "CIDR_BLOCK"
         && d.destination.None? && d.destinationType == ""
       case "EGRESS" =>
         && d.destination.Some? && d.destination != Some("") && d.destinationType == "CIDR_BLOCK"
         && d.source.None? && d.sourceType == ""
       case _ => false
  }

  lemma SaveBackIngress(d: Details)
    requires ToLower(d.direction) == "ingress"
    ensures ToDetails(FromDetails(d)) == Some(d) <==> WrittenForm(d)
  {
    LowerDirections();
    LowerIsStable(d.direction);
    hide ToLower;
  }

  lemma SaveBackEgress(d: Details)
    requires ToLower(d.direction) == "egress"
    ensures ToDetails(FromDetails(d)) == Some(d) <==> WrittenForm(d)
  {
    LowerDirections();
    LowerIsStable(d.direction);
    hide ToLower;
  }

  lemma SaveBackOther(d: Details)
    requires ToLower(d.direction) != "ingress" && ToLower(d.direction) != "egress"
    ensures ToDetails(FromDetails(d)) == None && !WrittenForm(d)
  {
    LowerDirections();
    LowerIsStable(d.direction);
    hide ToLower;
  }

  /** Loading a stored rule and saving it again gives the same stored rule if and
      only if it has the form this code writes; a UDP rule, for one, comes back as
      a TCP rule. */
  lemma SaveBackExact(d: Details)
    ensures ToDetails(FromDetails(d)) == Some(d) <==> WrittenForm(d)
  {
    hide ToLower, ToDetails, FromDetails, WrittenForm;
    if ToLower(d.direction) == "ingress" {
      SaveBackIngress(d);
    } else if ToLower(d.direction) == "egress" {
      SaveBackEgress(d);
    } else {
      SaveBackOther(d);
    }
  }

  lemma WrittenByThisCode(rule: Rule)
    requires Known(rule)
    ensures WrittenForm(ToDetails(rule).value)
  {
  }

  lemma {:induction false} AllWritten(rules: seq<Rule>)
    ensures forall d :: d in AllDetails(rules) ==> WrittenForm(d)
    decreases rules
  {
    if rules != [] {
      hide WrittenForm, ToDetails;
      KnownIsWritten(rules[0]);
      if Known(rules[0]) {
        WrittenByThisCode(rules[0]);
      }
      AllWritten(rules[1..]);
    }
  }

  lemma {:induction false} SaveBackList(ds: seq<Details>)
    requires forall i :: 0 <= i < |ds| ==> WrittenForm(ds[i])
    ensures AllDetails(AllRules(ds)) == ds
    decreases ds
  {
    if ds != [] {
      hide ToDetails, FromDetails, WrittenForm;
      SaveBackExact(ds[0]);
      SaveBackList(ds[1..]);
      SaveBackFirst(ds);
    }
  }

  lemma SaveBackFirst(ds: seq<Details>)
    requires ds != [] && ToDetails(FromDetails(ds[0])) == Some(ds[0])
    ensures AllDetails(AllRules(ds)) == [ds[0]] + AllDetails(AllRules(ds[1..]))
  {
    hide ToDetails, FromDetails;
    var first, rest := FromDetails(ds[0]), AllRules(ds[1..]);
    assert ([first] + rest)[1..] == rest;
  }

  /** Loading a whole group, splitting the rules by direction and saving the two lists
      leaves the group's rules as they were if and only if every one of them has the
      form this code writes. */
  lemma SaveBackIsIdentity(ds: seq<Details>, ingress: seq<Rule>, egress: seq<Rule>)
    requires multiset(ingress + egress) == multiset(AllRules(ds))
    ensures multiset(AllDetails(ingress + egress)) == multiset(ds)
       <==> (forall i :: 0 <= i < |ds| ==> WrittenForm(ds[i]))
  {
    hide WrittenForm, AllRules, AllDetails;
    if forall i :: 0 <= i < |ds| ==> WrittenForm(ds[i]) {
      SaveBackList(ds);
      SameDetails(ingress + egress, AllRules(ds));
    }
    if multiset(AllDetails(ingress + egress)) == multiset(ds) {
      AllWritten(ingress + egress);
      forall i | 0 <= i < |ds| ensures WrittenForm(ds[i]) {
        assert ds[i] in multiset(ds);
      }
    }
  }
}
