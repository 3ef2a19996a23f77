/** Validation and normalisation of firewall rules (the rule and firewall
    normalisers of the firewall resource). */
module FirewallRules {
  import opened Wrappers
  import opened Text
  import opened ApiTypes

  /** The protocol pattern `^(any|icmp|tcp|udp)$`: exactly one of four words. */
  predicate ValidProtocol(protocol: string) {
    protocol == "any" || protocol == "icmp" || protocol == "tcp" || protocol == "udp"
  }

  /** The number group of the port pattern,
      `[1-9][0-9]{0,3}|[1-5][0-9]{4}|6[0-4][0-9]{3}|65[0-4][0-9]{2}|655[0-2][0-9]|6553[0-5]`,
      matched against the whole of `s`, one disjunct per alternative. */
  predicate PortNumberPattern(s: string) {
    AllDigits(s) && (
      || (1 <= |s| <= 4 && '1' <= s[0] <= '9')
      || (|s| == 5 && '1' <= s[0] <= '5')
      || (|s| == 5 && s[0] == '6' && '0' <= s[1] <= '4')
      || (|s| == 5 && s[0] == '6' && s[1] == '5' && '0' <= s[2] <= '4')
      || (|s| == 5 && s[0] == '6' && s[1] == '5' && s[2] == '5' && '0' <= s[3] <= '2')
      || (|s| == 5 && s[0] == '6' && s[1] == '5' && s[2] == '5' && s[3] == '3' && '0' <= s[4] <= '5'))
  }

  /** The whole port pattern: `^N$|^N-N$|^any$` with N the number group. */
  predicate ValidPort(port: string) {
    || PortNumberPattern(port)
    || (exists k | 0 <= k < |port| :: port[k] == '-' && PortNumberPattern(port[..k]) && PortNumberPattern(port[k + 1..]))
    || port == "any"
  }

  /** A port number as the rules mean it: a decimal numeral without sign or
      leading zero whose value lies in 1..65535. */
  predicate IsPortNumber(s: string) {
    0 < |s| && AllDigits(s) && s[0] != '0' && 1 <= DecimalValue(s) <= 65535
  }

  /** The number group matches exactly the canonical spellings of 1..65535. */
  lemma PortNumberPatternIsPortNumber(s: string)
    ensures PortNumberPattern(s) <==> IsPortNumber(s)
  {
    if 0 < |s| && AllDigits(s) {
      DecimalValueBounds(s);
      if |s| == 5 {
        DecimalValueOfFive(s);
      } else if |s| > 5 && s[0] != '0' {
        assert Pow10(|s| - 1) >= Pow10(5) by { Pow10Monotone(5, |s| - 1); }
      }
    }
  }

  lemma {:induction false} Pow10Monotone(m: nat, n: nat)
    requires m <= n
    ensures Pow10(m) <= Pow10(n)
  {
    if m < n {
      Pow10Monotone(m, n - 1);
    }
  }

  /** Every number 1..65535, written in decimal, is a port, and reads back as
      that number. */
  lemma PortNumbersRoundTrip(n: nat)
    requires 1 <= n <= 65535
    ensures PortNumberPattern(DecimalString(n)) && DecimalValue(DecimalString(n)) == n
  {
    PortNumberPatternIsPortNumber(DecimalString(n));
  }

  /** A port is accepted exactly when it is a port number, two port numbers
      joined by '-' (in either order: "80-20" passes), or the word "any". */
  lemma ValidPortMeaning(port: string)
    ensures ValidPort(port) <==>
      || IsPortNumber(port)
      || (exists k | 0 <= k < |port| :: port[k] == '-' && IsPortNumber(port[..k]) && IsPortNumber(port[k + 1..]))
      || port == "any"
  {
    PortNumberPatternIsPortNumber(port);
    forall k | 0 <= k < |port|
      ensures PortNumberPattern(port[..k]) <==> IsPortNumber(port[..k])
      ensures PortNumberPattern(port[k + 1..]) <==> IsPortNumber(port[k + 1..])
    {
      PortNumberPatternIsPortNumber(port[..k]);
      PortNumberPatternIsPortNumber(port[k + 1..]);
    }
  }

  /** Ports the grammar accepts, among them a range whose ends are in
      decreasing order. */
  lemma AcceptedPortExamples()
    ensures ValidPort("1") && ValidPort("65535") && ValidPort("any")
    ensures ValidPort("80-20") && ValidPort("1-65535")
  {
    assert "80-20"[..2] == "80" && "80-20"[3..] == "20";
    assert PortNumberPattern("80-20"[..2]) && PortNumberPattern("80-20"[3..]);
    assert "1-65535"[..1] == "1" && "1-65535"[2..] == "65535";
    assert PortNumberPattern("1-65535"[..1]) && PortNumberPattern("1-65535"[2..]);
  }

  /** Numbers outside 1..65535, and spellings with a leading zero, are rejected. */
  lemma RejectedPortNumbers()
    ensures !ValidPort("0") && !ValidPort("65536") && !ValidPort("080") && !ValidPort("")
  {
    NoDashNoRange("0");
    NoDashNoRange("65536");
    NoDashNoRange("080");
  }

  lemma NoDashNoRange(port: string)
    requires AllDigits(port)
    ensures !exists k | 0 <= k < |port| :: port[k] == '-' && PortNumberPattern(port[..k]) && PortNumberPattern(port[k + 1..])
  {
  }

  /** A range needs a number on both sides of the dash. */
  lemma RejectedPortRanges()
    ensures !ValidPort("80-") && !ValidPort("-80")
  {
    forall k | 0 <= k < 3 ensures !("80-"[k] == '-' && PortNumberPattern("80-"[..k]) && PortNumberPattern("80-"[k + 1..])) {
      if k == 2 { assert "80-"[3..] == ""; }
    }
    forall k | 0 <= k < 3 ensures !("-80"[k] == '-' && PortNumberPattern("-80"[..k]) && PortNumberPattern("-80"[k + 1..])) {
      if k == 0 { assert "-80"[..0] == ""; }
    }
    assert !PortNumberPattern("80-") by { assert !IsDigit("80-"[2]); }
    assert !PortNumberPattern("-80") by { assert !IsDigit("-80"[0]); }
  }

  predicate IsEmptyGroup(g: Group) {
    g.id == "" && g.objectId == "" && g.name == ""
  }

  /** fmt's %v rendering of a Group. */
  function FormatGroup(g: Group): string {
    "{" + g.id + " " + g.name + " " + g.objectId + "}"
  }

  /** The error of the rule normaliser: the protocol is checked first, then
      the port, then the groups. */
  function RuleError(rule: FirewallRule): Option<string> {
    if !ValidProtocol(rule.protocol) then Some("invalid protocol: " + rule.protocol)
    else if !ValidPort(rule.port) then Some("invalid port: " + rule.port)
    else if exists i | 0 <= i < |rule.groups| :: IsEmptyGroup(rule.groups[i])
      then Some("invalid group: " + FormatGroup(Group("", "", "")))
    else None
  }

  /** The rule with its derived host: "group" when it names groups, "any"
      when it names none. */
  function WithHost(rule: FirewallRule): FirewallRule {
    rule.(host := if |rule.groups| > 0 then "group" else "any")
  }

  /** The rule normaliser accepts a rule exactly when its protocol is one of
      the four words, its port is a port number, a range of two or "any", and
      every group reference names something; it then derives `host` from the
      groups and leaves protocol, port and groups alone. */
  lemma RuleErrorMeaning(rule: FirewallRule)
    ensures RuleError(rule).None? <==>
      && (rule.protocol == "any" || rule.protocol == "icmp" || rule.protocol == "tcp" || rule.protocol == "udp")
      && (|| IsPortNumber(rule.port)
          || (exists k | 0 <= k < |rule.port| ::
                rule.port[k] == '-' && IsPortNumber(rule.port[..k]) && IsPortNumber(rule.port[k + 1..]))
          || rule.port == "any")
      && forall g | g in rule.groups :: g.id != "" || g.name != "" || g.objectId != ""
    ensures var r := WithHost(rule);
      && r.protocol == rule.protocol && r.port == rule.port && r.groups == rule.groups
      && (r.host == "group" <==> rule.groups != [])
      && (r.host == "any" <==> rule.groups == [])
  {
    ValidPortMeaning(rule.port);
    if exists g | g in rule.groups :: IsEmptyGroup(g) {
      var g :| g in rule.groups && IsEmptyGroup(g);
      var i :| 0 <= i < |rule.groups| && rule.groups[i] == g;
    }
  }

  /** The checks run in order, so a rule whose protocol and port are both
      wrong reports its protocol; the group check only speaks when protocol
      and port pass, and its message is always the same. */
  lemma RuleErrorOrder(rule: FirewallRule)
    ensures !ValidProtocol(rule.protocol) ==> RuleError(rule) == Some("invalid protocol: " + rule.protocol)
    ensures ValidProtocol(rule.protocol) && !ValidPort(rule.port) ==> RuleError(rule) == Some("invalid port: " + rule.port)
    ensures RuleError(rule).Some? && ValidProtocol(rule.protocol) && ValidPort(rule.port) ==>
              RuleError(rule) == Some("invalid group: {  }")
  {
    assert FormatGroup(Group("", "", "")) == "{  }";
    assert "invalid group: " + "{  }" == "invalid group: {  }";
  }

  /** Normalising a rule is idempotent, and the host it derives does not
      change whether the rule is accepted. */
  lemma WithHostIdempotent(rule: FirewallRule)
    ensures RuleError(WithHost(rule)) == RuleError(rule)
    ensures WithHost(WithHost(rule)) == WithHost(rule)
  {
  }

  /** The scenario of a rule with protocol "http": rejected, naming "http". */
  lemma HttpRuleRejected(host: string, groups: seq<Group>)
    ensures RuleError(FirewallRule("http", "80", host, groups)) == Some("invalid protocol: http")
  {
    assert "http"[0] != "any"[0] && "http"[0] != "icmp"[0] && "http"[0] != "tcp"[0] && "http"[0] != "udp"[0];
    assert !ValidProtocol("http");
    assert "invalid protocol: " + "http" == "invalid protocol: http";
  }

  /** NormalizeFirewallRule. The rule is passed by pointer in the source; here
      it goes in as a value and comes back updated: with its host set when it
      is accepted, as it was when it is not. */
  method NormalizeFirewallRule(rule: FirewallRule) returns (updated: FirewallRule, err: Option<string>)
    ensures err == RuleError(rule)
    ensures updated == if err.None? then WithHost(rule) else rule
  {
    updated := rule;
    if !ValidProtocol(rule.protocol) {
      return updated, Some("invalid protocol: " + rule.protocol);
    }
    if !ValidPort(rule.port) {
      return updated, Some("invalid port: " + rule.port);
    }
    for i := 0 to |rule.groups|
      invariant forall j | 0 <= j < i :: !IsEmptyGroup(rule.groups[j])
    {
      var g := rule.groups[i];
      if g.id == "" && g.objectId == "" && g.name == "" {
        assert g == Group("", "", "");
        return updated, Some("invalid group: " + FormatGroup(g));
      }
    }
    if |rule.groups| > 0 {
      updated := updated.(host := "group");
    } else {
      updated := updated.(host := "any");
    }
    return updated, None;
  }

  /** The rule every firewall without outbound rules gets: anything to anywhere. */
  const DefaultOutboundRule := FirewallRule("any", "any", "any", [])

  /** The rules after the normaliser has run over them, first to last, and
      stopped at the first one it rejects: the rules before it have their
      host set, it and the rules after it are as they were. */
  function NormalizeRules(rules: seq<FirewallRule>): (r: (seq<FirewallRule>, Option<string>))
    ensures |r.0| == |rules|
  {
    if rules == [] then ([], None)
    else match RuleError(rules[0])
      case Some(e) => (rules, Some(e))
      case None =>
        var (rest, err) := NormalizeRules(rules[1..]);
        ([WithHost(rules[0])] + rest, err)
  }

  /** `rules` with the host set on the first `k` of them. */
  function HostsSetBefore(rules: seq<FirewallRule>, k: nat): (r: seq<FirewallRule>)
    requires k <= |rules|
    ensures |r| == |rules|
  {
    seq(|rules|, j requires 0 <= j < |rules| => if j < k then WithHost(rules[j]) else rules[j])
  }

  /** NormalizeRules stops at the first rejected rule, having set the host on
      every rule before it, and reports that rule's error. */
  lemma {:induction false} NormalizeRulesStopsAt(rules: seq<FirewallRule>, i: nat)
    requires i <= |rules|
    requires forall j | 0 <= j < i :: RuleError(rules[j]).None?
    requires i < |rules| ==> RuleError(rules[i]).Some?
    ensures NormalizeRules(rules) == (HostsSetBefore(rules, i), if i < |rules| then RuleError(rules[i]) else None)
  {
    if rules == [] {
    } else if i == 0 {
      assert HostsSetBefore(rules, 0) == rules;
    } else {
      NormalizeRulesStopsAt(rules[1..], i - 1);
      assert HostsSetBefore(rules, i) == [WithHost(rules[0])] + HostsSetBefore(rules[1..], i - 1);
    }
  }

  /** The firewall after normalisation, with the first error: inbound rules
      first, outbound rules only if all inbound rules pass, and the default
      outbound rule when there are no outbound rules. */
  function NormalizedFirewall(fw: Firewall): (Firewall, Option<string>) {
    var (rulesIn, errIn) := NormalizeRules(fw.rulesIn);
    if errIn.Some? then (fw.(rulesIn := rulesIn), errIn)
    else
      var (rulesOut, errOut) := NormalizeRules(fw.rulesOut);
      if errOut.Some? then (fw.(rulesIn := rulesIn, rulesOut := rulesOut), errOut)
      else (fw.(rulesIn := rulesIn, rulesOut := if rulesOut == [] then [DefaultOutboundRule] else rulesOut), None)
  }

  /** The firewall behind a `*Firewall`: the normaliser updates its rule
      lists in place. */
  class FirewallRef {
    var id: string
    var name: string
    var rulesIn: seq<FirewallRule>
    var rulesOut: seq<FirewallRule>

    constructor (fw: Firewall)
      ensures Value() == fw
    {
      id, name, rulesIn, rulesOut := fw.id, fw.name, fw.rulesIn, fw.rulesOut;
    }

    /** The firewall the fields currently hold. */
    function Value(): Firewall
      reads this
    {
      Firewall(id, name, rulesIn, rulesOut)
    }
  }

  /** The first loop of NormalizeFirewall: the inbound rules, in place. */
  method NormalizeInbound(fw: FirewallRef) returns (err: Option<string>)
    modifies fw
    ensures (fw.rulesIn, err) == NormalizeRules(old(fw.rulesIn))
    ensures fw.id == old(fw.id) && fw.name == old(fw.name) && fw.rulesOut == old(fw.rulesOut)
  {
    ghost var original := fw.rulesIn;
    for i := 0 to |fw.rulesIn|
      invariant fw.id == old(fw.id) && fw.name == old(fw.name) && fw.rulesOut == old(fw.rulesOut)
      invariant fw.rulesIn == HostsSetBefore(original, i)
      invariant forall j | 0 <= j < i :: RuleError(original[j]).None?
    {
      var rule, e := NormalizeFirewallRule(fw.rulesIn[i]);
      fw.rulesIn := fw.rulesIn[i := rule];
      if e.Some? {
        assert fw.rulesIn == HostsSetBefore(original, i);
        NormalizeRulesStopsAt(original, i);
        return e;
      }
      assert fw.rulesIn == HostsSetBefore(original, i + 1);
    }
    NormalizeRulesStopsAt(original, |original|);
    return None;
  }

  /** The second loop of NormalizeFirewall: the outbound rules, in place. */
  method NormalizeOutbound(fw: FirewallRef) returns (err: Option<string>)
    modifies fw
    ensures (fw.rulesOut, err) == NormalizeRules(old(fw.rulesOut))
    ensures fw.id == old(fw.id) && fw.name == old(fw.name) && fw.rulesIn == old(fw.rulesIn)
  {
    ghost var original := fw.rulesOut;
    for i := 0 to |fw.rulesOut|
      invariant fw.id == old(fw.id) && fw.name == old(fw.name) && fw.rulesIn == old(fw.rulesIn)
      invariant fw.rulesOut == HostsSetBefore(original, i)
      invariant forall j | 0 <= j < i :: RuleError(original[j]).None?
    {
      var rule, e := NormalizeFirewallRule(fw.rulesOut[i]);
      fw.rulesOut := fw.rulesOut[i := rule];
      if e.Some? {
        assert fw.rulesOut == HostsSetBefore(original, i);
        NormalizeRulesStopsAt(original, i);
        return e;
      }
      assert fw.rulesOut == HostsSetBefore(original, i + 1);
    }
    NormalizeRulesStopsAt(original, |original|);
    return None;
  }

  /** NormalizeFirewall. The rules of `fw` are normalised in place, inbound
      rules first; at the first rejected rule the method returns its error,
      leaving the rules before it updated; when all pass, an empty outbound
      list is replaced by the default rule. */
  method NormalizeFirewall(fw: FirewallRef) returns (err: Option<string>)
    modifies fw
    ensures (fw.Value(), err) == NormalizedFirewall(old(fw.Value()))
  {
    err := NormalizeInbound(fw);
    if err.Some? {
      return;
    }
    err := NormalizeOutbound(fw);
    if err.Some? {
      return;
    }
    if |fw.rulesOut| == 0 {
      fw.rulesOut := [DefaultOutboundRule];
    }
  }

  /** The index of the first rule the normaliser rejects, or the number of
      rules when it accepts them all. */
  function FirstRejected(rules: seq<FirewallRule>): (i: nat)
    ensures i <= |rules|
    ensures forall j | 0 <= j < i :: RuleError(rules[j]).None?
    ensures i < |rules| ==> RuleError(rules[i]).Some?
  {
    if rules == [] then 0
    else if RuleError(rules[0]).Some? then 0
    else 1 + FirstRejected(rules[1..])
  }

  /** The outcome of NormalizeRules, in terms of the first rejected rule. */
  lemma NormalizeRulesResult(rules: seq<FirewallRule>)
    ensures var i := FirstRejected(rules);
      NormalizeRules(rules) == (HostsSetBefore(rules, i), if i < |rules| then RuleError(rules[i]) else None)
  {
    NormalizeRulesStopsAt(rules, FirstRejected(rules));
  }

  /** A firewall is accepted exactly when every inbound and every outbound
      rule is; it then keeps its id and name, every rule gets its host, and
      an empty outbound list becomes the single default rule. */
  lemma NormalizeFirewallAccepts(fw: Firewall)
    ensures NormalizedFirewall(fw).1.None? <==>
      (forall r | r in fw.rulesIn :: RuleError(r).None?) && (forall r | r in fw.rulesOut :: RuleError(r).None?)
    ensures var (result, err) := NormalizedFirewall(fw);
      err.None? ==>
        && result.id == fw.id && result.name == fw.name
        && result.rulesIn == HostsSetBefore(fw.rulesIn, |fw.rulesIn|)
        && result.rulesOut == (if fw.rulesOut == [] then [DefaultOutboundRule] else HostsSetBefore(fw.rulesOut, |fw.rulesOut|))
  {
    NormalizeRulesResult(fw.rulesIn);
    NormalizeRulesResult(fw.rulesOut);
  }

  /** The first rejected inbound rule stops normalisation: its error is the
      one reported, the inbound rules before it have their host, and the
      outbound rules are not looked at. */
  lemma NormalizeFirewallStopsAtInbound(fw: Firewall, i: nat)
    requires i < |fw.rulesIn|
    requires forall j | 0 <= j < i :: RuleError(fw.rulesIn[j]).None?
    requires RuleError(fw.rulesIn[i]).Some?
    ensures NormalizedFirewall(fw) == (fw.(rulesIn := HostsSetBefore(fw.rulesIn, i)), RuleError(fw.rulesIn[i]))
  {
    NormalizeRulesStopsAt(fw.rulesIn, i);
  }

  /** With every inbound rule accepted, the first rejected outbound rule
      stops normalisation, and no default rule is added. */
  lemma NormalizeFirewallStopsAtOutbound(fw: Firewall, i: nat)
    requires forall j | 0 <= j < |fw.rulesIn| :: RuleError(fw.rulesIn[j]).None?
    requires i < |fw.rulesOut|
    requires forall j | 0 <= j < i :: RuleError(fw.rulesOut[j]).None?
    requires RuleError(fw.rulesOut[i]).Some?
    ensures NormalizedFirewall(fw) ==
      (fw.(rulesIn := HostsSetBefore(fw.rulesIn, |fw.rulesIn|), rulesOut := HostsSetBefore(fw.rulesOut, i)), RuleError(fw.rulesOut[i]))
  {
    NormalizeRulesStopsAt(fw.rulesIn, |fw.rulesIn|);
    NormalizeRulesStopsAt(fw.rulesOut, i);
  }

  /** Rules that all pass, once their hosts are set, still pass and are left
      as they are by a second pass. */
  lemma HostsSetAreFixed(rules: seq<FirewallRule>)
    requires forall r | r in rules :: RuleError(r).None?
    ensures var done := HostsSetBefore(rules, |rules|);
      && (forall r | r in done :: RuleError(r).None? && WithHost(r) == r)
      && HostsSetBefore(done, |done|) == done
  {
    var done := HostsSetBefore(rules, |rules|);
    forall j | 0 <= j < |done| ensures RuleError(done[j]).None? && WithHost(done[j]) == done[j] {
      assert rules[j] in rules;
      WithHostIdempotent(rules[j]);
    }
  }

  /** Normalising an accepted firewall a second time changes nothing. */
  lemma NormalizeFirewallIdempotent(fw: Firewall)
    requires NormalizedFirewall(fw).1.None?
    ensures NormalizedFirewall(NormalizedFirewall(fw).0) == (NormalizedFirewall(fw).0, None)
  {
    var result := NormalizedFirewall(fw).0;
    NormalizeFirewallAccepts(fw);
    HostsSetAreFixed(fw.rulesIn);
    if fw.rulesOut == [] {
      assert RuleError(DefaultOutboundRule).None?;
      assert HostsSetBefore([DefaultOutboundRule], 1) == [DefaultOutboundRule];
    } else {
      HostsSetAreFixed(fw.rulesOut);
    }
    NormalizeFirewallAccepts(result);
  }
}
