/** The firewall resource: reading rules out of the nested configuration,
    and the create/read/update/delete handlers that normalise the firewall
    before the API client sees it. */
module FirewallResource {
  import opened Wrappers
  import opened Seqs
  import opened Framework
  import opened ApiTypes
  import opened ApiClient
  import opened FirewallRules

  /** The group references under `key` of one rule object: none when the
      key is absent, the string elements (others skipped) when it holds a
      list, and a failure, which skips the whole rule, when it holds
      anything else. */
  function GroupList(attrs: map<string, Attr>, key: string, kind: GroupKind): Option<seq<Group>> {
    if key !in attrs then Some([])
    else if !IsList(attrs[key]) then None
    else Some(GroupsOf(kind, Strings(ElementsOf(attrs[key]))))
  }

  /** One element of a rule list read as a rule, or None when it is skipped:
      it must be an object whose port and protocol are strings. */
  function ParseRule(element: Attr): Option<FirewallRule> {
    if !element.Object? then None
    else
      var attrs := element.attributes;
      if !HasString(attrs, "port") || !HasString(attrs, "protocol") then None
      else
        var groups :- RuleGroups(attrs);
        Some(FirewallRule(attrs["protocol"].str, attrs["port"].str, "", groups))
  }

  /** The group references of a rule object: ids, then names, then object
      ids, or None when one of the keys holds something other than a list. */
  function RuleGroups(attrs: map<string, Attr>): Option<seq<Group>> {
    var ids :- GroupList(attrs, "group_ids", ById);
    var names :- GroupList(attrs, "group_names", ByName);
    var objectIds :- GroupList(attrs, "group_object_ids", ByObjectId);
    Some(ids + names + objectIds)
  }

  /** Appends one group reference per string element of `elements`,
      skipping the elements that are not strings. */
  method AppendStringGroups(groups: seq<Group>, elements: seq<Attr>, kind: GroupKind) returns (r: seq<Group>)
    ensures r == groups + GroupsOf(kind, Strings(elements))
  {
    r := groups;
    for i := 0 to |elements|
      invariant r == groups + GroupsOf(kind, Strings(elements[..i]))
    {
      FilterMapSnoc(AsString, elements, i);
      if !elements[i].Str? {
        continue;
      }
      GroupsOfSnoc(kind, Strings(elements[..i]), elements[i].str);
      r := r + [GroupOf(kind, elements[i].str)];
    }
    assert elements[..|elements|] == elements;
  }

  /** One group key of a rule object: appends its references to `groups`,
      or gives None when the key holds something other than a list. */
  method AppendGroupList(groups: seq<Group>, attrs: map<string, Attr>, key: string, kind: GroupKind)
    returns (r: Option<seq<Group>>)
    ensures r.Some? <==> GroupList(attrs, key, kind).Some?
    ensures r.Some? ==> r.value == groups + GroupList(attrs, key, kind).value
  {
    if key !in attrs {
      return Some(groups);
    }
    if !IsList(attrs[key]) {
      return None;
    }
    var appended := AppendStringGroups(groups, ElementsOf(attrs[key]), kind);
    return Some(appended);
  }

  /** The group references of one rule object, the group keys in the order
      ids, names, object ids; None when a present key holds no list. */
  method ReadRuleGroups(attrs: map<string, Attr>) returns (groups: Option<seq<Group>>)
    ensures groups == RuleGroups(attrs)
  {
    var ids := AppendGroupList([], attrs, "group_ids", ById);
    if ids.None? {
      return None;
    }
    assert ids.value == GroupList(attrs, "group_ids", ById).value;
    var names := AppendGroupList(ids.value, attrs, "group_names", ByName);
    if names.None? {
      return None;
    }
    groups := AppendGroupList(names.value, attrs, "group_object_ids", ByObjectId);
  }

  /** ParseFirewallRulesFromModel: the rules of a rule list, in order, with
      every element that does not read as a rule skipped. */
  method ParseFirewallRulesFromModel(elements: seq<Attr>) returns (rules: seq<FirewallRule>)
    ensures rules == FilterMap(ParseRule, elements)
  {
    rules := [];
    for i := 0 to |elements|
      invariant rules == FilterMap(ParseRule, elements[..i])
    {
      FilterMapSnoc(ParseRule, elements, i);
      var element := elements[i];
      if !element.Object? {
        continue;
      }
      var attrs := element.attributes;
      if !HasString(attrs, "port") {
        continue;
      }
      if !HasString(attrs, "protocol") {
        continue;
      }
      var groups := ReadRuleGroups(attrs);
      if groups.None? {
        continue;
      }
      rules := rules + [FirewallRule(attrs["protocol"].str, attrs["port"].str, "", groups.value)];
    }
    assert elements[..|elements|] == elements;
  }

  /** An element is kept exactly when it is an object with string port and
      protocol whose group keys, where present, hold lists; the rule keeps
      port and protocol, has no host yet, and lists the groups by id, then by
      name, then by object id, each in list order, without the non-string
      entries. */
  lemma ParseRuleMeaning(element: Attr)
    ensures ParseRule(element).Some? <==>
      && element.Object?
      && HasString(element.attributes, "port") && HasString(element.attributes, "protocol")
      && (forall key | key in ["group_ids", "group_names", "group_object_ids"] && key in element.attributes ::
            IsList(element.attributes[key]))
    ensures ParseRule(element).Some? ==>
      var attrs := element.attributes;
      var rule := ParseRule(element).value;
      && rule.port == attrs["port"].str && rule.protocol == attrs["protocol"].str && rule.host == ""
      && rule.groups ==
           (if "group_ids" in attrs then GroupsOf(ById, Strings(ElementsOf(attrs["group_ids"]))) else [])
         + (if "group_names" in attrs then GroupsOf(ByName, Strings(ElementsOf(attrs["group_names"]))) else [])
         + (if "group_object_ids" in attrs then GroupsOf(ByObjectId, Strings(ElementsOf(attrs["group_object_ids"]))) else [])
  {
    if element.Object? {
      var attrs := element.attributes;
      assert "group_ids" in ["group_ids", "group_names", "group_object_ids"];
      assert "group_names" in ["group_ids", "group_names", "group_object_ids"];
      assert "group_object_ids" in ["group_ids", "group_names", "group_object_ids"];
    }
  }

  /** A group entry that is not a string costs the rule that entry only:
      inserting one anywhere in a group list leaves the parsed groups as
      they were. */
  lemma NonStringGroupEntryIgnored(before: seq<Attr>, junk: Attr, after: seq<Attr>, kind: GroupKind)
    requires !junk.Str?
    ensures GroupsOf(kind, Strings(before + [junk] + after)) == GroupsOf(kind, Strings(before + after))
  {
    FilterMapAppend(AsString, before + [junk], after);
    FilterMapAppend(AsString, before, [junk]);
    assert FilterMap(AsString, [junk]) == [] by { assert [junk][..0] == []; }
    FilterMapAppend(AsString, before, after);
  }

  /** The parsed rules are the accepted elements in their original order,
      none dropped, none invented, none duplicated. */
  lemma ParsedRulesAreOrderedSubsequence(elements: seq<Attr>)
    ensures |FilterMap(ParseRule, elements)| <= |elements|
    ensures |KeptIndices(ParseRule, elements)| == |FilterMap(ParseRule, elements)|
    ensures forall i | 0 <= i < |elements| :: ParseRule(elements[i]).Some? <==> i in KeptIndices(ParseRule, elements)
    ensures forall j | 0 <= j < |KeptIndices(ParseRule, elements)| ::
              KeptIndices(ParseRule, elements)[j] < |elements| &&
              ParseRule(elements[KeptIndices(ParseRule, elements)[j]]) == Some(FilterMap(ParseRule, elements)[j])
    ensures forall j, k | 0 <= j < k < |KeptIndices(ParseRule, elements)| ::
              KeptIndices(ParseRule, elements)[j] < KeptIndices(ParseRule, elements)[k]
  {
    FilterMapIsOrderedSubsequence(ParseRule, elements);
  }

  /** The resource's data: its name, the id the API assigned, and the two
      rule lists (a null list has no elements). */
  datatype FirewallModel = FirewallModel(name: string, id: string, rulesInbound: seq<Attr>, rulesOutbound: seq<Attr>)

  /** A firewall as the client may receive it from a handler: every rule is
      one the rule normaliser accepts and has its host derived, and there is
      at least one outbound rule. */
  predicate IsNormalFirewall(fw: Firewall) {
    && (forall r | r in fw.rulesIn :: RuleError(r).None? && WithHost(r) == r)
    && (forall r | r in fw.rulesOut :: RuleError(r).None? && WithHost(r) == r)
    && fw.rulesOut != []
  }

  /** Whatever the firewall normaliser accepts, it leaves normal. */
  lemma NormalizedFirewallIsNormal(fw: Firewall)
    requires NormalizedFirewall(fw).1.None?
    ensures IsNormalFirewall(NormalizedFirewall(fw).0)
    ensures NormalizedFirewall(fw).0.id == fw.id && NormalizedFirewall(fw).0.name == fw.name
  {
    NormalizeFirewallAccepts(fw);
    HostsSetAreFixed(fw.rulesIn);
    if fw.rulesOut == [] {
      assert RuleError(DefaultOutboundRule).None? && WithHost(DefaultOutboundRule) == DefaultOutboundRule;
    } else {
      HostsSetAreFixed(fw.rulesOut);
    }
  }

  /** The firewall a handler builds from the data before normalising it. */
  method BuildFirewall(id: string, data: FirewallModel) returns (fw: Firewall)
    ensures fw == PlannedFirewall(id, data)
  {
    var rulesIn := ParseFirewallRulesFromModel(data.rulesInbound);
    var rulesOut := ParseFirewallRulesFromModel(data.rulesOutbound);
    fw := Firewall(id, data.name, rulesIn, rulesOut);
  }

  /** The firewall with the given id, the data's name, and the rules read
      from the data's two rule lists. */
  function PlannedFirewall(id: string, data: FirewallModel): Firewall {
    Firewall(id, data.name, FilterMap(ParseRule, data.rulesInbound), FilterMap(ParseRule, data.rulesOutbound))
  }

  /** Create. The firewall is built from the plan with no id and normalised;
      a rejected rule is reported and the client is not called; otherwise
      the normalised firewall is created and the id it comes back with is
      stored with the plan. `submitted` is the firewall handed to the client. */
  method Create(plan: FirewallModel, c: Client, env: Env)
    returns (diags: seq<Diagnostic>, state: Option<FirewallModel>, submitted: Option<Firewall>)
    ensures var (normal, err) := NormalizedFirewall(PlannedFirewall("", plan));
      && (submitted.Some? <==> err.None?)
      && (err.Some? ==> diags == [Diagnostic("Error normalizing firewall", err.value)] && state.None?)
      && (err.None? ==> submitted == Some(normal))
    ensures submitted.Some? ==> IsNormalFirewall(submitted.value) && submitted.value.id == "" && submitted.value.name == plan.name
    ensures submitted.Some? ==>
      var reply := CreateFirewall(c, submitted.value, env).result;
      && (reply.Failure? ==> diags == [Diagnostic("Error creating firewall", reply.error)] && state.None?)
      && (reply.Success? ==> diags == [] && state == Some(plan.(id := reply.value.id)))
  {
    var built := BuildFirewall("", plan);
    var fw := new FirewallRef(built);
    var err := NormalizeFirewall(fw);
    if err.Some? {
      return [Diagnostic("Error normalizing firewall", err.value)], None, None;
    }
    NormalizedFirewallIsNormal(built);
    var normal := fw.Value();
    submitted := Some(normal);
    var reply := CreateFirewall(c, normal, env).result;
    if reply.Failure? {
      return [Diagnostic("Error creating firewall", reply.error)], None, submitted;
    }
    return [], Some(plan.(id := reply.value.id)), submitted;
  }

  /** Read. The firewall is looked up by name; its id replaces the stored
      one, and the rest of the state is kept. */
  method Read(prior: FirewallModel, c: Client, env: Env) returns (diags: seq<Diagnostic>, state: Option<FirewallModel>)
    ensures var reply := GetFirewall(c, prior.name, env).result;
      && (reply.Failure? ==>
            diags == [Diagnostic("Client Error", "Unable to get Firewall, got error: " + reply.error)] && state.None?)
      && (reply.Success? ==> diags == [] && state == Some(prior.(id := reply.value.id)))
  {
    var reply := GetFirewall(c, prior.name, env).result;
    if reply.Failure? {
      return [Diagnostic("Client Error", "Unable to get Firewall, got error: " + reply.error)], None;
    }
    return [], Some(prior.(id := reply.value.id));
  }

  /** Update. Like Create, but the firewall carries the planned id; the
      client's answer is not used, so the plan is stored as it is. */
  method Update(plan: FirewallModel, c: Client, env: Env)
    returns (diags: seq<Diagnostic>, state: Option<FirewallModel>, submitted: Option<Firewall>)
    ensures var (normal, err) := NormalizedFirewall(PlannedFirewall(plan.id, plan));
      && (submitted.Some? <==> err.None?)
      && (err.Some? ==> diags == [Diagnostic("Error normalizing firewall", err.value)] && state.None?)
      && (err.None? ==> submitted == Some(normal))
    ensures submitted.Some? ==> IsNormalFirewall(submitted.value) && submitted.value.id == plan.id && submitted.value.name == plan.name
    ensures submitted.Some? ==>
      var reply := UpdateFirewall(c, submitted.value, env).result;
      && (reply.Failure? ==> diags == [Diagnostic("Error updating firewall", reply.error)] && state.None?)
      && (reply.Success? ==> diags == [] && state == Some(plan))
  {
    var built := BuildFirewall(plan.id, plan);
    var fw := new FirewallRef(built);
    var err := NormalizeFirewall(fw);
    if err.Some? {
      return [Diagnostic("Error normalizing firewall", err.value)], None, None;
    }
    NormalizedFirewallIsNormal(built);
    var normal := fw.Value();
    submitted := Some(normal);
    var reply := UpdateFirewall(c, normal, env).result;
    if reply.Failure? {
      return [Diagnostic("Error updating firewall", reply.error)], None, submitted;
    }
    return [], Some(plan), submitted;
  }

  /** Delete. The firewall is deleted by its stored id; a failure is
      reported, success reports nothing. */
  method Delete(prior: FirewallModel, c: Client, env: Env) returns (diags: seq<Diagnostic>)
    ensures var reply := DeleteFirewall(c, prior.id, env).result;
      && (reply.Failure? ==> diags == [Diagnostic("Client Error", "Unable to delete Firewall, got error: " + reply.error)])
      && (reply.Success? ==> diags == [])
  {
    var reply := DeleteFirewall(c, prior.id, env).result;
    if reply.Failure? {
      return [Diagnostic("Client Error", "Unable to delete Firewall, got error: " + reply.error)];
    }
    return [];
  }

  /** A plan with a rejected rule never reaches the API: Create and Update
      make no request, whatever the client. */
  lemma RejectedPlanSendsNothing(plan: FirewallModel, rule: Attr)
    requires rule in plan.rulesInbound
    requires ParseRule(rule).Some? && RuleError(ParseRule(rule).value).Some?
    ensures NormalizedFirewall(PlannedFirewall("", plan)).1.Some?
    ensures NormalizedFirewall(PlannedFirewall(plan.id, plan)).1.Some?
  {
    var i :| 0 <= i < |plan.rulesInbound| && plan.rulesInbound[i] == rule;
    FilterMapIsOrderedSubsequence(ParseRule, plan.rulesInbound);
    var ks := KeptIndices(ParseRule, plan.rulesInbound);
    var j :| 0 <= j < |ks| && ks[j] == i;
    var parsed := FilterMap(ParseRule, plan.rulesInbound);
    assert parsed[j] in parsed;
    NormalizeFirewallAccepts(PlannedFirewall("", plan));
    NormalizeFirewallAccepts(PlannedFirewall(plan.id, plan));
  }
}
