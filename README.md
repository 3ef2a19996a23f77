# Shieldoo terraform provider: the firewall and server resources in Dafny

This project models the core of the Shieldoo terraform provider and proves
properties of the model. The provider is a plugin for an infrastructure-as-code
tool. It declares firewalls and servers and reconciles them against the
Shieldoo management API. The model covers:

- **Firewall rules** (`firewall_rules.dfy`):
  - the protocol and port grammars of a rule;
  - the rule normaliser, which derives a rule's `host` and rejects empty group references;
  - the firewall normaliser, which updates the rules of a `*Firewall` in place, stops at the
    first rejected rule and adds the default outbound rule.
- **Firewall resource** (`firewall_resource.dfy`):
  - how rules are read out of the nested configuration;
  - the Create, Read, Update and Delete handlers, which normalise the firewall before the API
    client sees it.
- **Server resource** (`server_resource.dfy`):
  - the listener checks and how listeners are read;
  - assembly of group references from the three group lists;
  - the Create, Read, Update and Delete handlers, including what each writes back into state.
- **API client** (`api_client.dfy`):
  - request URL construction and its round trip;
  - the status rule, with body trimming;
  - the bracket unwrap of GET answers;
  - the mockup short-circuits;
  - which verb, entity, name and id each wrapper sends.
- **Provider configuration** (`provider.dfy`):
  - precedence of the provider block over the environment;
  - the checks for a required endpoint and API key;
  - the shared client given to data sources and resources.

Supporting modules:

- `wrappers.dfy`: Option and Result.
- `seqs.dfy`: a filter-map and the proof that it yields an order-preserving subsequence.
- `text.dfy`: the Go string functions the client uses (white-space trimming, prefix and suffix,
  decimal numerals).
- `framework.dfy`: the attribute tree that nested configuration arrives in, and diagnostics.
- `api_types.dfy`: the API's request and response structures.

Several collaborators cannot be seen from the provider. They are parameters of the client model,
collected in `ApiClient.Env` and left uninterpreted:

- URL hostname parsing;
- JWT signing;
- query escaping;
- JSON encoding and decoding;
- `http.NewRequest` failure;
- the HTTP transport.

A handler is modelled as a method. It takes the plan or prior state and returns:

- the diagnostics it adds;
- the state it stores (None when it stores none);
- for Create and Update, the value handed to the API client (None when the client is not called).

The port pattern at `internal/provider/firewall_resource.go:285` does not order the two ends of a
range `A-B`, so `80-20` is accepted; `FirewallRules.AcceptedPortExamples` shows it.

## Model

| member | source | states |
|---|---|---|
| FirewallRules.PortNumberPatternIsPortNumber | internal/provider/firewall_resource.go:285 | the six alternatives of the port number group match exactly the decimal numerals without leading zero whose value is 1..65535 |
| FirewallRules.PortNumbersRoundTrip | internal/provider/firewall_resource.go:285 | every number 1..65535 written in decimal matches the number group and reads back as that number |
| FirewallRules.ValidPortMeaning | internal/provider/firewall_resource.go:285-287 | a port is accepted iff it is a port number, two port numbers joined by '-' (no order between them), or "any" |
| FirewallRules.AcceptedPortExamples | internal/provider/firewall_resource.go:285-287 | "1", "65535", "any", "1-65535" and the decreasing range "80-20" are accepted |
| FirewallRules.RejectedPortNumbers | internal/provider/firewall_resource.go:285-287 | "0", "65536", "080" and "" are rejected |
| FirewallRules.RejectedPortRanges | internal/provider/firewall_resource.go:285-287 | a dash without a number on both sides ("80-", "-80") is rejected |
| FirewallRules.RuleErrorMeaning | internal/provider/firewall_resource.go:281-302 | a rule is accepted iff its protocol is any/icmp/tcp/udp, its port is valid and every group names an id, name or object id; the derived host is "group" iff there are groups and "any" iff there are none; protocol, port and groups are unchanged |
| FirewallRules.RuleErrorOrder | internal/provider/firewall_resource.go:282-294 | the protocol is checked before the port, the port before the groups; the group error always reads "invalid group: {  }" (fmt's %v of an empty Group) |
| FirewallRules.WithHostIdempotent | internal/provider/firewall_resource.go:295-301 | normalising a rule twice equals normalising it once, and setting the host does not change whether the rule is accepted |
| FirewallRules.HttpRuleRejected | internal/provider/firewall_resource.go:282-284 | a rule with protocol "http" fails with "invalid protocol: http" |
| FirewallRules.NormalizeFirewallRule | internal/provider/firewall_resource.go:281-302 | returns the rule's error (protocol, then port, then groups) and, only on success, the rule with its host set; a rejected rule comes back unchanged |
| FirewallRules.NormalizeRulesStopsAt | internal/provider/firewall_resource.go:304-314 | normalising a rule list stops at the first rejected rule with its error; the rules before it have their host set and the rest are untouched |
| FirewallRules.FirstRejected | internal/provider/firewall_resource.go:304-314 | the index of the first rejected rule: all rules before it pass and it fails, or it is the list length when all pass |
| FirewallRules.NormalizeRulesResult | internal/provider/firewall_resource.go:304-314 | the outcome of a rule-list pass in terms of the first rejected rule |
| FirewallRules.NormalizeInbound | internal/provider/firewall_resource.go:305-309 | the first loop updates the inbound rules of the firewall in place, as the list pass prescribes, and changes no other field |
| FirewallRules.NormalizeOutbound | internal/provider/firewall_resource.go:310-314 | the second loop updates the outbound rules in place and changes no other field |
| FirewallRules.NormalizeFirewall | internal/provider/firewall_resource.go:304-326 | the firewall object ends up as the normalisation function prescribes: inbound rules first, fail-fast, rules before a failure already updated, the default outbound rule added only on success |
| FirewallRules.NormalizeFirewallAccepts | internal/provider/firewall_resource.go:304-326 | the firewall is accepted iff every inbound and outbound rule is; then id and name are kept, every rule has its host, RulesIn keeps its length, and RulesOut keeps its length or, when empty, becomes exactly the single any/any/any rule |
| FirewallRules.NormalizeFirewallStopsAtInbound | internal/provider/firewall_resource.go:305-309 | the first rejected inbound rule stops everything: its error is returned, earlier inbound rules are updated, and the outbound rules are untouched |
| FirewallRules.NormalizeFirewallStopsAtOutbound | internal/provider/firewall_resource.go:310-314 | with all inbound rules accepted, the first rejected outbound rule's error is returned and no default rule is added |
| FirewallRules.NormalizeFirewallIdempotent | internal/provider/firewall_resource.go:304-326 | normalising an accepted firewall again changes nothing and succeeds |
| FirewallResource.AppendStringGroups | internal/provider/firewall_resource.go:91-98 | appends one group reference of the given kind per string element, in order, skipping non-strings |
| FirewallResource.ParseFirewallRulesFromModel | internal/provider/firewall_resource.go:62-134 | the result is the list of elements that read as rules, each read by the rule reader, in input order |
| FirewallResource.ParseRuleMeaning | internal/provider/firewall_resource.go:62-134 | an element is kept iff it is an object with string port and protocol whose present group keys hold lists; the rule has no host yet, and its groups are ids, then names, then object ids, each in list order without non-string entries |
| FirewallResource.NonStringGroupEntryIgnored | internal/provider/firewall_resource.go:91-98 | a non-string entry anywhere in a group list leaves the parsed groups unchanged |
| FirewallResource.ParsedRulesAreOrderedSubsequence | internal/provider/firewall_resource.go:62-134 | the parsed rules are exactly the accepted elements, read as rules, at strictly increasing input positions |
| FirewallResource.NormalizedFirewallIsNormal | internal/provider/firewall_resource.go:304-326 | whatever the normaliser accepts comes out with every rule accepted, every host derived, at least one outbound rule, and its id and name kept |
| FirewallResource.BuildFirewall | internal/provider/firewall_resource.go:338-342 | the firewall built from the data has the given id, the data's name and the parsed inbound and outbound rules |
| FirewallResource.Create | internal/provider/firewall_resource.go:328-364 | normalises the firewall built from the plan with empty id before any client call; a rejection gives "Error normalizing firewall" and no request; only normal firewalls are submitted; a client failure gives "Error creating firewall"; on success the returned id is stored with the plan |
| FirewallResource.Read | internal/provider/firewall_resource.go:366-387 | looks the firewall up by name and stores its id, or reports "Client Error" / "Unable to get Firewall, got error: ..." |
| FirewallResource.Update | internal/provider/firewall_resource.go:389-421 | like Create, but submits the planned id, reports "Error updating firewall", and stores the plan unchanged on success |
| FirewallResource.Delete | internal/provider/firewall_resource.go:423-439 | deletes by the stored id and reports "Unable to delete Firewall, got error: ..." on failure |
| FirewallResource.RejectedPlanSendsNothing | internal/provider/firewall_resource.go:343-348 | a plan with a readable inbound rule the rule normaliser rejects fails normalisation in Create and Update, so no firewall is submitted |
| ServerResource.NormalizeServerListener | internal/provider/server_resource.go:262-273 | a listener is accepted iff both ports are 1..65535 and the protocol is tcp or udp; the listen port is checked first, then the forward port, then the protocol, each with its own message |
| ServerResource.NormalizeServer | internal/provider/server_resource.go:275-282 | succeeds iff every listener is accepted, and otherwise returns the error of the first rejected listener; the server is read, never changed |
| ServerResource.ParseListenerMeaning | internal/provider/server_resource.go:70-115 | an element is kept iff it is an object with Int64 listen_port and forward_port and String protocol, forward_host and description; the listener carries those values |
| ServerResource.ParseServerListenersFromModel | internal/provider/server_resource.go:70-115 | the result is the list of elements that read as listeners, in input order |
| ServerResource.ParsedListenersAreOrderedSubsequence | internal/provider/server_resource.go:70-115 | the parsed listeners are exactly the accepted elements at strictly increasing input positions |
| ServerResource.AssembledGroupsMeaning | internal/provider/server_resource.go:310-344 | groups are assembled iff every non-null list holds only strings; then there is one reference per string with exactly its field set, ids before names before object ids, and a null list contributes nothing; otherwise the error names the first offending list |
| ServerResource.AppendGroups | internal/provider/server_resource.go:310-321 | one group loop: appends a reference per element of a non-null list, or stops with the list's error at a non-string |
| ServerResource.BuildGroups | internal/provider/server_resource.go:310-344 | the three group loops produce the assembled groups or the first list's error |
| ServerResource.PrepareServer | internal/provider/server_resource.go:294-350 | the server built from the data carries the parsed listeners and assembled groups; a group error or the first rejected listener becomes the handler's diagnostic |
| ServerResource.Create | internal/provider/server_resource.go:284-367 | submits a server with empty id only when the groups assemble and every listener is accepted; a group list holding a non-string gives that list's error as summary and detail, a rejected listener gives "Error normalizing Server" with the first rejected listener's error, and in both cases nothing is sent; a client failure gives "Error creating Server"; on success the returned id and configuration are stored with the plan |
| ServerResource.Read | internal/provider/server_resource.go:369-391 | looks the server up by name and stores its id and configuration, or reports "Unable to get Server, got error: ..." |
| ServerResource.Update | internal/provider/server_resource.go:393-472 | like Create (same group and "Error normalizing Server" diagnostics, nothing sent on either), but submits the planned id, reports "Error updating Server", and on success stores only the returned configuration, keeping the planned id |
| ServerResource.Delete | internal/provider/server_resource.go:474-490 | deletes by the stored id and reports "Unable to delete Server, got error: ..." on failure |
| ServerResource.BadListenerPortBlocksCreate | internal/provider/server_resource.go:346-350 | a readable listener whose listen port is outside 1..65535 keeps Create from submitting anything |
| ApiClient.AccessTokenClaim | internal/provider/shieldoo.go:213-243 | the token is the API key's signature over the URI's hostname as instance claim; a URI that does not parse gives the empty claim and is not itself an error, so the token then fails only if signing fails |
| ApiClient.RequestUrlRoundTrip | internal/provider/shieldoo.go:253-260 | the URL is uri + "/cliapi/" + entity, then "/" + escaped id when there is an id, then "?name=" + escaped name when there is a name; parsing it back gives the entity, the escaped id and the escaped name |
| ApiClient.ReceivedStatusRule | internal/provider/shieldoo.go:287-290 | no error iff the status is 200; then the body is returned with only its surrounding white space removed; otherwise the error text is the status line and the body comes back untrimmed |
| ApiClient.CallApi | internal/provider/shieldoo.go:245-291 | a token failure returns before any request; a request is sent iff token, payload encoding and request construction succeed; it is the given verb on the built URL with JSON content type, the token, and an empty body when there is no payload; the reply is the transport's answer under the status rule |
| ApiClient.UnwrapArrayCases | internal/provider/shieldoo.go:101-104 | a body starting with '[' loses that '[' and one trailing ']' if present; any other body is unchanged |
| ApiClient.UnwrapArrayOfWrapped | internal/provider/shieldoo.go:155-158 | a body wrapped in one pair of brackets unwraps to exactly its contents |
| ApiClient.ListGroups | internal/provider/shieldoo.go:75-86 | a GET on "groups" with neither name nor id |
| ApiClient.GetServer | internal/provider/shieldoo.go:88-111 | the mockup client returns the mockup server with the requested name and sends nothing; otherwise a GET on "servers" by name only |
| ApiClient.DeleteServer | internal/provider/shieldoo.go:113-116 | a DELETE on "servers" by id only; no mockup branch |
| ApiClient.CreateServer | internal/provider/shieldoo.go:118-129 | a POST on "servers" with neither name nor id, carrying the server; no mockup branch |
| ApiClient.UpdateServer | internal/provider/shieldoo.go:131-142 | a PUT on "servers" by the server's id only, carrying the server; no mockup branch |
| ApiClient.GetFirewall | internal/provider/shieldoo.go:144-165 | the mockup client returns id "mockup" with the requested name and sends nothing; otherwise a GET on "firewalls" by name only |
| ApiClient.DeleteFirewall | internal/provider/shieldoo.go:167-173 | the mockup client succeeds without a request; otherwise a DELETE on "firewalls" by id only |
| ApiClient.CreateFirewall | internal/provider/shieldoo.go:175-192 | the mockup client returns id "mockup" with the input's name and sends nothing; otherwise a POST on "firewalls" carrying the firewall |
| ApiClient.UpdateFirewall | internal/provider/shieldoo.go:194-211 | the mockup client returns id "mockup" with the input's name and sends nothing; otherwise a PUT on "firewalls" by the firewall's id, carrying the firewall |
| ApiClient.MockupFirewallLifecycle | internal/provider/firewall_resource_test.go:19 | against the mockup endpoint, create, read back, update and delete of a firewall all succeed with id "mockup" and without a request |
| ApiClient.MockupServerWritesStillSend | internal/provider/shieldoo.go:113-142 | the server writes have no mockup branch: with the mockup client, Create still sends its request while GetServer sends none |
| Provider.Configure | internal/provider/provider.go:52-96 | a non-empty configured endpoint or key overrides the environment and an empty one falls back to it; a missing endpoint is reported before a missing key; on success one client with exactly the resolved endpoint and key is given to both data sources and resources, with no diagnostics |

## Left out

- JWT signing (HMAC-SHA-512 with a five-minute expiry read from the clock) is an uninterpreted
  `sign` function that may fail. Its claim, the URI's hostname, is modelled.
- The HTTP transport, `io.ReadAll`, JSON encoding and decoding, `url.Parse` and
  `url.QueryEscape` are uninterpreted functions in `ApiClient.Env`. A failed body read is one of
  the transport's failures.
- JSON decoding is not related to encoding. Go's distinction between a nil and an empty slice in
  the encoded body is therefore not modelled.
- FirewallRules.NormalizeFirewallRule: the rule comes in as a value and goes out updated, instead
  of being written through a pointer. Its callers pass slice elements of a firewall the handler
  owns, so there is no aliasing.
- ServerResource.NormalizeServer: it takes the server as a value. The source passes a pointer but
  writes nothing through it.
- The host framework is not part of this model:
  - schema and metadata;
  - the resources' Configure and ImportState;
  - reading plan, state and configuration (its failure diagnostics included) and writing state;
  - the custom list types' ValueFromTerraform;
  - logging.
- The handlers receive the decoded plan or state. An unknown value is read like a null one: null
  strings read as "", null booleans as false, null numbers as 0, and null lists have no elements.
- The firewall and server data sources are not part of this model. They copy fields from a client
  call into state.
- Strings are sequences of characters, not UTF-8 bytes. White space is the set of Unicode
  white-space code points that Go's TrimSpace removes.
- Go's `int` conversion of the configured 64-bit numbers is the identity on 64-bit platforms, and
  is modelled as such.
