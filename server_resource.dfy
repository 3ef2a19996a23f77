/** The server resource: reading listeners and group references out of the
    configuration, checking the listeners, and the create/read/update/delete
    handlers. */
module ServerResource {
  import opened Wrappers
  import opened Seqs
  import opened Framework
  import opened ApiTypes
  import opened ApiClient

  /** NormalizeServerListener: the error for a listener, or None when it is
      accepted. Both ports must lie in 1..65535 and the protocol must be tcp
      or udp; the listen port is checked first, then the forward port, then
      the protocol. */
  function NormalizeServerListener(listener: Listener): (err: Option<string>)
    ensures err.None? <==>
      1 <= listener.listenPort <= 65535 && 1 <= listener.forwardPort <= 65535 &&
      (listener.protocol == "tcp" || listener.protocol == "udp")
    ensures !(1 <= listener.listenPort <= 65535) ==> err == Some("listen_port must be between 1 and 65535")
    ensures 1 <= listener.listenPort <= 65535 && !(1 <= listener.forwardPort <= 65535) ==>
              err == Some("forward_port must be between 1 and 65535")
    ensures err.Some? && 1 <= listener.listenPort <= 65535 && 1 <= listener.forwardPort <= 65535 ==>
              err == Some("protocol must be tcp or udp")
  {
    if listener.listenPort < 1 || listener.listenPort > 65535 then Some("listen_port must be between 1 and 65535")
    else if listener.forwardPort < 1 || listener.forwardPort > 65535 then Some("forward_port must be between 1 and 65535")
    else if listener.protocol != "tcp" && listener.protocol != "udp" then Some("protocol must be tcp or udp")
    else None
  }

  /** NormalizeServer: the listeners are checked in order and the first
      rejected one's error is returned. Nothing in the server is changed. */
  method NormalizeServer(server: Server) returns (err: Option<string>)
    ensures err.None? <==> forall i | 0 <= i < |server.listeners| :: NormalizeServerListener(server.listeners[i]).None?
    ensures err.Some? ==> exists i | 0 <= i < |server.listeners| ::
      && (forall j | 0 <= j < i :: NormalizeServerListener(server.listeners[j]).None?)
      && err == NormalizeServerListener(server.listeners[i])
  {
    for i := 0 to |server.listeners|
      invariant forall j | 0 <= j < i :: NormalizeServerListener(server.listeners[j]).None?
    {
      var e := NormalizeServerListener(server.listeners[i]);
      if e.Some? {
        return e;
      }
    }
    return None;
  }

  /** One element of the listener list read as a listener, or None when it
      is skipped: it must be an object with listen_port, protocol,
      forward_port, forward_host and description of the right types. */
  function ParseListener(element: Attr): Option<Listener> {
    if !element.Object? then None
    else
      var attrs := element.attributes;
      if !HasInt64(attrs, "listen_port") then None
      else if !HasString(attrs, "protocol") then None
      else if !HasInt64(attrs, "forward_port") then None
      else if !HasString(attrs, "forward_host") then None
      else if !HasString(attrs, "description") then None
      else Some(Listener(attrs["listen_port"].num, attrs["protocol"].str, attrs["forward_port"].num,
                         attrs["forward_host"].str, attrs["description"].str))
  }

  /** An element is kept exactly when all five attributes have their types,
      and the listener carries their values unchanged. */
  lemma ParseListenerMeaning(element: Attr)
    ensures ParseListener(element).Some? <==>
      && element.Object?
      && HasInt64(element.attributes, "listen_port") && HasInt64(element.attributes, "forward_port")
      && HasString(element.attributes, "protocol") && HasString(element.attributes, "forward_host")
      && HasString(element.attributes, "description")
    ensures ParseListener(element).Some? ==>
      var attrs := element.attributes;
      var l := ParseListener(element).value;
      && l.listenPort == attrs["listen_port"].num && l.forwardPort == attrs["forward_port"].num
      && l.protocol == attrs["protocol"].str && l.forwardHost == attrs["forward_host"].str
      && l.description == attrs["description"].str
  {
  }

  /** ParseServerListenersFromModel: the listeners of the list, in order,
      with every element that does not read as a listener skipped. */
  method ParseServerListenersFromModel(elements: seq<Attr>) returns (listeners: seq<Listener>)
    ensures listeners == FilterMap(ParseListener, elements)
  {
    listeners := [];
    for i := 0 to |elements|
      invariant listeners == FilterMap(ParseListener, elements[..i])
    {
      FilterMapSnoc(ParseListener, elements, i);
      var element := elements[i];
      if !element.Object? {
        continue;
      }
      var attrs := element.attributes;
      if !HasInt64(attrs, "listen_port") {
        continue;
      }
      if !HasString(attrs, "protocol") {
        continue;
      }
      if !HasInt64(attrs, "forward_port") {
        continue;
      }
      if !HasString(attrs, "forward_host") {
        continue;
      }
      if !HasString(attrs, "description") {
        continue;
      }
      listeners := listeners + [Listener(attrs["listen_port"].num, attrs["protocol"].str, attrs["forward_port"].num,
                                         attrs["forward_host"].str, attrs["description"].str)];
    }
    assert elements[..|elements|] == elements;
  }

  /** The parsed listeners are the accepted elements in their original order. */
  lemma ParsedListenersAreOrderedSubsequence(elements: seq<Attr>)
    ensures |KeptIndices(ParseListener, elements)| == |FilterMap(ParseListener, elements)|
    ensures forall i | 0 <= i < |elements| :: ParseListener(elements[i]).Some? <==> i in KeptIndices(ParseListener, elements)
    ensures forall j | 0 <= j < |KeptIndices(ParseListener, elements)| ::
              KeptIndices(ParseListener, elements)[j] < |elements| &&
              ParseListener(elements[KeptIndices(ParseListener, elements)[j]]) == Some(FilterMap(ParseListener, elements)[j])
    ensures forall j, k | 0 <= j < k < |KeptIndices(ParseListener, elements)| ::
              KeptIndices(ParseListener, elements)[j] < KeptIndices(ParseListener, elements)[k]
  {
    FilterMapIsOrderedSubsequence(ParseListener, elements);
  }

  /** The resource's data. A null group list is None; a null string reads as
      "", a null boolean as false and a null number as 0. */
  datatype ServerModel = ServerModel(
    name: string,
    id: string,
    configuration: string,
    description: string,
    ipAddress: string,
    firewallId: string,
    groupIds: Option<seq<Attr>>,
    groupObjectIds: Option<seq<Attr>>,
    groupNames: Option<seq<Attr>>,
    listeners: seq<Attr>,
    autoupdate: bool,
    osUpdateEnabled: bool,
    osSecurityUpdateEnabled: bool,
    osAllUpdateEnabled: bool,
    osRestartAfterUpdate: bool,
    osUpdateHour: int)

  /** The group references of one list: none for a null list, one per
      element otherwise, or `error` when an element is not a string. */
  function GroupsOfList(list: Option<seq<Attr>>, kind: GroupKind, error: string): Result<seq<Group>, string> {
    if list.None? then Success([])
    else match AllStrings(list.value)
      case None => Failure(error)
      case Some(strings) => Success(GroupsOf(kind, strings))
  }

  /** The server's group references: by id, then by name, then by object id;
      the first list holding a non-string stops the handler. */
  function AssembledGroups(data: ServerModel): Result<seq<Group>, string> {
    var ids :- GroupsOfList(data.groupIds, ById, "Error parsing group id");
    var names :- GroupsOfList(data.groupNames, ByName, "Error parsing group name");
    var objectIds :- GroupsOfList(data.groupObjectIds, ByObjectId, "Error parsing group object id");
    Success(ids + names + objectIds)
  }

  predicate AllStringsOrNull(list: Option<seq<Attr>>) {
    list.Some? ==> forall i | 0 <= i < |list.value| :: list.value[i].Str?
  }

  /** The strings of a list that is null or holds only strings. */
  function StringsOrNone(list: Option<seq<Attr>>): seq<string> {
    if list.None? then [] else Strings(list.value)
  }

  /** The groups are assembled exactly when every non-null list holds only
      strings; then there is one reference per string, in list order, ids
      before names before object ids. Otherwise the error names the first
      list, in that order, that holds something else. */
  lemma AssembledGroupsMeaning(data: ServerModel)
    ensures AssembledGroups(data).Success? <==>
      AllStringsOrNull(data.groupIds) && AllStringsOrNull(data.groupNames) && AllStringsOrNull(data.groupObjectIds)
    ensures AssembledGroups(data).Success? ==>
      AssembledGroups(data).value ==
        GroupsOf(ById, StringsOrNone(data.groupIds)) + GroupsOf(ByName, StringsOrNone(data.groupNames))
          + GroupsOf(ByObjectId, StringsOrNone(data.groupObjectIds))
    ensures !AllStringsOrNull(data.groupIds) ==> AssembledGroups(data) == Failure("Error parsing group id")
    ensures AllStringsOrNull(data.groupIds) && !AllStringsOrNull(data.groupNames) ==>
              AssembledGroups(data) == Failure("Error parsing group name")
    ensures AllStringsOrNull(data.groupIds) && AllStringsOrNull(data.groupNames) && !AllStringsOrNull(data.groupObjectIds) ==>
              AssembledGroups(data) == Failure("Error parsing group object id")
  {
    if data.groupIds.Some? && AllStringsOrNull(data.groupIds) { StringsOfAllStrings(data.groupIds.value); }
    if data.groupNames.Some? && AllStringsOrNull(data.groupNames) { StringsOfAllStrings(data.groupNames.value); }
    if data.groupObjectIds.Some? && AllStringsOrNull(data.groupObjectIds) { StringsOfAllStrings(data.groupObjectIds.value); }
  }

  /** Appends one reference per element of `list`, stopping with `error` at
      the first element that is not a string. */
  method AppendGroups(groups: seq<Group>, list: Option<seq<Attr>>, kind: GroupKind, error: string)
    returns (r: seq<Group>, err: Option<string>)
    ensures GroupsOfList(list, kind, error).Success? ==> err.None? && r == groups + GroupsOfList(list, kind, error).value
    ensures GroupsOfList(list, kind, error).Failure? ==> err == Some(error)
  {
    r := groups;
    if list.None? {
      return r, None;
    }
    var elements := list.value;
    for i := 0 to |elements|
      invariant forall j | 0 <= j < i :: elements[j].Str?
      invariant r == groups + seq(i, j requires 0 <= j < i => GroupOf(kind, elements[j].str))
    {
      if !elements[i].Str? {
        return r, Some(error);
      }
      r := r + [GroupOf(kind, elements[i].str)];
    }
    return r, None;
  }

  /** The group lists of the data, assembled as the handlers do it. */
  method BuildGroups(data: ServerModel) returns (groups: seq<Group>, err: Option<string>)
    ensures err.None? <==> AssembledGroups(data).Success?
    ensures err.None? ==> groups == AssembledGroups(data).value
    ensures err.Some? ==> err.value == AssembledGroups(data).error
  {
    groups := [];
    groups, err := AppendGroups(groups, data.groupIds, ById, "Error parsing group id");
    if err.Some? {
      return;
    }
    groups, err := AppendGroups(groups, data.groupNames, ByName, "Error parsing group name");
    if err.Some? {
      return;
    }
    groups, err := AppendGroups(groups, data.groupObjectIds, ByObjectId, "Error parsing group object id");
  }

  /** The server a handler builds from the data, its group references and
      its listeners. */
  function ServerFromData(id: string, data: ServerModel, groups: seq<Group>, listeners: seq<Listener>): Server {
    Server(id, data.name, groups, NoFirewall.(id := data.firewallId), listeners,
           data.autoupdate, data.ipAddress, data.description, "",
           OSAutoupdatePolicy(data.osUpdateEnabled, data.osSecurityUpdateEnabled, data.osAllUpdateEnabled,
                              data.osRestartAfterUpdate, data.osUpdateHour))
  }

  /** Every listener of the server is one the listener check accepts. */
  predicate ListenersAccepted(server: Server) {
    forall l | l in server.listeners :: NormalizeServerListener(l).None?
  }

  /** The checks Create and Update share: group assembly, then the listener
      check. Returns the server to hand to the client, or the diagnostic. */
  method PrepareServer(id: string, data: ServerModel) returns (server: Server, diag: Option<Diagnostic>)
    ensures AssembledGroups(data).Failure? ==>
      diag == Some(Diagnostic(AssembledGroups(data).error, AssembledGroups(data).error))
    ensures AssembledGroups(data).Success? ==>
      server == ServerFromData(id, data, AssembledGroups(data).value, FilterMap(ParseListener, data.listeners))
    ensures AssembledGroups(data).Success? ==> (diag.None? <==> ListenersAccepted(server))
    ensures AssembledGroups(data).Success? && diag.Some? ==>
      exists i | 0 <= i < |server.listeners| ::
        && (forall j | 0 <= j < i :: NormalizeServerListener(server.listeners[j]).None?)
        && NormalizeServerListener(server.listeners[i]).Some?
        && diag == Some(Diagnostic("Error normalizing Server", NormalizeServerListener(server.listeners[i]).value))
  {
    var listeners := ParseServerListenersFromModel(data.listeners);
    var groups, groupErr := BuildGroups(data);
    server := ServerFromData(id, data, groups, listeners);
    if groupErr.Some? {
      return server, Some(Diagnostic(groupErr.value, groupErr.value));
    }
    var err := NormalizeServer(server);
    if err.Some? {
      return server, Some(Diagnostic("Error normalizing Server", err.value));
    }
    forall l | l in server.listeners ensures NormalizeServerListener(l).None? {
      var i :| 0 <= i < |server.listeners| && server.listeners[i] == l;
    }
    return server, None;
  }

  /** Create. The server is built from the plan with no id; a list holding a
      non-string or a rejected listener is reported and the client is not
      called; otherwise the server is created and the id and configuration
      it comes back with are stored with the plan. `submitted` is the server
      handed to the client. */
  method Create(plan: ServerModel, c: Client, env: Env)
    returns (diags: seq<Diagnostic>, state: Option<ServerModel>, submitted: Option<Server>)
    ensures AssembledGroups(plan).Failure? ==>
      diags == [Diagnostic(AssembledGroups(plan).error, AssembledGroups(plan).error)] && state.None? && submitted.None?
    ensures submitted.Some? <==>
      && AssembledGroups(plan).Success?
      && ListenersAccepted(ServerFromData("", plan, AssembledGroups(plan).value, FilterMap(ParseListener, plan.listeners)))
    ensures submitted.Some? ==>
      submitted.value == ServerFromData("", plan, AssembledGroups(plan).value, FilterMap(ParseListener, plan.listeners))
    ensures submitted.Some? ==>
      var reply := CreateServer(c, submitted.value, env).result;
      && (reply.Failure? ==> diags == [Diagnostic("Error creating Server", reply.error)] && state.None?)
      && (reply.Success? ==>
            diags == [] && state == Some(plan.(id := reply.value.id, configuration := reply.value.configuration)))
    ensures AssembledGroups(plan).Success? && submitted.None? ==>
      var listeners := FilterMap(ParseListener, plan.listeners);
      exists i | 0 <= i < |listeners| ::
        && (forall j | 0 <= j < i :: NormalizeServerListener(listeners[j]).None?)
        && NormalizeServerListener(listeners[i]).Some?
        && diags == [Diagnostic("Error normalizing Server", NormalizeServerListener(listeners[i]).value)]
    ensures submitted.None? ==> state.None? && |diags| == 1
  {
    var server, diag := PrepareServer("", plan);
    if diag.Some? {
      return [diag.value], None, None;
    }
    submitted := Some(server);
    var reply := CreateServer(c, server, env).result;
    if reply.Failure? {
      return [Diagnostic("Error creating Server", reply.error)], None, submitted;
    }
    return [], Some(plan.(id := reply.value.id, configuration := reply.value.configuration)), submitted;
  }

  /** Read. The server is looked up by name; its id and configuration
      replace the stored ones. */
  method Read(prior: ServerModel, c: Client, env: Env) returns (diags: seq<Diagnostic>, state: Option<ServerModel>)
    ensures var reply := GetServer(c, prior.name, env).result;
      && (reply.Failure? ==>
            diags == [Diagnostic("Client Error", "Unable to get Server, got error: " + reply.error)] && state.None?)
      && (reply.Success? ==>
            diags == [] && state == Some(prior.(id := reply.value.id, configuration := reply.value.configuration)))
  {
    var reply := GetServer(c, prior.name, env).result;
    if reply.Failure? {
      return [Diagnostic("Client Error", "Unable to get Server, got error: " + reply.error)], None;
    }
    return [], Some(prior.(id := reply.value.id, configuration := reply.value.configuration));
  }

  /** Update. Like Create, but the server carries the planned id and only
      the configuration the client answers with is stored. */
  method Update(plan: ServerModel, c: Client, env: Env)
    returns (diags: seq<Diagnostic>, state: Option<ServerModel>, submitted: Option<Server>)
    ensures AssembledGroups(plan).Failure? ==>
      diags == [Diagnostic(AssembledGroups(plan).error, AssembledGroups(plan).error)] && state.None? && submitted.None?
    ensures submitted.Some? <==>
      && AssembledGroups(plan).Success?
      && ListenersAccepted(ServerFromData(plan.id, plan, AssembledGroups(plan).value, FilterMap(ParseListener, plan.listeners)))
    ensures submitted.Some? ==>
      submitted.value == ServerFromData(plan.id, plan, AssembledGroups(plan).value, FilterMap(ParseListener, plan.listeners))
    ensures submitted.Some? ==>
      var reply := UpdateServer(c, submitted.value, env).result;
      && (reply.Failure? ==> diags == [Diagnostic("Error updating Server", reply.error)] && state.None?)
      && (reply.Success? ==> diags == [] && state == Some(plan.(configuration := reply.value.configuration)))
    ensures AssembledGroups(plan).Success? && submitted.None? ==>
      var listeners := FilterMap(ParseListener, plan.listeners);
      exists i | 0 <= i < |listeners| ::
        && (forall j | 0 <= j < i :: NormalizeServerListener(listeners[j]).None?)
        && NormalizeServerListener(listeners[i]).Some?
        && diags == [Diagnostic("Error normalizing Server", NormalizeServerListener(listeners[i]).value)]
    ensures submitted.None? ==> state.None? && |diags| == 1
  {
    var server, diag := PrepareServer(plan.id, plan);
    if diag.Some? {
      return [diag.value], None, None;
    }
    submitted := Some(server);
    var reply := UpdateServer(c, server, env).result;
    if reply.Failure? {
      return [Diagnostic("Error updating Server", reply.error)], None, submitted;
    }
    return [], Some(plan.(configuration := reply.value.configuration)), submitted;
  }

  /** Delete. The server is deleted by its stored id. */
  method Delete(prior: ServerModel, c: Client, env: Env) returns (diags: seq<Diagnostic>)
    ensures var reply := DeleteServer(c, prior.id, env).result;
      && (reply.Failure? ==> diags == [Diagnostic("Client Error", "Unable to delete Server, got error: " + reply.error)])
      && (reply.Success? ==> diags == [])
  {
    var reply := DeleteServer(c, prior.id, env).result;
    if reply.Failure? {
      return [Diagnostic("Client Error", "Unable to delete Server, got error: " + reply.error)];
    }
    return [];
  }

  /** A listener with a port outside 1..65535 keeps the server away from the
      API: Create then sends nothing, once the groups have been assembled. */
  lemma BadListenerPortBlocksCreate(plan: ServerModel, element: Attr)
    requires element in plan.listeners
    requires ParseListener(element).Some?
    requires !(1 <= ParseListener(element).value.listenPort <= 65535)
    ensures AssembledGroups(plan).Success? ==>
      !ListenersAccepted(ServerFromData("", plan, AssembledGroups(plan).value, FilterMap(ParseListener, plan.listeners)))
  {
    var i :| 0 <= i < |plan.listeners| && plan.listeners[i] == element;
    FilterMapIsOrderedSubsequence(ParseListener, plan.listeners);
    var ks := KeptIndices(ParseListener, plan.listeners);
    var j :| 0 <= j < |ks| && ks[j] == i;
    var parsed := FilterMap(ParseListener, plan.listeners);
    assert parsed[j] in parsed;
  }
}
