/** The actions adapter: the script-facing `actions` module.

    It binds two methods. `get` takes an action or its id and fetches it;
    `list` drains the client's stream of actions, projecting each one as it
    arrives, and only then looks at the stream's terminal error. The stream
    is a finite sequence of records followed by one optional error. */
module Actions {
  import opened Results
  import opened Script
  import Projector
  import Registrar

  /** A point in time, kept as its RFC 3339 rendering with nanoseconds
      (the date-time format of section 5.6 of RFC 3339). */
  datatype Timestamp = Timestamp(rfc3339Nano: string)

  /** An action record as the API client returns it. */
  datatype Action = Action(
    id: int,
    status: string,
    kind: string,
    startedAt: Timestamp,
    completedAt: Timestamp,
    resourceId: int,
    resourceType: string,
    regionSlug: string)

  /** The actions API client: a fetch by id, and the list stream, made of the
      records it emits, in order, and the error it ends with, if any. */
  datatype Client = Client(
    get: int -> Result<Action>,
    stream: seq<Action>,
    streamErr: Option<string>)

  /** A call the adapter made on the client. */
  datatype ClientCall = GetCall(id: int) | ListCall

  const Service := "actions"

  const MethodNames: seq<string> := ["get", "list"]

  const BadIdArg := "argument must be an Action or an ActionID"

  const ActionFieldNames: seq<string> := [
    "id", "status", "type", "started_at", "completed_at",
    "resource_id", "resource_type", "region_slug"]

  // ---------------------------------------------------------------------
  // Registration

  /** Builds the `actions` module object. On success its keys are exactly
      `get` and `list`, in that order, each bound to that method; a failure
      to create the object is returned as is, and a failure to bind a method
      is reported as `preparing method "<name>", <error>` for the first
      method that could not be bound. */
  function Apply(rt: Runtime): (r: Result<Value>)
    ensures rt.objectFault.Some? ==> r == Err(rt.objectFault.value)
    ensures r.Ok? <==> rt.objectFault.None?
                       && forall i :: 0 <= i < |MethodNames| ==>
                            Registrar.BindFault(rt, Service, MethodNames[i]).None?
    ensures r.Ok? ==> r.value.Obj? && Keys(r.value) == ["get", "list"]
    ensures r.Ok? ==> Lookup(r.value, "get") == HostFn(Service, "get")
                      && Lookup(r.value, "list") == HostFn(Service, "list")
    ensures rt.objectFault.None? && r.Err? ==>
              exists i :: 0 <= i < |MethodNames|
                && (forall j :: 0 <= j < i ==> Registrar.BindFault(rt, Service, MethodNames[j]).None?)
                && Registrar.BindFault(rt, Service, MethodNames[i]) == Some(r.msg)
  {
    assert MethodNames[0] == "get" && MethodNames[1] == "list";
    Registrar.Build(rt, Service, MethodNames)
  }

  // ---------------------------------------------------------------------
  // Projection

  /** The declared fields of an action. Both identifiers are widened to
      64-bit integers, and both timestamps are rendered as text. */
  function ActionFields(a: Action): (fields: seq<Projector.Field>)
    ensures Projector.FieldNames(fields) == ActionFieldNames
  {
    [ Projector.Field("id", NInt64(a.id)),
      Projector.Field("status", NString(a.status)),
      Projector.Field("type", NString(a.kind)),
      Projector.Field("started_at", NString(a.startedAt.rfc3339Nano)),
      Projector.Field("completed_at", NString(a.completedAt.rfc3339Nano)),
      Projector.Field("resource_id", NInt64(a.resourceId)),
      Projector.Field("resource_type", NString(a.resourceType)),
      Projector.Field("region_slug", NString(a.regionSlug)) ]
  }

  lemma ActionFieldNamesDistinct()
    ensures Distinct(ActionFieldNames)
  {
  }

  /** Projects an action onto a script object. On success the object's keys
      are exactly the eight action field names, in order, each holding the
      runtime's conversion of the corresponding record field. On failure the
      error is that of the first field, in declaration order, that could not
      be converted or set: `can't prepare field "<name>": …` or `can't set
      field "<name>": …` for that field. */
  function ActionToVM(rt: Runtime, a: Action): (r: Result<Value>)
    ensures r.Ok? <==> forall i :: 0 <= i < |ActionFieldNames| ==>
                         Projector.FieldFault(rt, ActionFields(a)[i]).None?
    ensures r.Ok? ==> r.value.Obj? && Keys(r.value) == ActionFieldNames
    ensures r.Ok? ==> forall i :: 0 <= i < |ActionFieldNames| ==>
                        Lookup(r.value, ActionFieldNames[i]) == rt.toValue(ActionFields(a)[i].native).value
    ensures r.Err? ==> exists i :: 0 <= i < |ActionFieldNames|
                         && (forall j :: 0 <= j < i ==> Projector.FieldFault(rt, ActionFields(a)[j]).None?)
                         && Projector.FieldFault(rt, ActionFields(a)[i]) == Some(r.msg)
    ensures r.Err? ==> exists i, e :: 0 <= i < |ActionFieldNames|
                         && (r.msg == Projector.PrepareError(ActionFieldNames[i], e)
                             || r.msg == Projector.SetError(ActionFieldNames[i], e))
  {
    ActionFieldNamesDistinct();
    var fields := ActionFields(a);
    var r := Projector.Project(rt, fields);
    if r.Err? then
      var i :| 0 <= i < |fields| && Projector.FieldFault(rt, fields[i]) == Some(r.msg);
      Projector.FaultNamesField(rt, fields[i]);
      r
    else
      r
  }

  /** In a projected action, `id` and `resource_id` hold the identifiers
      widened to 64-bit integers, and the two timestamps their RFC 3339
      text with nanoseconds. */
  lemma ActionIdsWidened(rt: Runtime, a: Action)
    requires ActionToVM(rt, a).Ok?
    ensures var o := ActionToVM(rt, a).value;
            && rt.toValue(NInt64(a.id)) == Ok(Lookup(o, "id"))
            && rt.toValue(NInt64(a.resourceId)) == Ok(Lookup(o, "resource_id"))
            && rt.toValue(NString(a.startedAt.rfc3339Nano)) == Ok(Lookup(o, "started_at"))
            && rt.toValue(NString(a.completedAt.rfc3339Nano)) == Ok(Lookup(o, "completed_at"))
  {
    var fields := ActionFields(a);
    assert ActionFieldNames[0] == "id" && fields[0].native == NInt64(a.id);
    assert ActionFieldNames[5] == "resource_id" && fields[5].native == NInt64(a.resourceId);
    assert ActionFieldNames[3] == "started_at" && ActionFieldNames[4] == "completed_at";
  }

  // ---------------------------------------------------------------------
  // get

  /** `get(actionOrId)`: resolves the id, fetches the action once and
      projects it. A bad argument shape throws before the client is called;
      a client error is thrown verbatim. */
  function Get(rt: Runtime, c: Client, arg: Value): (reply: Reply<ClientCall>)
    ensures !arg.Number? && !IsObject(arg) ==> reply == Reply(Err(BadIdArg), [])
    ensures reply.calls == [] <==> ResolveId(rt, arg, BadIdArg).Err?
    ensures reply.calls == [] ==> reply.result == Err(ResolveId(rt, arg, BadIdArg).msg)
    ensures reply.calls != [] ==>
              var id := ResolveId(rt, arg, BadIdArg).value;
              && reply.calls == [GetCall(id)]
              && (c.get(id).Err? ==> reply.result == Err(c.get(id).msg))
              && (c.get(id).Ok? ==> reply.result == ActionToVM(rt, c.get(id).value))
  {
    match ResolveId(rt, arg, BadIdArg)
    case Err(e) => Reply(Err(e), [])
    case Ok(id) =>
      var result := match c.get(id)
        case Err(e) => Err(e)
        case Ok(a) => ActionToVM(rt, a);
      Reply(result, [GetCall(id)])
  }

  /** Passing an action id and passing an object whose `id` property holds
      that id are indistinguishable to `get`. */
  lemma NumberOrObjectAlike(rt: Runtime, c: Client, x: real, o: Value)
    requires IsObject(o)
    requires rt.getFault(o, "id").None?
    requires Lookup(o, "id") == Number(x)
    ensures Get(rt, c, o) == Get(rt, c, Number(x))
  {
    NumberAndObjectResolveAlike(rt, x, o, BadIdArg);
  }

  // ---------------------------------------------------------------------
  // list

  /** The drain of the stream with projector `project`: every emitted record
      is projected in order; the first projection failure throws at once,
      and only after the last record is the terminal error looked at. */
  function Drain(c: Client, project: Action -> Result<Value>): (r: Result<seq<Value>>)
    ensures r.Ok? <==> (forall i :: 0 <= i < |c.stream| ==> project(c.stream[i]).Ok?) && c.streamErr.None?
    ensures r.Ok? ==> |r.value| == |c.stream|
                      && forall i :: 0 <= i < |c.stream| ==> project(c.stream[i]) == Ok(r.value[i])
    ensures (forall i :: 0 <= i < |c.stream| ==> project(c.stream[i]).Ok?) && c.streamErr.Some? ==>
              r == Err(c.streamErr.value)
    ensures (exists i :: 0 <= i < |c.stream| && project(c.stream[i]).Err?) ==>
              exists i :: 0 <= i < |c.stream|
                && (forall j :: 0 <= j < i ==> project(c.stream[j]).Ok?)
                && project(c.stream[i]).Err?
                && r == Err(project(c.stream[i]).msg)
  {
    var items :- MapEach(project, c.stream);
    match c.streamErr
    case Some(e) => Err(e)
    case None => Ok(items)
  }

  /** `list()`: drains the stream with the action projector and answers the
      projections as one script array, in the order the records were
      emitted. A terminal error throws even though records were projected,
      so no partial array is ever returned. */
  function List(rt: Runtime, c: Client): (reply: Reply<ClientCall>)
    ensures reply.calls == [ListCall]
    ensures reply.result.Ok? <==>
              && Drain(c, a => ActionToVM(rt, a)).Ok?
              && rt.arrayFault(Drain(c, a => ActionToVM(rt, a)).value).None?
    ensures reply.result.Ok? ==>
              && reply.result.value.Array?
              && Drain(c, a => ActionToVM(rt, a)) == Ok(reply.result.value.elems)
    ensures Drain(c, a => ActionToVM(rt, a)).Err? ==>
              reply.result == Err(Drain(c, a => ActionToVM(rt, a)).msg)
    ensures Drain(c, a => ActionToVM(rt, a)).Ok? && rt.arrayFault(Drain(c, a => ActionToVM(rt, a)).value).Some? ==>
              reply.result == Err(rt.arrayFault(Drain(c, a => ActionToVM(rt, a)).value).value)
  {
    var result := match Drain(c, a => ActionToVM(rt, a))
      case Err(e) => Err(e)
      case Ok(vs) =>
        match rt.arrayFault(vs)
        case Some(e) => Err(e)
        case None => Ok(Array(vs));
    Reply(result, [ListCall])
  }
}
