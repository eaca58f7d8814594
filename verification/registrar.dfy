/** Module registration: building the script object that exposes one
    service family's method table.

    The registrar is purely structural. It creates an empty object and binds
    each name of the table, in order, to the host function of that name. Any
    binding failure aborts the build with a setup error (not a script
    exception) that names the method; no object is returned then. */
module Registrar {
  import opened Results
  import opened Script

  function PreparingError(name: string, e: string): string {
    "preparing method " + Quoted(name) + ", " + e
  }

  /** The error binding `name` raises, if any. */
  function BindFault(rt: Runtime, service: string, name: string): Option<string> {
    match rt.setFault(name, HostFn(service, name))
    case Some(e) => Some(PreparingError(name, e))
    case None => None
  }

  /** Binds `names` one after another on an object holding `props`. */
  function BindAll(rt: Runtime, service: string, props: seq<Prop>, names: seq<string>)
    : (r: Result<seq<Prop>>)
    requires Distinct(names)
    requires forall i :: 0 <= i < |names| ==> names[i] !in NamesOf(props)
    ensures r.Ok? <==> forall i :: 0 <= i < |names| ==> BindFault(rt, service, names[i]).None?
    ensures r.Ok? ==> |r.value| == |props| + |names| && r.value[..|props|] == props
    ensures r.Ok? ==> forall i :: 0 <= i < |names| ==>
                        r.value[|props| + i] == Prop(names[i], HostFn(service, names[i]))
    ensures r.Err? ==> exists i :: 0 <= i < |names|
                        && (forall j :: 0 <= j < i ==> BindFault(rt, service, names[j]).None?)
                        && BindFault(rt, service, names[i]) == Some(r.msg)
    decreases |names|
  {
    if |names| == 0 then
      Ok(props)
    else
      var name := names[0];
      var fn := HostFn(service, name);
      match BindFault(rt, service, name)
      case Some(e) => Err(e)
      case None =>
        SetFreshAppends(props, name, fn);
        BindStep(props, names, fn);
        assert forall i :: 1 <= i < |names| ==> names[i] == names[1..][i - 1];
        BindAll(rt, service, SetProp(props, name, fn), names[1..])
  }

  /** After the first method is bound, the remaining names are still
      distinct and not yet held by the object. */
  lemma BindStep(props: seq<Prop>, names: seq<string>, fn: Value)
    requires |names| > 0
    requires Distinct(names)
    requires forall i :: 0 <= i < |names| ==> names[i] !in NamesOf(props)
    ensures Distinct(names[1..])
    ensures forall i :: 0 <= i < |names| - 1 ==> names[1..][i] !in NamesOf(props + [Prop(names[0], fn)])
  {
    assert NamesOf(props + [Prop(names[0], fn)]) == NamesOf(props) + [names[0]];
    forall i | 0 <= i < |names| - 1
      ensures names[1..][i] != names[0]
    {
      assert names[0] != names[i + 1];
    }
  }

  /** Builds the module object for `service` from its method table. On
      success its keys are exactly the table's names, in order, each bound to
      the host function of that name; a failure to create the object is
      returned verbatim, and a failure to bind a method names the first
      method that could not be bound. */
  function Build(rt: Runtime, service: string, names: seq<string>): (r: Result<Value>)
    requires Distinct(names)
    ensures rt.objectFault.Some? ==> r == Err(rt.objectFault.value)
    ensures r.Ok? <==> rt.objectFault.None?
                       && forall i :: 0 <= i < |names| ==> BindFault(rt, service, names[i]).None?
    ensures r.Ok? ==> r.value.Obj? && Keys(r.value) == names
    ensures r.Ok? ==> forall i :: 0 <= i < |names| ==>
                        Lookup(r.value, names[i]) == HostFn(service, names[i])
    ensures rt.objectFault.None? && r.Err? ==>
              exists i :: 0 <= i < |names|
                && (forall j :: 0 <= j < i ==> BindFault(rt, service, names[j]).None?)
                && BindFault(rt, service, names[i]) == Some(r.msg)
  {
    match rt.objectFault
    case Some(e) => Err(e)
    case None =>
      var props :- BindAll(rt, service, [], names);
      assert NamesOf(props) == names;
      assert forall i :: 0 <= i < |names| ==> Lookup(Obj(props), names[i]) == HostFn(service, names[i]) by {
        forall i | 0 <= i < |names|
          ensures Lookup(Obj(props), names[i]) == HostFn(service, names[i])
        {
          assert props[i] == Prop(names[i], HostFn(service, names[i]));
          LookupDistinct(props, i);
        }
      }
      Ok(Obj(props))
  }
}
