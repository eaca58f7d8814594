/** Resource-to-script projection.

    A projector turns a native record into a fresh script object by walking a
    fixed, ordered list of (field name, native value) pairs: each value is
    converted by the runtime and set on the object under its name. The first
    conversion or assignment that fails aborts the whole projection with an
    error naming the field, so a caller never sees a partly filled object. */
module Projector {
  import opened Results
  import opened Script

  /** One declared field of a projection. */
  datatype Field = Field(name: string, native: Native)

  function FieldNames(fields: seq<Field>): (names: seq<string>)
    ensures |names| == |fields|
    ensures forall i :: 0 <= i < |fields| ==> names[i] == fields[i].name
  {
    seq(|fields|, i requires 0 <= i < |fields| => fields[i].name)
  }

  function PrepareError(name: string, e: string): string {
    "can't prepare field " + Quoted(name) + ": " + e
  }

  function SetError(name: string, e: string): string {
    "can't set field " + Quoted(name) + ": " + e
  }

  /** The error projecting field `f` raises, if any. */
  function FieldFault(rt: Runtime, f: Field): Option<string> {
    match rt.toValue(f.native)
    case Err(e) => Some(PrepareError(f.name, e))
    case Ok(v) =>
      match rt.setFault(f.name, v)
      case Some(e) => Some(SetError(f.name, e))
      case None => None
  }

  /** The property projecting field `f` adds, when it succeeds. */
  function FieldProp(rt: Runtime, f: Field): Prop
    requires FieldFault(rt, f).None?
  {
    Prop(f.name, rt.toValue(f.native).value)
  }

  /** Sets `fields` one after another on an object holding `props`, each
      through an ordinary property assignment. */
  function Fill(rt: Runtime, props: seq<Prop>, fields: seq<Field>): (r: Result<seq<Prop>>)
    requires Distinct(FieldNames(fields))
    requires forall i :: 0 <= i < |fields| ==> fields[i].name !in NamesOf(props)
    ensures r.Ok? <==> forall i :: 0 <= i < |fields| ==> FieldFault(rt, fields[i]).None?
    ensures r.Ok? ==> |r.value| == |props| + |fields| && r.value[..|props|] == props
    ensures r.Ok? ==> forall i :: 0 <= i < |fields| ==> r.value[|props| + i] == FieldProp(rt, fields[i])
    ensures r.Err? ==> exists i :: 0 <= i < |fields|
                        && (forall j :: 0 <= j < i ==> FieldFault(rt, fields[j]).None?)
                        && FieldFault(rt, fields[i]) == Some(r.msg)
    decreases |fields|
  {
    if |fields| == 0 then
      Ok(props)
    else
      var f := fields[0];
      match FieldFault(rt, f)
      case Some(e) => Err(e)
      case None =>
        var v := rt.toValue(f.native).value;
        SetFreshAppends(props, f.name, v);
        FillStep(props, fields, v);
        assert forall i :: 1 <= i < |fields| ==> fields[i] == fields[1..][i - 1];
        Fill(rt, SetProp(props, f.name, v), fields[1..])
  }

  /** After the first field is set, the remaining fields still have
      distinct names that the object does not hold yet. */
  lemma FillStep(props: seq<Prop>, fields: seq<Field>, v: Value)
    requires |fields| > 0
    requires Distinct(FieldNames(fields))
    requires forall i :: 0 <= i < |fields| ==> fields[i].name !in NamesOf(props)
    ensures Distinct(FieldNames(fields[1..]))
    ensures forall i :: 0 <= i < |fields| - 1 ==>
              fields[1..][i].name !in NamesOf(props + [Prop(fields[0].name, v)])
  {
    assert FieldNames(fields[1..]) == FieldNames(fields)[1..];
    assert NamesOf(props + [Prop(fields[0].name, v)]) == NamesOf(props) + [fields[0].name];
    forall i | 0 <= i < |fields| - 1
      ensures fields[1..][i].name != fields[0].name
    {
      assert FieldNames(fields)[0] != FieldNames(fields)[i + 1];
    }
  }

  /** Projects `fields` onto a fresh object. On success the object's keys are
      exactly the declared names, in order, and each holds the runtime's
      conversion of its native value; on failure the error names the first
      field that failed and every earlier field succeeded. */
  function Project(rt: Runtime, fields: seq<Field>): (r: Result<Value>)
    requires Distinct(FieldNames(fields))
    ensures r.Ok? <==> forall i :: 0 <= i < |fields| ==> FieldFault(rt, fields[i]).None?
    ensures r.Ok? ==> r.value.Obj? && Keys(r.value) == FieldNames(fields)
    ensures r.Ok? ==> forall i :: 0 <= i < |fields| ==>
                        Lookup(r.value, fields[i].name) == rt.toValue(fields[i].native).value
    ensures r.Err? ==> exists i :: 0 <= i < |fields|
                        && (forall j :: 0 <= j < i ==> FieldFault(rt, fields[j]).None?)
                        && FieldFault(rt, fields[i]) == Some(r.msg)
  {
    var props :- Fill(rt, [], fields);
    assert props[..0] == [];
    assert NamesOf(props) == FieldNames(fields);
    assert forall i :: 0 <= i < |fields| ==>
             Lookup(Obj(props), fields[i].name) == rt.toValue(fields[i].native).value by {
      forall i | 0 <= i < |fields|
        ensures Lookup(Obj(props), fields[i].name) == rt.toValue(fields[i].native).value
      {
        assert props[i] == FieldProp(rt, fields[i]);
        LookupDistinct(props, i);
      }
    }
    Ok(Obj(props))
  }

  /** Every projection error names the field it failed on. */
  lemma FaultNamesField(rt: Runtime, f: Field)
    requires FieldFault(rt, f).Some?
    ensures exists e :: FieldFault(rt, f).value == PrepareError(f.name, e)
                        || FieldFault(rt, f).value == SetError(f.name, e)
  {
    match rt.toValue(f.native)
    case Err(e) =>
      assert FieldFault(rt, f).value == PrepareError(f.name, e);
    case Ok(v) =>
      assert FieldFault(rt, f).value == SetError(f.name, rt.setFault(f.name, v).value);
  }
}
