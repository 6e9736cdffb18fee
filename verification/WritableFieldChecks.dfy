/** The check that a plan writes only kinds and fields this server understands. */
module WritableFieldChecks {
  import opened Wrappers
  import opened ResourceKinds
  import opened StagedPlans

  datatype WriteRefusal =
    | UnknownKind(name: string)
    | KindNotWritable(name: string)
    | NotAnObject(name: string)
    | FieldNotWritable(name: string, field: string)

  /** One mutation is writable: a kind with a write route and, if it has a body, an object of allowed fields. */
  predicate Writable(m: Mutation) {
    m.Restore? ||
    (&& ParseKind(m.kind).Some?
     && WritableFields(ParseKind(m.kind).value).Some?
     && (m.Delete? || (m.body.Obj? && m.body.fields.Keys <= WritableFields(ParseKind(m.kind).value).value)))
  }

  /** The refusal names something really wrong with the mutation. */
  ghost predicate Explains(e: WriteRefusal, m: Mutation) {
    && !m.Restore? && m.kind == e.name
    && match e
       case UnknownKind(name) => ParseKind(name).None?
       case KindNotWritable(name) => ParseKind(name).Some? && WritableFields(ParseKind(name).value).None?
       case NotAnObject(_) => !m.Delete? && !m.body.Obj?
       case FieldNotWritable(name, field) =>
         && !m.Delete? && m.body.Get(field).Some? && ParseKind(name).Some?
         && WritableFields(ParseKind(name).value).Some? && field !in WritableFields(ParseKind(name).value).value
  }

  ghost predicate BlamesFirst(e: WriteRefusal, plan: seq<Mutation>) {
    exists i :: 0 <= i < |plan| && Explains(e, plan[i]) && forall j :: 0 <= j < i ==> Writable(plan[j])
  }

  /** Accepts exactly the writable plans, and blames the first mutation that is not. */
  method CheckWritableFields(plan: seq<Mutation>) returns (r: Result<(), WriteRefusal>)
    ensures r.Ok? <==> forall m :: m in plan ==> Writable(m)
    ensures r.Ok? ==> forall m :: m in plan && !m.Restore? ==>
              ParseKind(m.kind).Some? && WritableFields(ParseKind(m.kind).value).Some?
    ensures r.Ok? ==> forall m :: m in plan && (m.Create? || m.Update?) ==>
              m.body.Obj? && m.body.fields.Keys <= WritableFields(ParseKind(m.kind).value).value
    ensures r.Err? ==> BlamesFirst(r.error, plan)
  {
    for i := 0 to |plan|
      invariant forall j :: 0 <= j < i ==> Writable(plan[j])
    {
      var m := plan[i];
      assert m in plan;
      if m.Restore? {
        continue;
      }
      var kind := ParseKind(m.kind);
      if kind.None? {
        assert Explains(UnknownKind(m.kind), plan[i]);
        return Err(UnknownKind(m.kind));
      }
      var allowed := WritableFields(kind.value);
      if allowed.None? {
        assert Explains(KindNotWritable(m.kind), plan[i]);
        return Err(KindNotWritable(m.kind));
      }
      if m.Delete? {
        continue;
      }
      if !m.body.Obj? {
        assert Explains(NotAnObject(m.kind), plan[i]);
        return Err(NotAnObject(m.kind));
      }
      var todo := m.body.fields.Keys;
      while todo != {}
        invariant todo <= m.body.fields.Keys
        invariant m.body.fields.Keys - todo <= allowed.value
      {
        var field :| field in todo;
        if field !in allowed.value {
          assert Explains(FieldNotWritable(m.kind, field), plan[i]);
          return Err(FieldNotWritable(m.kind, field));
        }
        todo := todo - {field};
      }
    }
    r := Ok(());
  }
}
