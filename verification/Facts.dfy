/** What the JSON of a record says about the record: everything that was put into it. */
module Facts {
  import opened Json
  import opened Models

  /** Equal argument by argument, as Python compares them: the order of a dict's entries does not matter. */
  ghost predicate SameFact(a: Fact, b: Fact) {
    match a
    case ActionStarted(key, kind, args, attempt) =>
      b.ActionStarted? && b.key == key && b.kind == kind && Same(args, b.args) && b.attempt == attempt
    case ActionCompleted(key, eid, result) =>
      b.ActionCompleted? && b.key == key && b.externalId == eid && Same(result, b.result)
    case EnvironmentPinned(values) =>
      b.EnvironmentPinned? && |b.values| == |values| && forall e :: e in values <==> e in b.values
    case _ => b == a
  }

  predicate SameKind(a: Fact, b: Fact) {
    && a.MissionStarted? == b.MissionStarted? && a.WorkCompleted? == b.WorkCompleted?
    && a.WorkFailed? == b.WorkFailed? && a.DecisionRecorded? == b.DecisionRecorded?
    && a.FindingRecorded? == b.FindingRecorded? && a.CheckpointCreated? == b.CheckpointCreated?
    && a.ActionStarted? == b.ActionStarted? && a.ActionCompleted? == b.ActionCompleted?
    && a.ActionReconciled? == b.ActionReconciled? && a.MissionCompleted? == b.MissionCompleted?
    && a.EvidenceRecorded? == b.EvidenceRecorded? && a.ReviewConfirmed? == b.ReviewConfirmed?
    && a.HandoffStarted? == b.HandoffStarted? && a.HandoffCompleted? == b.HandoffCompleted?
    && a.EnvironmentPinned? == b.EnvironmentPinned? && a.DependencyDeclared? == b.DependencyDeclared?
  }

  /** No two constructors share a type name. */
  lemma TypeNameFixes(a: Fact, b: Fact)
    requires TypeName(a) == TypeName(b)
    ensures SameKind(a, b)
  {
    var s, t := TypeName(a), TypeName(b);
    assert |s| == |t| && s[0] == t[0] && s[1] == t[1] && s[7] == t[7] && s[9] == t[9];
  }

  lemma TextsFixed(xs: seq<string>, ys: seq<string>)
    requires Norm(Strings(xs)) == Norm(Strings(ys))
    ensures xs == ys
  {
    var p, q := Strings(xs).items, Strings(ys).items;
    assert NormItems(p) == NormItems(q);
    forall i | 0 <= i < |xs| ensures |ys| == |xs| && xs[i] == ys[i] {
      assert NormItems(p)[i] == Norm(p[i]) == Str(xs[i]) && NormItems(q)[i] == Norm(q[i]) == Str(ys[i]);
    }
  }

  function Leaf(e: Entry<string>): Field {
    Field(e.key, Str(e.value))
  }

  lemma DictElements(es: seq<Entry<string>>)
    ensures |NormFields(Dict(es).fields)| == |es|
    ensures forall e :: e in es <==> Leaf(e) in NormFields(Dict(es).fields)
  {
    var fs := NormFields(Dict(es).fields);
    assert forall i :: 0 <= i < |es| ==> fs[i] == Leaf(es[i]);
    forall e ensures e in es <==> Leaf(e) in fs {
      if Leaf(e) in fs {
        var i :| 0 <= i < |fs| && fs[i] == Leaf(e);
        assert es[i] == e;
      }
    }
  }

  lemma DictsFixed(es: seq<Entry<string>>, fs: seq<Entry<string>>)
    requires Norm(Dict(es)) == Norm(Dict(fs))
    ensures |es| == |fs| && forall e :: e in es <==> e in fs
  {
    hide NormFields;
    DictElements(es);
    DictElements(fs);
    SortKeeps(NormFields(Dict(es).fields));
    SortKeeps(NormFields(Dict(fs).fields));
    forall e ensures e in es <==> e in fs {
      assert Leaf(e) in NormFields(Dict(es).fields) <==> Leaf(e) in NormFields(Dict(fs).fields);
    }
  }

  /** Two entries hold the same value. */
  ghost predicate Agree(f: Field, g: Field) {
    Norm(f.value) == Norm(g.value) && Same(f.value, g.value)
  }

  ghost predicate PayloadsAgree(a: Fact, b: Fact) {
    var fs, gs := Payload(a).fields, Payload(b).fields;
    |fs| == |gs| && forall i :: 0 <= i < |fs| ==> Agree(fs[i], gs[i])
  }

  /** A payload is a dict: it says nothing twice. */
  lemma PayloadIsDict(f: Fact)
    ensures DistinctNames(Payload(f).fields)
  {
    hide OrNull, Dict, Strings;
    var fs := Payload(f).fields;
    forall i, j | 0 <= i < j < |fs| ensures fs[i].name != fs[j].name {
      var a, b := fs[i].name, fs[j].name;
      assert |a| != |b| || a[0] != b[0] || a[2] != b[2];
    }
  }

  lemma PayloadKeys(a: Fact, b: Fact)
    requires SameKind(a, b)
    ensures SameNames(Payload(a).fields, Payload(b).fields)
  {
    hide OrNull, Dict, Strings;
  }

  lemma PayloadFixed(a: Fact, b: Fact)
    requires SameKind(a, b) && Norm(Payload(a)) == Norm(Payload(b))
    ensures PayloadsAgree(a, b)
  {
    PayloadKeys(a, b);
    hide Same, Norm, Payload, SameKind;
    NormsAgree(Payload(a).fields, Payload(b).fields);
  }

  lemma Leaves()
    ensures Norm(Null) == Null && forall b :: Norm(Bool(b)) == Bool(b)
    ensures forall n :: Norm(Num(n)) == Num(n)
    ensures forall s :: Norm(Str(s)) == Str(s)
  {
  }

  lemma ShortFixed(a: Fact, b: Fact)
    requires SameKind(a, b) && PayloadsAgree(a, b) && |Payload(a).fields| <= 2
    ensures SameFact(a, b)
  {
    Leaves();
    hide Same, Norm, Dict, Strings;
    var fs, gs := Payload(a).fields, Payload(b).fields;
    assert Agree(fs[0], gs[0]);
    if |fs| > 1 { assert Agree(fs[1], gs[1]); }
    match a
    case EnvironmentPinned(values) => DictsFixed(values, b.values);
    case DependencyDeclared(_, requirements) => TextsFixed(requirements, b.requirements);
    case _ =>
  }

  lemma LongFixed(a: Fact, b: Fact)
    requires SameKind(a, b) && PayloadsAgree(a, b) && |Payload(a).fields| > 2 && !a.EvidenceRecorded?
    ensures SameFact(a, b)
  {
    Leaves();
    hide Same, Norm, Dict, Strings;
    var fs, gs := Payload(a).fields, Payload(b).fields;
    assert Agree(fs[0], gs[0]) && Agree(fs[1], gs[1]) && Agree(fs[2], gs[2]);
    if |fs| > 3 { assert Agree(fs[3], gs[3]); }
  }

  lemma EvidenceFixed(a: Fact, b: Fact)
    requires SameKind(a, b) && PayloadsAgree(a, b) && a.EvidenceRecorded?
    ensures SameFact(a, b)
  {
    Leaves();
    hide Same, Norm;
    var fs, gs := Payload(a).fields, Payload(b).fields;
    assert Agree(fs[0], gs[0]) && Agree(fs[1], gs[1]) && Agree(fs[2], gs[2]);
    assert Agree(fs[3], gs[3]) && Agree(fs[4], gs[4]) && Agree(fs[5], gs[5]);
  }

  /** One type and payload text mean one fact. */
  lemma FactFixed(a: Fact, b: Fact)
    requires TypeName(a) == TypeName(b) && Norm(Payload(a)) == Norm(Payload(b))
    ensures SameFact(a, b)
  {
    TypeNameFixes(a, b);
    hide TypeName, Norm, Payload, SameKind, PayloadsAgree;
    PayloadFixed(a, b);
    if |Payload(a).fields| <= 2 {
      ShortFixed(a, b);
    } else if a.EvidenceRecorded? {
      EvidenceFixed(a, b);
    } else {
      LongFixed(a, b);
    }
  }

  // ---- semantic states ------------------------------------------------------------------

  lemma DecisionFixed(d: Decision, e: Decision)
    requires Norm(DecisionJson(d)) == Norm(DecisionJson(e))
    ensures d == e
  {
    var fs, gs := DecisionJson(d).fields, DecisionJson(e).fields;
    hide Norm, Same;
    NormsAgree(fs, gs);
    Leaves();
    assert Agree(fs[0], gs[0]) && Agree(fs[1], gs[1]);
  }

  lemma DecisionsFixed(ds: seq<Decision>, es: seq<Decision>)
    requires Norm(Decisions(ds)) == Norm(Decisions(es))
    ensures ds == es
  {
    hide DecisionJson;
    var p, q := Decisions(ds).items, Decisions(es).items;
    assert NormItems(p) == NormItems(q);
    forall i | 0 <= i < |ds| ensures |es| == |ds| && ds[i] == es[i] {
      assert NormItems(p)[i] == Norm(DecisionJson(ds[i])) && NormItems(q)[i] == Norm(DecisionJson(es[i]));
      DecisionFixed(ds[i], es[i]);
    }
  }

  /** One stored text means one semantic state. */
  lemma StateTextFixes(s: SemanticState, t: SemanticState)
    requires Canonical(StateJson(s)) == Canonical(StateJson(t))
    ensures s == t
  {
    Leaves();
    hide Canonical, Norm, Same, Strings, Decisions;
    var fs, gs := StateJson(s).fields, StateJson(t).fields;
    assert SameNames(fs, gs);
    FieldsAgree(fs, gs);
    assert Agree(fs[0], gs[0]) && Agree(fs[1], gs[1]) && Agree(fs[2], gs[2]) && Agree(fs[3], gs[3]);
    assert Agree(fs[4], gs[4]) && Agree(fs[5], gs[5]) && Agree(fs[6], gs[6]);
    TextsFixed(s.completed, t.completed);
    TextsFixed(s.failed, t.failed);
    TextsFixed(s.findings, t.findings);
    DecisionsFixed(s.decisions, t.decisions);
  }
}
