/** The records of `models.py`, and the JSON each one is hashed as. */
module Models {
  import opened Prelude
  import opened Json

  datatype Origin = Deterministic | Human | ExternalAgent

  datatype ActionStatus = Started | Completed | NotOccurred

  /** A dict with string keys, in insertion order. */
  datatype Entry<+V> = Entry(key: string, value: V)

  ghost predicate IsDict<V>(es: seq<Entry<V>>) {
    forall i, j :: 0 <= i < j < |es| ==> es[i].key != es[j].key
  }

  /** The pinned or current values of an environment. */
  type Snapshot = es: seq<Entry<string>> | IsDict(es) witness []

  datatype Mission = Mission(missionId: string, goal: string, total: int)

  /**
   An event's type together with the payload its writers give it. The
   constructor is the type; the arguments are the payload's entries.
   */
  datatype Fact =
    | MissionStarted(goal: string, total: int)
    | WorkCompleted(item: string)
    | WorkFailed(item: string)
    | DecisionRecorded(id: string, text: string)
    | FindingRecorded(text: string)
    | CheckpointCreated(sourceSequence: int, stateDigest: string, reason: string)
    | ActionStarted(key: string, kind: string, args: Json, attempt: int)
    | ActionCompleted(key: string, externalId: Option<string>, result: Json)
    | ActionReconciled(key: string, occurred: bool, externalId: Option<string>)
    | MissionCompleted(completed: int, total: int)
    | EvidenceRecorded(evidenceId: string, how: string, subject: string, ok: bool, evidenceDigest: string,
      detail: string)
    | ReviewConfirmed(confirmedBy: string)
    | HandoffStarted(fromAgent: string, toAgent: string)
    | HandoffCompleted(fromAgent: string, toAgent: string, nextSafeAction: string, capsuleDigest: string)
    | EnvironmentPinned(values: Snapshot)
    | DependencyDeclared(component: string, requirements: seq<string>)

  datatype Event = Event(
    missionId: string,
    sequence: int,
    fact: Fact,
    createdAt: string,
    previousHash: Option<string>,
    digest: string,
    origin: Origin)

  datatype Decision = Decision(decisionId: string, text: string)

  datatype SemanticState = SemanticState(
    missionId: string,
    goal: string,
    total: int,
    completed: seq<string>,
    failed: seq<string>,
    decisions: seq<Decision>,
    findings: seq<string>)

  function OriginName(o: Origin): string {
    match o
    case Deterministic => "deterministic"
    case Human => "human"
    case ExternalAgent => "external_agent"
  }

  function TypeName(f: Fact): string {
    match f
    case MissionStarted(_, _) => "mission_started"
    case WorkCompleted(_) => "work_completed"
    case WorkFailed(_) => "work_failed"
    case DecisionRecorded(_, _) => "decision_recorded"
    case FindingRecorded(_) => "finding_recorded"
    case CheckpointCreated(_, _, _) => "checkpoint_created"
    case ActionStarted(_, _, _, _) => "action_started"
    case ActionCompleted(_, _, _) => "action_completed"
    case ActionReconciled(_, _, _) => "action_reconciled"
    case MissionCompleted(_, _) => "mission_completed"
    case EvidenceRecorded(_, _, _, _, _, _) => "evidence_recorded"
    case ReviewConfirmed(_) => "review_confirmed"
    case HandoffStarted(_, _) => "handoff_started"
    case HandoffCompleted(_, _, _, _) => "handoff_completed"
    case EnvironmentPinned(_) => "environment_pinned"
    case DependencyDeclared(_, _) => "dependency_declared"
  }

  // ---- JSON ---------------------------------------------------------------

  function OrNull(s: Option<string>): Json {
    match s
    case None => Null
    case Some(v) => Str(v)
  }

  function Strings(xs: seq<string>): Json {
    Arr(seq(|xs|, i requires 0 <= i < |xs| => Str(xs[i])))
  }

  function Dict(es: seq<Entry<string>>): Json {
    Obj(seq(|es|, i requires 0 <= i < |es| => Field(es[i].key, Str(es[i].value))))
  }

  /** The payload column. */
  function Payload(f: Fact): Json {
    match f
    case MissionStarted(goal, total) => Obj([Field("goal", Str(goal)), Field("total", Num(total))])
    case WorkCompleted(item) => Obj([Field("item", Str(item))])
    case WorkFailed(item) => Obj([Field("item", Str(item))])
    case DecisionRecorded(id, text) => Obj([Field("id", Str(id)), Field("text", Str(text))])
    case FindingRecorded(text) => Obj([Field("text", Str(text))])
    case CheckpointCreated(source, digest, reason) =>
      Obj([Field("source_sequence", Num(source)), Field("state_digest", Str(digest)), Field("reason", Str(reason))])
    case ActionStarted(key, kind, args, attempt) =>
      Obj([Field("key", Str(key)), Field("kind", Str(kind)), Field("args", args), Field("attempt", Num(attempt))])
    case ActionCompleted(key, eid, result) =>
      Obj([Field("key", Str(key)), Field("external_id", OrNull(eid)), Field("result", result)])
    case ActionReconciled(key, occurred, eid) =>
      Obj([Field("key", Str(key)), Field("occurred", Bool(occurred)), Field("external_id", OrNull(eid))])
    case MissionCompleted(completed, total) => Obj([Field("completed", Num(completed)), Field("total", Num(total))])
    case EvidenceRecorded(id, how, subject, ok, digest, detail) =>
      Obj([Field("evidence_id", Str(id)), Field("method", Str(how)), Field("subject", Str(subject)),
           Field("ok", Bool(ok)), Field("digest", Str(digest)), Field("detail", Str(detail))])
    case ReviewConfirmed(who) => Obj([Field("confirmed_by", Str(who))])
    case HandoffStarted(source, target) => Obj([Field("from_agent", Str(source)), Field("to_agent", Str(target))])
    case HandoffCompleted(source, target, next, digest) =>
      Obj([Field("from_agent", Str(source)), Field("to_agent", Str(target)),
           Field("next_safe_action", Str(next)), Field("capsule_digest", Str(digest))])
    case EnvironmentPinned(values) => Obj([Field("values", Dict(values))])
    case DependencyDeclared(component, requirements) =>
      Obj([Field("component", Str(component)), Field("requires", Strings(requirements))])
  }

  function DecisionJson(d: Decision): Json {
    Obj([Field("decision_id", Str(d.decisionId)), Field("text", Str(d.text))])
  }

  function Decisions(ds: seq<Decision>): Json {
    Arr(seq(|ds|, i requires 0 <= i < |ds| => DecisionJson(ds[i])))
  }

  /** `dataclasses.asdict` of a semantic state: what a checkpoint stores. */
  function StateJson(s: SemanticState): Json {
    Obj([Field("mission_id", Str(s.missionId)), Field("goal", Str(s.goal)), Field("total", Num(s.total)),
         Field("completed", Strings(s.completed)), Field("failed", Strings(s.failed)),
         Field("decisions", Decisions(s.decisions)), Field("findings", Strings(s.findings))])
  }

  // ---- objects with the same keys ------------------------------------------------

  ghost predicate SameNames(fs: seq<Field>, gs: seq<Field>) {
    |fs| == |gs| && forall i :: 0 <= i < |fs| ==> fs[i].name == gs[i].name
  }

  lemma HeadAndTail<T>(a: T, b: T, s: seq<T>, t: seq<T>)
    requires [a] + s == [b] + t
    ensures a == b && s == t
  {
    assert a == ([a] + s)[0] == ([b] + t)[0] == b;
    assert s == ([a] + s)[1..] && t == ([b] + t)[1..];
  }

  lemma {:induction false} InsertCancels(f: Field, g: Field, fs: seq<Field>, gs: seq<Field>)
    requires f.name == g.name && SameNames(fs, gs) && Insert(f, fs) == Insert(g, gs)
    ensures f == g && fs == gs
  {
    hide Less;
    if fs == [] || !Less(fs[0].name, f.name) {
      HeadAndTail(f, g, fs, gs);
    } else {
      HeadAndTail(fs[0], gs[0], Insert(f, fs[1..]), Insert(g, gs[1..]));
      InsertCancels(f, g, fs[1..], gs[1..]);
      assert fs == [fs[0]] + fs[1..] && gs == [gs[0]] + gs[1..];
    }
  }

  lemma {:induction false} InsertNames(f: Field, g: Field, fs: seq<Field>, gs: seq<Field>)
    requires f.name == g.name && SameNames(fs, gs)
    ensures SameNames(Insert(f, fs), Insert(g, gs))
  {
    if fs != [] && Less(fs[0].name, f.name) {
      assert fs[0].name == gs[0].name;
      InsertNames(f, g, fs[1..], gs[1..]);
    }
  }

  lemma {:induction false} SortNames(fs: seq<Field>, gs: seq<Field>)
    requires SameNames(fs, gs)
    ensures SameNames(Sort(fs), Sort(gs))
  {
    if fs != [] {
      SortNames(fs[1..], gs[1..]);
      InsertNames(fs[0], gs[0], Sort(fs[1..]), Sort(gs[1..]));
    }
  }

  lemma {:induction false} SortCancels(fs: seq<Field>, gs: seq<Field>)
    requires SameNames(fs, gs) && Sort(fs) == Sort(gs)
    ensures fs == gs
  {
    hide Insert;
    if fs != [] {
      SortNames(fs[1..], gs[1..]);
      InsertCancels(fs[0], gs[0], Sort(fs[1..]), Sort(gs[1..]));
      SortCancels(fs[1..], gs[1..]);
      assert fs == [fs[0]] + fs[1..] && gs == [gs[0]] + gs[1..];
    }
  }

  /** Two objects with the same keys agree entry by entry when they agree sorted. */
  lemma NormsAgree(fs: seq<Field>, gs: seq<Field>)
    requires SameNames(fs, gs) && Norm(Obj(fs)) == Norm(Obj(gs))
    ensures forall i :: 0 <= i < |fs| ==> Norm(fs[i].value) == Norm(gs[i].value) && Same(fs[i].value, gs[i].value)
  {
    hide Sort, Same;
    SortCancels(NormFields(fs), NormFields(gs));
    forall i | 0 <= i < |fs| ensures Norm(fs[i].value) == Norm(gs[i].value) && Same(fs[i].value, gs[i].value) {
      assert NormFields(fs)[i] == NormFields(gs)[i];
      NormSound(fs[i].value, gs[i].value);
    }
  }

  /** The same, for objects with one canonical text. */
  lemma FieldsAgree(fs: seq<Field>, gs: seq<Field>)
    requires SameNames(fs, gs) && Canonical(Obj(fs)) == Canonical(Obj(gs))
    ensures forall i :: 0 <= i < |fs| ==> Norm(fs[i].value) == Norm(gs[i].value) && Same(fs[i].value, gs[i].value)
  {
    hide Canonical, Sort, Same;
    CanonicalInjective(Obj(fs), Obj(gs));
    NormsAgree(fs, gs);
  }
}
