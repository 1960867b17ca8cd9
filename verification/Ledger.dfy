/** The idempotency ledger of `ledger.py` and its caps in `budgets.py`, as transactions on a mission's rows. */
module Ledger {
  import opened Prelude
  import opened Json
  import opened Models
  import opened Rows

  // ---- budgets ------------------------------------------------------------------------

  /** Caps per kind; a kind that is not a key is unlimited. */
  datatype RetryBudget = RetryBudget(limits: map<string, int>, kindTotals: map<string, int>) {

    /** `check` returns without raising BudgetExceeded. */
    predicate Allows(kind: string, attempts: int, distinctActions: int) {
      && (kind in limits ==> attempts < limits[kind])
      && (kind in kindTotals ==> distinctActions < kindTotals[kind])
    }
  }

  datatype ActionClaim = ActionClaim(key: string, isFresh: bool, externalId: Option<string>, result: Option<Json>,
    status: ActionStatus)

  // ---- keys ---------------------------------------------------------------------------

  function KeyFields(kind: string, args: Json): seq<Field> {
    [Field("kind", Str(kind)), Field("args", args)]
  }

  function KeyText(kind: string, args: Json): string {
    Canonical(Obj(KeyFields(kind, args)))
  }

  /** `_key`. */
  function ActionKey(h: Hash, kind: string, args: Json): string {
    h(KeyText(kind, args))
  }

  lemma KeyTextInjective(kind: string, args: Json, kind': string, args': Json)
    requires KeyText(kind, args) == KeyText(kind', args')
    ensures kind == kind' && Same(args, args')
  {
    var fs, gs := KeyFields(kind, args), KeyFields(kind', args');
    assert SameNames(fs, gs) && Canonical(Obj(fs)) == Canonical(Obj(gs)) by { hide Canonical; }
    hide Canonical, Same;
    FieldsAgree(fs, gs);
    assert Norm(fs[0].value) == Norm(gs[0].value) && Same(fs[1].value, gs[1].value);
  }

  lemma KeyTextComplete(kind: string, args: Json, args': Json)
    requires IsJson(args) && IsJson(args') && Same(args, args')
    ensures KeyText(kind, args) == KeyText(kind, args')
  {
    NormComplete(args, args');
    assert NormFields(KeyFields(kind, args)) == NormFields(KeyFields(kind, args'));
    hide Write, Sort;
  }

  /** Two actions share a key iff they are the same action, or their texts collide. */
  lemma KeyExact(h: Hash, kind: string, args: Json, kind': string, args': Json)
    requires IsJson(args) && IsJson(args')
    ensures ActionKey(h, kind, args) == ActionKey(h, kind', args')
      <==> (kind == kind' && Same(args, args'))
           || (KeyText(kind, args) != KeyText(kind', args') && h(KeyText(kind, args)) == h(KeyText(kind', args')))
  {
    hide KeyText, Same;
    if KeyText(kind, args) == KeyText(kind', args') { KeyTextInjective(kind, args, kind', args'); }
    if kind == kind' && Same(args, args') { KeyTextComplete(kind, args, args'); }
  }

  // ---- rows -----------------------------------------------------------------------------

  /** The place of the row with that key, or the number of rows. */
  function IndexOf(t: seq<ActionRow>, key: string): (i: nat)
    ensures i <= |t| && (i < |t| ==> t[i].key == key) && forall j :: 0 <= j < i ==> t[j].key != key
  {
    if t == [] || t[0].key == key then 0 else 1 + IndexOf(t[1..], key)
  }

  function OfKind(t: seq<ActionRow>, kind: string): nat {
    if t == [] then 0 else (if t[0].kind == kind then 1 else 0) + OfKind(t[1..], kind)
  }

  /** `uncertain_details`: the started rows, in rowid order. */
  function Uncertain(t: seq<ActionRow>): seq<ActionRow> {
    if t == [] then [] else (if t[0].status.Started? then [t[0]] else []) + Uncertain(t[1..])
  }

  function ClaimOf(row: ActionRow): ActionClaim {
    ActionClaim(row.key, false, row.externalId, row.result, row.status)
  }

  function Find(h: Hash, r: MissionRows, kind: string, args: Json): Option<ActionClaim> {
    var i := IndexOf(r.actions, ActionKey(h, kind, args));
    if i < |r.actions| then Some(ClaimOf(r.actions[i])) else None
  }

  function Attempts(t: seq<ActionRow>, key: string): int {
    var i := IndexOf(t, key);
    if i < |t| then t[i].attempts else 0
  }

  /** The upsert of `claim`: a new row, or the old one started once more. */
  function Claimed(t: seq<ActionRow>, key: string, kind: string, args: Json): seq<ActionRow> {
    var i := IndexOf(t, key);
    if i < |t| then t[i := t[i].(status := Started, externalId := None, result := None, attempts := t[i].attempts + 1)]
    else t + [ActionRow(key, kind, args, Started, None, None, 1)]
  }

  predicate MayClaim(budget: RetryBudget, t: seq<ActionRow>, key: string, kind: string) {
    var i := IndexOf(t, key);
    budget.Allows(kind, Attempts(t, key), OfKind(t, kind) - if i < |t| then 1 else 0)
  }

  function Claim(h: Hash, budget: RetryBudget, mid: string, r: MissionRows, kind: string, args: Json, now: string)
    : (t: Txn<ActionClaim>)
    ensures t.outcome.Raised? ==> t.rows == r
    ensures t.outcome.Ok? ==> t.outcome.value.key == ActionKey(h, kind, args)
    ensures t.outcome.Ok? ==> (t.outcome.value.isFresh <==> t.rows.events != r.events)
  {
    var key := ActionKey(h, kind, args);
    var i := IndexOf(r.actions, key);
    if i < |r.actions| && r.actions[i].status.Completed? then Txn(r, Ok(ClaimOf(r.actions[i])))
    else if i < |r.actions| && r.actions[i].status.Started? then Txn(r, Raised(UncertainAction))
    else if !MayClaim(budget, r.actions, key, kind) then Txn(r, Raised(BudgetExceeded))
    else
      Txn(Recorded(h, mid, r.(actions := Claimed(r.actions, key, kind, args)),
                   ActionStarted(key, kind, args, Attempts(r.actions, key) + 1), Deterministic, now),
          Ok(ActionClaim(key, true, None, None, Started)))
  }

  /** `result or {}`. */
  function OrEmpty(result: Option<Json>): Json {
    match result
    case None => Obj([])
    case Some(j) => j
  }

  /** `UPDATE actions ... WHERE status='started'`. */
  function Settled(t: seq<ActionRow>, key: string, status: ActionStatus, externalId: Option<string>, result: Json)
    : seq<ActionRow>
  {
    var i := IndexOf(t, key);
    if i < |t| && t[i].status.Started?
    then t[i := t[i].(status := status, externalId := externalId, result := Some(result))]
    else t
  }

  predicate IsStarted(t: seq<ActionRow>, key: string) {
    var i := IndexOf(t, key);
    i < |t| && t[i].status.Started?
  }

  function Complete(h: Hash, mid: string, r: MissionRows, key: string, eid: Option<string>, result: Option<Json>,
                    now: string)
    : (t: Txn<()>)
    ensures t.outcome.Ok? <==> IsStarted(r.actions, key)
    ensures t.outcome.Raised? ==> t.rows == r
  {
    if !IsStarted(r.actions, key) then Txn(r, Raised(KeyError))
    else
      Txn(Recorded(h, mid, r.(actions := Settled(r.actions, key, Completed, eid, OrEmpty(result))),
                   ActionCompleted(key, eid, OrEmpty(result)), Deterministic, now), Ok(()))
  }

  function Verdict(occurred: bool): ActionStatus {
    if occurred then Completed else NotOccurred
  }

  function Reconcile(h: Hash, mid: string, r: MissionRows, key: string, occurred: bool, eid: Option<string>,
                     result: Option<Json>, now: string)
    : (t: Txn<()>)
    ensures t.outcome.Ok? <==> IsStarted(r.actions, key)
    ensures t.outcome.Raised? ==> t.rows == r
  {
    if !IsStarted(r.actions, key) then Txn(r, Raised(KeyError))
    else
      Txn(Recorded(h, mid, r.(actions := Settled(r.actions, key, Verdict(occurred), eid, OrEmpty(result))),
                   ActionReconciled(key, occurred, eid), Deterministic, now), Ok(()))
  }

  // ---- what each transaction does ------------------------------------------------------------

  /** Looking an action up finds nothing iff no row has its key, and otherwise what its row says. */
  lemma FindExact(h: Hash, r: MissionRows, kind: string, args: Json)
    ensures var found := Find(h, r, kind, args);
      var i := IndexOf(r.actions, ActionKey(h, kind, args));
      && (found.None? <==> forall j :: 0 <= j < |r.actions| ==> r.actions[j].key != ActionKey(h, kind, args))
      && (found.Some? ==>
            && i < |r.actions| && r.actions[i].key == ActionKey(h, kind, args) && !found.value.isFresh
            && found.value.key == r.actions[i].key && found.value.status == r.actions[i].status
            && found.value.externalId == r.actions[i].externalId && found.value.result == r.actions[i].result)
  {
    hide ActionKey;
  }

  /** The places of the rows of a kind. */
  function PlacesOfKind(t: seq<ActionRow>, kind: string): set<nat> {
    set i: nat | i < |t| && t[i].kind == kind
  }

  lemma {:induction false} OfKindCounts(t: seq<ActionRow>, kind: string)
    ensures OfKind(t, kind) == |PlacesOfKind(t, kind)|
    decreases |t|
  {
    if t != [] {
      var n := |t| - 1;
      OfKindCounts(t[..n], kind);
      hide OfKind, PlacesOfKind;
      OfKindLast(t[..n], t[n], kind);
      PlacesLast(t[..n], t[n], kind);
      assert t == t[..n] + [t[n]];
    }
  }

  lemma PlacesLast(t: seq<ActionRow>, row: ActionRow, kind: string)
    ensures |PlacesOfKind(t + [row], kind)| == |PlacesOfKind(t, kind)| + if row.kind == kind then 1 else 0
  {
    var now, before := PlacesOfKind(t + [row], kind), PlacesOfKind(t, kind);
    if row.kind == kind {
      assert now == before + {|t|};
    } else {
      assert now == before;
    }
  }

  lemma {:induction false} OfKindLast(t: seq<ActionRow>, row: ActionRow, kind: string)
    ensures OfKind(t + [row], kind) == OfKind(t, kind) + if row.kind == kind then 1 else 0
  {
    if t != [] {
      assert (t + [row])[1..] == t[1..] + [row];
      OfKindLast(t[1..], row, kind);
    }
  }

  /**
   What the budget asks of a claim: fewer attempts on the row than the kind's limit, and
   fewer other rows of the kind than its total.
   */
  ghost predicate WithinBudget(budget: RetryBudget, t: seq<ActionRow>, key: string, kind: string) {
    var i := IndexOf(t, key);
    && (kind in budget.limits ==> (if i < |t| then t[i].attempts else 0) < budget.limits[kind])
    && (kind in budget.kindTotals ==> |PlacesOfKind(t, kind)| - (if i < |t| then 1 else 0) < budget.kindTotals[kind])
  }

  lemma MayClaimExact(budget: RetryBudget, t: seq<ActionRow>, key: string, kind: string)
    ensures MayClaim(budget, t, key, kind) <==> WithinBudget(budget, t, key, kind)
  {
    OfKindCounts(t, kind);
  }

  /** Only the row at `i` differs, or one row came last. */
  ghost predicate OnlyRow(t: seq<ActionRow>, t': seq<ActionRow>, i: nat) {
    && i <= |t| && |t'| == (if i < |t| then |t| else |t| + 1)
    && forall j :: 0 <= j < |t| && j != i ==> t'[j] == t[j]
  }

  /** A claim is granted iff its action is new or known not to have occurred, and the budget allows it. */
  predicate Claimable(budget: RetryBudget, t: seq<ActionRow>, key: string, kind: string) {
    var i := IndexOf(t, key);
    (i == |t| || t[i].status.NotOccurred?) && MayClaim(budget, t, key, kind)
  }

  /** The rows and the log after a granted claim. */
  ghost predicate ClaimGranted(h: Hash, mid: string, r: MissionRows, r': MissionRows, kind: string, args: Json,
                               now: string) {
    var key := ActionKey(h, kind, args);
    var t, t', i := r.actions, r'.actions, IndexOf(r.actions, key);
    && OneMore(mid, r, r', ActionStarted(key, kind, args, Attempts(t, key) + 1), Deterministic, now)
    && Beside(r').(actions := t) == Beside(r)
    && OnlyRow(t, t', i)
    && t'[i].key == key && t'[i].status.Started? && t'[i].attempts == Attempts(t, key) + 1
    && t'[i].externalId == None && t'[i].result == None
    && t'[i].kind == (if i < |t| then t[i].kind else kind) && t'[i].args == if i < |t| then t[i].args else args
  }

  /** The four ways a claim can end, each exactly when. */
  lemma ClaimExact(h: Hash, budget: RetryBudget, mid: string, r: MissionRows, kind: string, args: Json, now: string)
    ensures var c := Claim(h, budget, mid, r, kind, args, now);
      var key := ActionKey(h, kind, args);
      var i := IndexOf(r.actions, key);
      && (c.outcome.Ok? && c.outcome.value.isFresh <==> Claimable(budget, r.actions, key, kind))
      && (Claimable(budget, r.actions, key, kind) <==>
            (i == |r.actions| || r.actions[i].status.NotOccurred?) && WithinBudget(budget, r.actions, key, kind))
      && (c.outcome.Ok? && !c.outcome.value.isFresh <==> i < |r.actions| && r.actions[i].status.Completed?)
      && (c.outcome == Raised(UncertainAction) <==> i < |r.actions| && r.actions[i].status.Started?)
      && (c.outcome == Raised(BudgetExceeded) <==>
            (i == |r.actions| || r.actions[i].status.NotOccurred?) && !WithinBudget(budget, r.actions, key, kind))
      && (c.outcome.Ok? && c.outcome.value.isFresh ==>
            && c.outcome.value == ActionClaim(key, true, None, None, Started)
            && ClaimGranted(h, mid, r, c.rows, kind, args, now))
      && (c.outcome.Ok? && !c.outcome.value.isFresh ==>
            && c.rows == r && c.outcome.value.key == key && c.outcome.value.status == Completed
            && c.outcome.value.externalId == r.actions[i].externalId && c.outcome.value.result == r.actions[i].result)
  {
    hide ActionKey, MayClaim, Recorded, WithinBudget;
    var key := ActionKey(h, kind, args);
    MayClaimExact(budget, r.actions, key, kind);
    RecordedAdds(h, mid, r.(actions := Claimed(r.actions, key, kind, args)),
                 ActionStarted(key, kind, args, Attempts(r.actions, key) + 1), Deterministic, now);
  }

  /** One row was settled, and the log says how. */
  ghost predicate RowSettled(mid: string, r: MissionRows, r': MissionRows, key: string, status: ActionStatus,
                             eid: Option<string>, result: Json,
                             f: Fact, now: string) {
    var t, t', i := r.actions, r'.actions, IndexOf(r.actions, key);
    && OneMore(mid, r, r', f, Deterministic, now) && Beside(r').(actions := t) == Beside(r)
    && i < |t| && OnlyRow(t, t', i)
    && t'[i].key == key && t'[i].kind == t[i].kind && t'[i].args == t[i].args && t'[i].attempts == t[i].attempts
    && t'[i].status == status && t'[i].externalId == eid && t'[i].result == Some(result)
  }

  /** A completion works iff the row is started, and settles it. */
  lemma CompleteExact(h: Hash, mid: string, r: MissionRows, key: string, eid: Option<string>, result: Option<Json>,
                      now: string)
    ensures var c := Complete(h, mid, r, key, eid, result, now);
      var recorded := if result.None? then Obj([]) else result.value;
      && (if IsStarted(r.actions, key) then c.outcome == Ok(()) else c.outcome == Raised(KeyError) && c.rows == r)
      && (c.outcome.Ok? ==>
            RowSettled(mid, r, c.rows, key, Completed, eid, recorded, ActionCompleted(key, eid, recorded), now))
  {
    hide Recorded;
    RecordedAdds(h, mid, r.(actions := Settled(r.actions, key, Completed, eid, OrEmpty(result))),
                 ActionCompleted(key, eid, OrEmpty(result)), Deterministic, now);
  }

  /** A reconciliation works iff the row is started, and settles it by what was found. */
  lemma ReconcileExact(h: Hash, mid: string, r: MissionRows, key: string, occurred: bool, eid: Option<string>,
                       result: Option<Json>,
                       now: string)
    ensures var c := Reconcile(h, mid, r, key, occurred, eid, result, now);
      var recorded := if result.None? then Obj([]) else result.value;
      && (if IsStarted(r.actions, key) then c.outcome == Ok(()) else c.outcome == Raised(KeyError) && c.rows == r)
      && (c.outcome.Ok? ==>
            RowSettled(mid, r, c.rows, key, if occurred then Completed else NotOccurred, eid, recorded,
                       ActionReconciled(key, occurred, eid), now))
  {
    hide Recorded;
    RecordedAdds(h, mid, r.(actions := Settled(r.actions, key, Verdict(occurred), eid, OrEmpty(result))),
                 ActionReconciled(key, occurred, eid), Deterministic, now);
  }

  // ---- keys are unique ---------------------------------------------------------------------

  ghost predicate UniqueKeys(t: seq<ActionRow>) {
    forall i, j :: 0 <= i < j < |t| ==> t[i].key != t[j].key
  }

  lemma IndexIs(t: seq<ActionRow>, i: nat)
    requires UniqueKeys(t) && i < |t|
    ensures IndexOf(t, t[i].key) == i
  {
  }

  lemma {:induction false} UncertainExact(t: seq<ActionRow>)
    ensures forall row :: row in Uncertain(t) <==> row in t && row.status.Started?
  {
    if t != [] {
      UncertainExact(t[1..]);
      assert t == [t[0]] + t[1..];
    }
  }

  /** The rowids of the started rows, when the first row's is `first`. */
  function StartedIds(t: seq<ActionRow>, first: nat): seq<nat> {
    if t == [] then [] else (if t[0].status.Started? then [first] else []) + StartedIds(t[1..], first + 1)
  }

  lemma {:induction false} StartedIdsPlaces(t: seq<ActionRow>, first: nat)
    ensures var ids := StartedIds(t, first);
      && |ids| == |Uncertain(t)|
      && (forall k :: 0 <= k < |ids| ==> first <= ids[k] < first + |t| && t[ids[k] - first] == Uncertain(t)[k])
      && (forall k, l :: 0 <= k < l < |ids| ==> ids[k] < ids[l])
  {
    if t != [] {
      StartedIdsPlaces(t[1..], first + 1);
      assert StartedIds(t, first) == (if t[0].status.Started? then [first] else []) + StartedIds(t[1..], first + 1);
    }
  }

  lemma {:induction false} StartedIdsHave(t: seq<ActionRow>, first: nat, i: nat)
    requires i < |t|
    ensures first + i in StartedIds(t, first) <==> t[i].status.Started?
  {
    var rest := StartedIds(t[1..], first + 1);
    assert StartedIds(t, first) == (if t[0].status.Started? then [first] else []) + rest;
    if i > 0 {
      StartedIdsHave(t[1..], first + 1, i - 1);
    } else {
      StartedIdsPlaces(t[1..], first + 1);
      assert first !in rest;
    }
  }

  /** The uncertain details are exactly the started rows, each once, in rowid order. */
  lemma UncertainInOrder(t: seq<ActionRow>)
    ensures var ids := StartedIds(t, 0);
      && |ids| == |Uncertain(t)|
      && (forall k :: 0 <= k < |ids| ==> ids[k] < |t| && Uncertain(t)[k] == t[ids[k]])
      && (forall i: nat :: i < |t| ==> (i in ids <==> t[i].status.Started?))
      && (forall k, l :: 0 <= k < l < |ids| ==> ids[k] < ids[l])
  {
    hide Uncertain, StartedIds;
    StartedIdsPlaces(t, 0);
    forall i: nat | i < |t| ensures i in StartedIds(t, 0) <==> t[i].status.Started? { StartedIdsHave(t, 0, i); }
  }
}
