/** What the caps of a retry budget guarantee over whole runs. */
module BudgetRuns {
  import opened Prelude
  import opened Json
  import opened Models
  import opened Chain
  import opened Projection
  import opened Rows
  import opened Ledger
  import opened Recovery
  import opened Closing
  import opened Runs
  import opened ReplayedLedger

  ghost predicate ClaimIn(h: Hash, ops: seq<Op>, key: string, kind: string) {
    exists i :: 0 <= i < |ops| && ops[i].ClaimAction? && ActionKey(h, ops[i].kind, ops[i].args) == key
      && ops[i].kind == kind
  }

  /** The claims of the run show no collision between actions of different kinds. */
  ghost predicate KindsDistinct(h: Hash, ops: seq<Op>) {
    forall key, a, b :: ClaimIn(h, ops, key, a) && ClaimIn(h, ops, key, b) ==> a == b
  }

  /** Two claims of the run have different key texts with one digest. */
  ghost predicate KeysCollide(h: Hash, ops: seq<Op>) {
    exists i, j :: 0 <= i < |ops| && 0 <= j < |ops| && ops[i].ClaimAction? && ops[j].ClaimAction?
      && KeyText(ops[i].kind, ops[i].args) != KeyText(ops[j].kind, ops[j].args)
      && ActionKey(h, ops[i].kind, ops[i].args) == ActionKey(h, ops[j].kind, ops[j].args)
  }

  lemma CollideOrDistinct(h: Hash, ops: seq<Op>)
    ensures KeysCollide(h, ops) || KindsDistinct(h, ops)
  {
    hide ActionKey, KeyText;
    if !KeysCollide(h, ops) {
      forall key, a, b | ClaimIn(h, ops, key, a) && ClaimIn(h, ops, key, b) ensures a == b {
        var i :| 0 <= i < |ops| && ops[i].ClaimAction? && ActionKey(h, ops[i].kind, ops[i].args) == key
          && ops[i].kind == a;
        var j :| 0 <= j < |ops| && ops[j].ClaimAction? && ActionKey(h, ops[j].kind, ops[j].args) == key
          && ops[j].kind == b;
        KeyTextInjective(ops[i].kind, ops[i].args, ops[j].kind, ops[j].args);
      }
    }
  }

  /** Every claim of the run goes through the one budget. */
  ghost predicate OneBudget(b: RetryBudget, ops: seq<Op>) {
    forall i :: 0 <= i < |ops| && ops[i].ClaimAction? ==> ops[i].budget == b
  }

  function StartsOfKind(es: seq<Event>, kind: string): nat {
    if es == [] then 0
    else
      var f := es[|es| - 1].fact;
      StartsOfKind(es[..|es| - 1], kind) + if f.ActionStarted? && f.kind == kind then 1 else 0
  }

  function AttemptsOfKind(t: seq<ActionRow>, kind: string): int {
    if t == [] then 0 else (if t[0].kind == kind then t[0].attempts else 0) + AttemptsOfKind(t[1..], kind)
  }

  ghost predicate WithinRows(b: RetryBudget, t: seq<ActionRow>) {
    forall i :: 0 <= i < |t| && t[i].kind in b.limits ==> t[i].attempts <= b.limits[t[i].kind]
  }

  ghost predicate WithinTotals(b: RetryBudget, t: seq<ActionRow>) {
    forall kind :: kind in b.kindTotals ==> OfKind(t, kind) <= if b.kindTotals[kind] < 0 then 0 else b.kindTotals[kind]
  }

  ghost predicate StartsCounted(es: seq<Event>, t: seq<ActionRow>) {
    forall kind :: StartsOfKind(es, kind) == AttemptsOfKind(t, kind)
  }

  ghost predicate Budgeted(h: Hash, b: RetryBudget, r: MissionRows, ops: seq<Op>) {
    && UniqueKeys(r.actions) && WithinRows(b, r.actions) && WithinTotals(b, r.actions)
    && StartsCounted(r.events, r.actions)
    && forall i :: 0 <= i < |r.actions| ==> ClaimIn(h, ops, r.actions[i].key, r.actions[i].kind)
  }

  lemma {:induction false} RowRewrite(t: seq<ActionRow>, i: nat, row: ActionRow, kind: string)
    requires i < |t| && row.kind == t[i].kind
    ensures OfKind(t[i := row], kind) == OfKind(t, kind)
    ensures AttemptsOfKind(t[i := row], kind) == AttemptsOfKind(t, kind)
              + if row.kind == kind then row.attempts - t[i].attempts else 0
  {
    if i == 0 {
      assert t[i := row][1..] == t[1..];
    } else {
      assert t[i := row][1..] == t[1..][i - 1 := row];
      RowRewrite(t[1..], i - 1, row, kind);
    }
  }

  lemma {:induction false} RowAppend(t: seq<ActionRow>, row: ActionRow, kind: string)
    ensures OfKind(t + [row], kind) == OfKind(t, kind) + if row.kind == kind then 1 else 0
    ensures AttemptsOfKind(t + [row], kind) == AttemptsOfKind(t, kind) + if row.kind == kind then row.attempts else 0
  {
    if t == [] {
      assert (t + [row])[1..] == [];
    } else {
      assert (t + [row])[1..] == t[1..] + [row];
      RowAppend(t[1..], row, kind);
    }
  }

  lemma {:induction false} RowCounts(t: seq<ActionRow>, i: nat)
    requires i < |t|
    ensures OfKind(t, t[i].kind) >= 1
  {
    if i > 0 { RowCounts(t[1..], i - 1); }
  }

  lemma StartsStep(es: seq<Event>, e: Event, kind: string)
    ensures StartsOfKind(es + [e], kind) == StartsOfKind(es, kind)
              + if e.fact.ActionStarted? && e.fact.kind == kind then 1 else 0
  {
    assert (es + [e])[..|es|] == es;
  }

  lemma MoreClaims(h: Hash, ops: seq<Op>, op: Op, key: string, kind: string)
    requires ClaimIn(h, ops, key, kind)
    ensures ClaimIn(h, ops + [op], key, kind)
  {
    hide ActionKey;
    var i :| 0 <= i < |ops| && ops[i].ClaimAction? && ActionKey(h, ops[i].kind, ops[i].args) == key
      && ops[i].kind == kind;
    assert (ops + [op])[i] == ops[i];
  }

  /** The row an upsert finds is of the claimed kind. */
  lemma RowKindAgrees(h: Hash, r: MissionRows, ops: seq<Op>, op: Op, i: nat)
    requires i < |r.actions| && op.ClaimAction? && KindsDistinct(h, ops + [op])
    requires ClaimIn(h, ops, r.actions[i].key, r.actions[i].kind) && r.actions[i].key == ActionKey(h, op.kind, op.args)
    ensures r.actions[i].kind == op.kind
  {
    hide ActionKey;
    MoreClaims(h, ops, op, r.actions[i].key, r.actions[i].kind);
    assert (ops + [op])[|ops|] == op;
    assert ClaimIn(h, ops + [op], r.actions[i].key, op.kind);
  }

  /** What a granted upsert does to the counts. */
  lemma ClaimCounts(b: RetryBudget, t: seq<ActionRow>, key: string, kind: string, args: Json)
    requires UniqueKeys(t) && WithinRows(b, t) && WithinTotals(b, t) && MayClaim(b, t, key, kind)
    requires IndexOf(t, key) < |t| ==> t[IndexOf(t, key)].kind == kind
    ensures var t' := Claimed(t, key, kind, args);
      && UniqueKeys(t') && WithinRows(b, t') && WithinTotals(b, t')
      && forall k :: AttemptsOfKind(t', k) == AttemptsOfKind(t, k) + if k == kind then 1 else 0
  {
    var t', i := Claimed(t, key, kind, args), IndexOf(t, key);
    forall k ensures AttemptsOfKind(t', k) == AttemptsOfKind(t, k) + (if k == kind then 1 else 0)
                     && OfKind(t', k) == OfKind(t, k) + if k == kind && i == |t| then 1 else 0
    {
      if i < |t| { RowRewrite(t, i, t'[i], k); } else { RowAppend(t, t'[|t|], k); }
    }
  }

  /** A granted claim: the upsert keeps the caps and adds one start of its kind. */
  lemma ClaimKeeps(h: Hash, b: RetryBudget, r: MissionRows, ops: seq<Op>, op: Op, e: Event)
    requires Budgeted(h, b, r, ops) && op.ClaimAction? && op.budget == b && KindsDistinct(h, ops + [op])
    requires e.fact.ActionStarted? && e.fact.kind == op.kind
    requires MayClaim(b, r.actions, ActionKey(h, op.kind, op.args), op.kind)
    ensures var t := Claimed(r.actions, ActionKey(h, op.kind, op.args), op.kind, op.args);
      Budgeted(h, b, r.(actions := t, events := r.events + [e]), ops + [op])
  {
    var key := ActionKey(h, op.kind, op.args);
    var t, i := r.actions, IndexOf(r.actions, key);
    var t' := Claimed(t, key, op.kind, op.args);
    assert (ops + [op])[|ops|] == op;
    assert ClaimIn(h, ops + [op], key, op.kind);
    if i < |t| { RowKindAgrees(h, r, ops, op, i); }
    hide ActionKey, MayClaim, WithinRows, WithinTotals, UniqueKeys, KindsDistinct;
    forall j | 0 <= j < |t'| ensures ClaimIn(h, ops + [op], t'[j].key, t'[j].kind) {
      if j < |t| { MoreClaims(h, ops, op, t[j].key, t[j].kind); }
    }
    hide ClaimIn, Claimed;
    ClaimCounts(b, t, key, op.kind, op.args);
    forall kind ensures StartsOfKind(r.events + [e], kind) == AttemptsOfKind(t', kind) {
      StartsStep(r.events, e, kind);
    }
  }

  /** Settling a row keeps the caps. */
  lemma SettleKeeps(h: Hash, b: RetryBudget, r: MissionRows, ops: seq<Op>, op: Op, e: Event,
                    key: string, status: ActionStatus, eid: Option<string>, result: Json)
    requires Budgeted(h, b, r, ops) && !e.fact.ActionStarted?
    ensures Budgeted(h, b, r.(actions := Settled(r.actions, key, status, eid, result), events := r.events + [e]),
      ops + [op])
  {
    var t := r.actions;
    var t' := Settled(t, key, status, eid, result);
    forall j | 0 <= j < |t'| ensures ClaimIn(h, ops + [op], t'[j].key, t'[j].kind) {
      MoreClaims(h, ops, op, t[j].key, t[j].kind);
    }
    hide ClaimIn;
    var i := IndexOf(t, key);
    forall kind ensures StartsOfKind(r.events + [e], kind) == AttemptsOfKind(t', kind)
                        && OfKind(t', kind) == OfKind(t, kind)
    {
      StartsStep(r.events, e, kind);
      if i < |t| && t[i].status.Started? { RowRewrite(t, i, t'[i], kind); }
    }
  }

  lemma OthersKeep(h: Hash, b: RetryBudget, r: MissionRows, r': MissionRows, ops: seq<Op>, op: Op)
    requires Budgeted(h, b, r, ops) && r'.actions == r.actions
    requires r'.events == r.events || (|r'.events| == |r.events| + 1 && r.events <= r'.events
      && !r'.events[|r.events|].fact.ActionStarted?)
    ensures Budgeted(h, b, r', ops + [op])
  {
    forall j | 0 <= j < |r.actions| ensures ClaimIn(h, ops + [op], r.actions[j].key, r.actions[j].kind) {
      MoreClaims(h, ops, op, r.actions[j].key, r.actions[j].kind);
    }
    if r'.events != r.events {
      var e := r'.events[|r.events|];
      assert r'.events == r.events + [e];
      forall kind ensures StartsOfKind(r'.events, kind) == AttemptsOfKind(r'.actions, kind) {
        StartsStep(r.events, e, kind);
      }
    }
  }

  /** How a ledger step rewrites the table. */
  lemma LedgerTable(h: Hash, mid: string, s: Sys, op: Op)
    requires EventOf(h, mid, s, op).Some?
    ensures var t := Apply(h, mid, s, op).rows.actions;
      match op
      case ClaimAction(budget, kind, args, _) =>
        var key := ActionKey(h, kind, args);
        && t == Claimed(s.rows.actions, key, kind, args) && MayClaim(budget, s.rows.actions, key, kind)
        && EventOf(h, mid, s, op).value.fact.ActionStarted? && EventOf(h, mid, s, op).value.fact.kind == kind
      case CompleteAction(key, eid, result, _) =>
        t == Settled(s.rows.actions, key, Completed, eid, OrEmpty(result))
          && EventOf(h, mid, s, op).value.fact.ActionCompleted?
      case ReconcileAction(key, occurred, eid, result, _) =>
        t == Settled(s.rows.actions, key, Verdict(occurred), eid, OrEmpty(result))
          && EventOf(h, mid, s, op).value.fact.ActionReconciled?
      case _ => true
  {
    hide NewEvent, Claimed, Settled, MayClaim, ActionKey, Attempts, Report, ModeOf, ApprovalDigest, Fits,
      IsMissionId, HasStart;
  }

  lemma ApplyBudgeted(h: Hash, mid: string, b: RetryBudget, s: Sys, ops: seq<Op>, op: Op)
    requires Live(h, mid, s) && Budgeted(h, b, s.rows, ops)
    requires KindsDistinct(h, ops + [op]) && OneBudget(b, ops + [op])
    ensures Budgeted(h, b, Apply(h, mid, s, op).rows, ops + [op])
  {
    hide Live, Budgeted, Apply, EventOf, KindsDistinct, Claimed, Settled, ActionKey, MayClaim;
    ApplyGrows(h, mid, s, op);
    var s' := Apply(h, mid, s, op);
    assert (ops + [op])[|ops|] == op;
    if EventOf(h, mid, s, op) == None {
      QuietStep(h, mid, s, op);
      OthersKeep(h, b, s.rows, s'.rows, ops, op);
    } else {
      var e := s'.rows.events[|s.rows.events|];
      LedgerTable(h, mid, s, op);
      match op
      case ClaimAction(_, _, _, _) =>
        ClaimKeeps(h, b, s.rows, ops, op, e);
        OnlyLogAndTable(h, b, s.rows.(actions := s'.rows.actions, events := s'.rows.events), s'.rows, ops + [op]);
      case CompleteAction(key, eid, result, _) =>
        SettleKeeps(h, b, s.rows, ops, op, e, key, Completed, eid, OrEmpty(result));
        OnlyLogAndTable(h, b, s.rows.(actions := s'.rows.actions, events := s'.rows.events), s'.rows, ops + [op]);
      case ReconcileAction(key, occurred, eid, result, _) =>
        SettleKeeps(h, b, s.rows, ops, op, e, key, Verdict(occurred), eid, OrEmpty(result));
        OnlyLogAndTable(h, b, s.rows.(actions := s'.rows.actions, events := s'.rows.events), s'.rows, ops + [op]);
      case _ =>
        OtherStepsLeaveActions(h, mid, s, op);
        OthersKeep(h, b, s.rows, s'.rows, ops, op);
    }
  }

  lemma OnlyLogAndTable(h: Hash, b: RetryBudget, r: MissionRows, r': MissionRows, ops: seq<Op>)
    requires Budgeted(h, b, r, ops) && r'.actions == r.actions && r'.events == r.events
    ensures Budgeted(h, b, r', ops)
  {
  }

  lemma {:induction false} RunBudgeted(h: Hash, mid: string, b: RetryBudget, ops: seq<Op>)
    requires KindsDistinct(h, ops) && OneBudget(b, ops)
    ensures Budgeted(h, b, Exec(h, mid, START, ops).rows, ops)
    decreases |ops|
  {
    hide Apply, Live;
    if ops != [] {
      var n := |ops| - 1;
      var before, op := ops[..n], ops[n];
      assert ops == before + [op];
      assert KindsDistinct(h, before) by {
        forall key, kind | ClaimIn(h, before, key, kind) ensures ClaimIn(h, ops, key, kind) {
          MoreClaims(h, before, op, key, kind);
        }
      }
      hide KindsDistinct, Budgeted;
      RunBudgeted(h, mid, b, before);
      ExecAppend(h, mid, START, before, [op]);
      var s := Exec(h, mid, START, before);
      assert Exec(h, mid, s, [op]) == Apply(h, mid, s, op);
      StartLive(h, mid);
      ExecLive(h, mid, START, before);
      ApplyBudgeted(h, mid, b, s, before, op);
    }
  }

  lemma {:induction false} AttemptsBounded(b: RetryBudget, t: seq<ActionRow>, kind: string)
    requires WithinRows(b, t) && kind in b.limits
    ensures AttemptsOfKind(t, kind) <= b.limits[kind] * OfKind(t, kind)
  {
    if t != [] {
      assert WithinRows(b, t[1..]) by {
        forall i | 0 <= i < |t[1..]| && t[1..][i].kind in b.limits
          ensures t[1..][i].attempts <= b.limits[t[1..][i].kind]
        {
          assert t[1..][i] == t[i + 1];
        }
      }
      AttemptsBounded(b, t[1..], kind);
    }
  }

  /** The caps a budget names, as they show in the table and in the log. */
  ghost predicate WithinCaps(b: RetryBudget, r: MissionRows) {
    && (forall row :: row in r.actions && row.kind in b.limits ==> row.attempts <= b.limits[row.kind])
    && (forall kind :: kind in b.kindTotals && b.kindTotals[kind] >= 0 ==>
      OfKind(r.actions, kind) <= b.kindTotals[kind])
    && (forall kind :: kind in b.limits && kind in b.kindTotals && b.limits[kind] >= 0 && b.kindTotals[kind] >= 0 ==>
          StartsOfKind(r.events, kind) <= b.limits[kind] * b.kindTotals[kind])
  }

  /**
   If every claim of a run goes through one budget then, unless two claims show a
   digest collision, each action's attempts stay within its kind's limit, the rows
   of a kind within its total, and the ACTION_STARTED events of a kind within their
   product.
   */
  lemma CapsHold(h: Hash, mid: string, b: RetryBudget, ops: seq<Op>)
    requires OneBudget(b, ops)
    ensures KeysCollide(h, ops) || WithinCaps(b, Exec(h, mid, START, ops).rows)
  {
    hide Apply, KeysCollide, KindsDistinct;
    CollideOrDistinct(h, ops);
    if KindsDistinct(h, ops) {
      RunBudgeted(h, mid, b, ops);
      BudgetedWithinCaps(h, b, Exec(h, mid, START, ops).rows, ops);
    }
  }

  lemma BudgetedWithinCaps(h: Hash, b: RetryBudget, r: MissionRows, ops: seq<Op>)
    requires Budgeted(h, b, r, ops)
    ensures WithinCaps(b, r)
  {
    forall kind | kind in b.limits && kind in b.kindTotals && b.limits[kind] >= 0 && b.kindTotals[kind] >= 0
      ensures StartsOfKind(r.events, kind) <= b.limits[kind] * b.kindTotals[kind]
    {
      AttemptsBounded(b, r.actions, kind);
      assert StartsOfKind(r.events, kind) == AttemptsOfKind(r.actions, kind);
      Product(b.limits[kind], OfKind(r.actions, kind), b.kindTotals[kind]);
    }
  }

  lemma Product(a: int, x: int, y: int)
    requires a >= 0 && x <= y
    ensures a * x <= a * y
  {
  }

  /**
   A row the ledger may retry is never refused by the kind's total: only its own attempts
   count, unless keys collide.
   */
  lemma RetryNotRefusedByTotal(h: Hash, mid: string, b: RetryBudget, ops: seq<Op>, kind: string, args: Json)
    requires OneBudget(b, ops)
    ensures var t := Exec(h, mid, START, ops).rows.actions;
      var key := ActionKey(h, kind, args);
      KeysCollide(h, ops + [ClaimAction(b, kind, args, "")])
      || (IndexOf(t, key) < |t| ==> (MayClaim(b, t, key, kind) <==>
        (kind in b.limits ==> Attempts(t, key) < b.limits[kind])))
  {
    hide Apply, KeysCollide;
    var op := ClaimAction(b, kind, args, "");
    var key := ActionKey(h, kind, args);
    CollideOrDistinct(h, ops + [op]);
    if KindsDistinct(h, ops + [op]) {
      assert KindsDistinct(h, ops) by {
        forall k, x | ClaimIn(h, ops, k, x) ensures ClaimIn(h, ops + [op], k, x) { MoreClaims(h, ops, op, k, x); }
      }
      RunBudgeted(h, mid, b, ops);
      var t := Exec(h, mid, START, ops).rows.actions;
      var i := IndexOf(t, key);
      if i < |t| {
        MoreClaims(h, ops, op, t[i].key, t[i].kind);
        assert (ops + [op])[|ops|] == op;
        assert ClaimIn(h, ops + [op], key, kind);
        RowCounts(t, i);
      }
    }
  }
}
