/** In every run the `actions` table says exactly what the log's ACTION_* events say. */
module ReplayedLedger {
  import opened Prelude
  import opened Models
  import opened Chain
  import opened Projection
  import opened Rows
  import opened Ledger
  import opened Recovery
  import opened Closing
  import opened Runs

  // ---- reading one action's history off the log ----------------------------------------

  datatype Mark = Begun | Finished | FoundDone | FoundUndone

  function MarkOf(f: Fact, key: string): Option<Mark> {
    match f
    case ActionStarted(k, _, _, _) => if k == key then Some(Begun) else None
    case ActionCompleted(k, _, _) => if k == key then Some(Finished) else None
    case ActionReconciled(k, occurred, _) => if k == key then Some(if occurred then FoundDone else FoundUndone)
      else None
    case _ => None
  }

  function Marks(es: seq<Event>, key: string): seq<Mark> {
    if es == [] then []
    else
      var front := Marks(es[..|es| - 1], key);
      match MarkOf(es[|es| - 1].fact, key)
      case None => front
      case Some(m) => front + [m]
  }

  /** (begun, found undone)* (begun, (finished or found done)?)? */
  predicate Grammar(ms: seq<Mark>) {
    || ms == [] || ms == [Begun] || ms == [Begun, Finished] || ms == [Begun, FoundDone]
    || (|ms| >= 2 && ms[0] == Begun && ms[1] == FoundUndone && Grammar(ms[2..]))
  }

  function StatusAfter(m: Mark): ActionStatus {
    match m
    case Begun => Started
    case FoundUndone => NotOccurred
    case _ => Completed
  }

  function Begins(ms: seq<Mark>): nat {
    if ms == [] then 0 else Begins(ms[..|ms| - 1]) + if ms[|ms| - 1] == Begun then 1 else 0
  }

  /** The external id the latest event about the action carries; a start carries none. */
  function ExternalId(es: seq<Event>, key: string): Option<string> {
    if es == [] then None
    else
      match es[|es| - 1].fact
      case ActionStarted(k, _, _, _) => if k == key then None else ExternalId(es[..|es| - 1], key)
      case ActionCompleted(k, eid, _) => if k == key then eid else ExternalId(es[..|es| - 1], key)
      case ActionReconciled(k, _, eid) => if k == key then eid else ExternalId(es[..|es| - 1], key)
      case _ => ExternalId(es[..|es| - 1], key)
  }

  /** The keys ever started, in the order of their first starts. */
  function StartedKeys(es: seq<Event>): seq<string> {
    if es == [] then []
    else
      var front := StartedKeys(es[..|es| - 1]);
      var f := es[|es| - 1].fact;
      if f.ActionStarted? && f.key !in front then front + [f.key] else front
  }

  ghost predicate RowReplays(es: seq<Event>, row: ActionRow) {
    var ms := Marks(es, row.key);
    && ms != [] && row.status == StatusAfter(ms[|ms| - 1])
    && row.attempts == Begins(ms)
    && row.externalId == ExternalId(es, row.key)
    && exists i :: 0 <= i < |es| && es[i].fact == ActionStarted(row.key, row.kind, row.args, 1)
  }

  /** One row per started key, in order, each as its events say. */
  ghost predicate TableReplays(es: seq<Event>, t: seq<ActionRow>) {
    && |t| == |StartedKeys(es)|
    && UniqueKeys(t)
    && forall i :: 0 <= i < |t| ==> t[i].key == StartedKeys(es)[i] && RowReplays(es, t[i])
  }

  /** Each start event carries the number of its attempt. */
  ghost predicate AttemptsNumbered(es: seq<Event>) {
    forall i :: 0 <= i < |es| && es[i].fact.ActionStarted? ==>
      es[i].fact.attempt == Begins(Marks(es[..i + 1], es[i].fact.key))
  }

  ghost predicate HistoriesKept(es: seq<Event>) {
    forall key {:trigger Marks(es, key)} :: Grammar(Marks(es, key))
      && (Marks(es, key) != [] <==> key in StartedKeys(es))
  }

  ghost predicate Replays(s: Sys) {
    TableReplays(s.rows.events, s.rows.actions) && HistoriesKept(s.rows.events) && AttemptsNumbered(s.rows.events)
  }

  // ---- one event ------------------------------------------------------------------------------

  predicate LedgerFact(f: Fact) {
    f.ActionStarted? || f.ActionCompleted? || f.ActionReconciled?
  }

  lemma Snoc(es: seq<Event>, e: Event, key: string)
    ensures Marks(es + [e], key) == Marks(es, key) + match MarkOf(e.fact, key) { case None => [] case Some(m) => [m] }
    ensures StartedKeys(es + [e]) ==
      StartedKeys(es) + if e.fact.ActionStarted? && e.fact.key !in StartedKeys(es) then [e.fact.key] else []
    ensures MarkOf(e.fact, key) == None ==> ExternalId(es + [e], key) == ExternalId(es, key)
    ensures MarkOf(e.fact, key) != None ==>
              ExternalId(es + [e], key) == if e.fact.ActionStarted? then None else e.fact.externalId
  {
    assert (es + [e])[..|es|] == es;
  }

  lemma {:induction false} GrammarSnoc(ms: seq<Mark>, m: Mark)
    requires Grammar(ms)
    requires m == Begun ==> ms == [] || ms[|ms| - 1] == FoundUndone
    requires m != Begun ==> ms != [] && ms[|ms| - 1] == Begun
    ensures Grammar(ms + [m])
  {
    if |ms| >= 2 && ms[1] == FoundUndone {
      assert (ms + [m])[2..] == ms[2..] + [m];
      GrammarSnoc(ms[2..], m);
    } else {
      assert ms + [m] == [m] || ms + [m] == [Begun, m];
      assert [Begun, FoundUndone][2..] == [];
    }
  }

  lemma BeginsSnoc(ms: seq<Mark>, m: Mark)
    ensures Begins(ms + [m]) == Begins(ms) + if m == Begun then 1 else 0
  {
    assert (ms + [m])[..|ms|] == ms;
  }

  lemma RowUntouched(es: seq<Event>, e: Event, row: ActionRow)
    requires RowReplays(es, row) && MarkOf(e.fact, row.key) == None
    ensures RowReplays(es + [e], row)
  {
    Snoc(es, e, row.key);
    var i :| 0 <= i < |es| && es[i].fact == ActionStarted(row.key, row.kind, row.args, 1);
    assert (es + [e])[i] == es[i];
  }

  /** A row that its own next event rewrites. */
  lemma RowRewritten(es: seq<Event>, e: Event, row: ActionRow, row': ActionRow, m: Mark)
    requires RowReplays(es, row) && MarkOf(e.fact, row.key) == Some(m)
    requires row'.key == row.key && row'.kind == row.kind && row'.args == row.args
    requires row'.status == StatusAfter(m) && row'.attempts == row.attempts + if m == Begun then 1 else 0
    requires row'.externalId == if e.fact.ActionStarted? then None else e.fact.externalId
    ensures RowReplays(es + [e], row')
  {
    Snoc(es, e, row.key);
    BeginsSnoc(Marks(es, row.key), m);
    var i :| 0 <= i < |es| && es[i].fact == ActionStarted(row.key, row.kind, row.args, 1);
    assert (es + [e])[i] == es[i];
  }

  lemma IndexIsPlace(es: seq<Event>, t: seq<ActionRow>, key: string)
    requires TableReplays(es, t)
    ensures IndexOf(t, key) < |t| <==> key in StartedKeys(es)
  {
    var i := IndexOf(t, key);
    if i < |t| { assert StartedKeys(es)[i] == key; }
    if key in StartedKeys(es) {
      var j :| 0 <= j < |t| && StartedKeys(es)[j] == key;
      assert t[j].key == key;
    }
  }

  /** Rewriting the row of the event's own key keeps the table a replay. */
  lemma TableRewritten(es: seq<Event>, e: Event, t: seq<ActionRow>, i: nat, row': ActionRow, m: Mark)
    requires TableReplays(es, t) && i < |t| && MarkOf(e.fact, t[i].key) == Some(m)
    requires row'.key == t[i].key && row'.kind == t[i].kind && row'.args == t[i].args
    requires row'.status == StatusAfter(m) && row'.attempts == t[i].attempts + if m == Begun then 1 else 0
    requires row'.externalId == if e.fact.ActionStarted? then None else e.fact.externalId
    ensures TableReplays(es + [e], t[i := row'])
  {
    var t' := t[i := row'];
    assert t[i].key == StartedKeys(es)[i];
    Snoc(es, e, t[i].key);
    hide RowReplays, Marks, StartedKeys, ExternalId;
    forall j | 0 <= j < |t'| ensures t'[j].key == StartedKeys(es + [e])[j] && RowReplays(es + [e], t'[j]) {
      if j == i { RowRewritten(es, e, t[i], row', m); } else { RowUntouched(es, e, t[j]); }
    }
  }

  lemma TableExtended(es: seq<Event>, e: Event, t: seq<ActionRow>)
    requires TableReplays(es, t) && e.fact.ActionStarted? && e.fact.attempt == 1
    requires e.fact.key !in StartedKeys(es) && Marks(es, e.fact.key) == []
    ensures TableReplays(es + [e], t + [ActionRow(e.fact.key, e.fact.kind, e.fact.args, Started, None, None, 1)])
  {
    var row := ActionRow(e.fact.key, e.fact.kind, e.fact.args, Started, None, None, 1);
    var t' := t + [row];
    Snoc(es, e, e.fact.key);
    assert RowReplays(es + [e], row) by {
      assert (es + [e])[|es|].fact == e.fact;
      BeginsSnoc([], Begun);
    }
    hide RowReplays, Marks, ExternalId;
    forall j | 0 <= j < |t'| ensures t'[j].key == StartedKeys(es + [e])[j] && RowReplays(es + [e], t'[j]) {
      if j < |t| {
        assert t[j].key == StartedKeys(es)[j];
        RowUntouched(es, e, t[j]);
      }
    }
  }

  lemma TableUntouched(es: seq<Event>, e: Event, t: seq<ActionRow>)
    requires TableReplays(es, t) && !LedgerFact(e.fact)
    ensures TableReplays(es + [e], t)
  {
    Snoc(es, e, "");
    hide RowReplays;
    forall j | 0 <= j < |t| ensures RowReplays(es + [e], t[j]) { RowUntouched(es, e, t[j]); }
  }

  /** The event may come next in its action's history. */
  ghost predicate Allowed(es: seq<Event>, f: Fact) {
    && (f.ActionStarted? ==>
          var ms := Marks(es, f.key); (ms == [] || ms[|ms| - 1] == FoundUndone) && f.attempt == Begins(ms) + 1)
    && (f.ActionCompleted? || f.ActionReconciled? ==>
          var ms := Marks(es, f.key); ms != [] && ms[|ms| - 1] == Begun)
  }

  lemma HistoriesStep(es: seq<Event>, e: Event)
    requires HistoriesKept(es) && Allowed(es, e.fact)
    ensures HistoriesKept(es + [e])
  {
    forall key ensures Grammar(Marks(es + [e], key)) && (Marks(es + [e], key) != [] <==> key in StartedKeys(es + [e])) {
      Snoc(es, e, key);
      assert Grammar(Marks(es, key)) && (Marks(es, key) != [] <==> key in StartedKeys(es));
      match MarkOf(e.fact, key)
      case None =>
      case Some(m) => GrammarSnoc(Marks(es, key), m);
    }
  }

  lemma AttemptsStep(es: seq<Event>, e: Event)
    requires AttemptsNumbered(es) && Allowed(es, e.fact)
    ensures AttemptsNumbered(es + [e])
  {
    var all := es + [e];
    forall i | 0 <= i < |all| && all[i].fact.ActionStarted?
      ensures all[i].fact.attempt == Begins(Marks(all[..i + 1], all[i].fact.key))
    {
      if i < |es| {
        assert all[..i + 1] == es[..i + 1];
      } else {
        assert all[..i + 1] == all;
        Snoc(es, e, e.fact.key);
        BeginsSnoc(Marks(es, e.fact.key), Begun);
      }
    }
  }

  // ---- one step --------------------------------------------------------------------------------------

  lemma OtherStepsLeaveActions(h: Hash, mid: string, s: Sys, op: Op)
    requires !op.ClaimAction? && !op.CompleteAction? && !op.ReconcileAction?
    ensures Apply(h, mid, s, op).rows.actions == s.rows.actions
    ensures match EventOf(h, mid, s, op) case None => true case Some(d) => !LedgerFact(d.fact)
  {
    hide NewEvent, Report, ModeOf, ApprovalDigest, Fits, IsMissionId, CheckpointRead, CloseRead, HasStart;
  }

  /** What a ledger step that records an event does to the row of the event's key. */
  ghost predicate RowMoves(t: seq<ActionRow>, t': seq<ActionRow>, f: Fact) {
    LedgerFact(f) &&
    var i := IndexOf(t, f.key);
    var m := MarkOf(f, f.key).value;
    if i < |t| then
      && |t'| == |t| && t' == t[i := t'[i]]
      && t'[i].key == t[i].key && t'[i].kind == t[i].kind && t'[i].args == t[i].args
      && t'[i].status == StatusAfter(m) && t'[i].attempts == t[i].attempts + (if m == Begun then 1 else 0)
      && t'[i].externalId == if f.ActionStarted? then None else f.externalId
    else f.ActionStarted? && t' == t + [ActionRow(f.key, f.kind, f.args, Started, None, None, 1)]
  }

  /** The row's status lets the event come next. */
  predicate MayMove(t: seq<ActionRow>, f: Fact) {
    LedgerFact(f) &&
    var i := IndexOf(t, f.key);
    if f.ActionStarted? then (i < |t| ==> t[i].status.NotOccurred?) && f.attempt == Attempts(t, f.key) + 1
    else i < |t| && t[i].status.Started?
  }

  lemma LedgerMoves(h: Hash, mid: string, s: Sys, op: Op)
    requires (op.ClaimAction? || op.CompleteAction? || op.ReconcileAction?) && EventOf(h, mid, s, op).Some?
    ensures var f := EventOf(h, mid, s, op).value.fact;
      RowMoves(s.rows.actions, Apply(h, mid, s, op).rows.actions, f) && MayMove(s.rows.actions, f)
  {
    hide NewEvent, ActionKey, MayClaim;
  }

  lemma LedgerStep(es: seq<Event>, e: Event, t: seq<ActionRow>, t': seq<ActionRow>)
    requires TableReplays(es, t) && HistoriesKept(es) && AttemptsNumbered(es) && RowMoves(t, t', e.fact)
      && MayMove(t, e.fact)
    ensures TableReplays(es + [e], t') && HistoriesKept(es + [e]) && AttemptsNumbered(es + [e])
  {
    hide TableReplays, HistoriesKept, AttemptsNumbered, Marks, StartedKeys, IndexOf;
    var key := e.fact.key;
    var i := IndexOf(t, key);
    KeyHistory(es, t, key);
    HistoriesStep(es, e);
    AttemptsStep(es, e);
    if i < |t| {
      TableRewritten(es, e, t, i, t'[i], MarkOf(e.fact, key).value);
    } else {
      TableExtended(es, e, t);
    }
  }

  /** What a replaying table says about one key. */
  lemma KeyHistory(es: seq<Event>, t: seq<ActionRow>, key: string)
    requires TableReplays(es, t) && HistoriesKept(es)
    ensures var i := IndexOf(t, key);
      var ms := Marks(es, key);
      && Attempts(t, key) == Begins(ms)
      && (i == |t| <==> ms == []) && (i < |t| ==> ms != [] && t[i].status == StatusAfter(ms[|ms| - 1]))
      && (i == |t| ==> key !in StartedKeys(es))
  {
    IndexIsPlace(es, t, key);
    var i := IndexOf(t, key);
    if i < |t| { assert RowReplays(es, t[i]); } else { assert Grammar(Marks(es, key)); }
  }

  lemma QuietStep(h: Hash, mid: string, s: Sys, op: Op)
    requires EventOf(h, mid, s, op) == None
    ensures Apply(h, mid, s, op).rows.actions == s.rows.actions
  {
    if op.ClaimAction? || op.CompleteAction? || op.ReconcileAction? {
      hide ActionKey, MayClaim, NewEvent;
    } else {
      OtherStepsLeaveActions(h, mid, s, op);
    }
  }

  lemma ApplyReplays(h: Hash, mid: string, s: Sys, op: Op)
    requires Live(h, mid, s) && Replays(s)
    ensures Replays(Apply(h, mid, s, op))
  {
    hide Live, TableReplays, HistoriesKept, AttemptsNumbered, Apply, EventOf, Numbered;
    ApplyGrows(h, mid, s, op);
    var s' := Apply(h, mid, s, op);
    var d := EventOf(h, mid, s, op);
    if d == None {
      QuietStep(h, mid, s, op);
    } else {
      var es := s.rows.events;
      var e := s'.rows.events[|es|];
      if op.ClaimAction? || op.CompleteAction? || op.ReconcileAction? {
        LedgerMoves(h, mid, s, op);
        LedgerStep(es, e, s.rows.actions, s'.rows.actions);
        assert s'.rows.events == es + [e];
      } else {
        OtherStepsLeaveActions(h, mid, s, op);
        TableUntouched(es, e, s.rows.actions);
        HistoriesStep(es, e);
        AttemptsStep(es, e);
      }
    }
  }

  lemma {:induction false} ExecReplays(h: Hash, mid: string, s: Sys, ops: seq<Op>)
    requires Live(h, mid, s) && Replays(s)
    ensures Replays(Exec(h, mid, s, ops))
    decreases ops
  {
    hide Replays, Apply;
    if ops != [] {
      ApplyLive(h, mid, s, ops[0]);
      ApplyReplays(h, mid, s, ops[0]);
      ExecReplays(h, mid, Apply(h, mid, s, ops[0]), ops[1..]);
    }
  }

  /** In every run the table is the replay of the log, and every key's history has the one allowed form. */
  lemma TableIsReplay(h: Hash, mid: string, ops: seq<Op>)
    ensures var r := Exec(h, mid, START, ops).rows;
      && TableReplays(r.events, r.actions) && AttemptsNumbered(r.events)
      && forall key :: Grammar(Marks(r.events, key))
  {
    assert Replays(START);
    StartLive(h, mid);
    ExecReplays(h, mid, START, ops);
    var es := Exec(h, mid, START, ops).rows.events;
    forall key ensures Grammar(Marks(es, key)) { assert Marks(es, key) == Marks(es, key); }
  }
}
