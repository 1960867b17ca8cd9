/**
 Runs of the store: any interleaving of the transactions that the repository's
 own callers make. `complete_mission`, `checkpoint` and the ticket handler read or
 consume first and write later, so each is two steps; what a process holds in
 between is `pending`.
 */
module Runs {
  import opened Prelude
  import opened Json
  import opened Models
  import opened Chain
  import opened Projection
  import opened Contracts
  import opened Rows
  import opened Ledger
  import opened Recovery
  import opened Closing

  datatype Pending =
    | CloseChecked(completed: int, total: int)
    | CheckpointTaken(sequence: int, payload: string, reason: string)
    | TicketConsumed

  /** One mission's rows, and the half-done operations by process id. */
  datatype Sys = Sys(rows: MissionRows, pending: map<nat, Pending>)

  const START := Sys(NO_ROWS, map[])

  datatype Op =
    | Create(goal: string, total: int, now: string)
    | AppendFact(fact: Fact, origin: Origin, now: string)
    | ClaimAction(budget: RetryBudget, kind: string, args: Json, now: string)
    | CompleteAction(key: string, externalId: Option<string>, result: Option<Json>, now: string)
    | ReconcileAction(key: string, occurred: bool, externalId: Option<string>, result: Option<Json>, now: string)
    | ReadCheckpoint(pid: nat, reason: string)
    | WriteCheckpoint(pid: nat, now: string)
    | ReadClose(pid: nat, contract: Option<seq<Clause>>)
    | WriteClose(pid: nat, now: string)
    | Issue(ticket: string)
    | Consume(pid: nat, ticket: string)
    | Confirm(pid: nat, confirmedBy: string, now: string)
    | Request(ttl: int, ticket: string, clock: int)
    | ApproveTicket(ticket: string, digest: string, operator: string, clock: int, now: string)
    | Reopen
    | Die(pid: nat)

  /** What the repository appends outside the ledger, the checkpoints and the closing. */
  predicate CallerFact(f: Fact) {
    !f.MissionStarted? && !f.MissionCompleted? && !f.CheckpointCreated?
    && !f.ActionStarted? && !f.ActionCompleted? && !f.ActionReconciled?
  }

  /** One step. A transaction that raises leaves the state alone; so does a step nobody is ready for. */
  ghost function Apply(h: Hash, mid: string, s: Sys, op: Op): Sys {
    var r := s.rows;
    match op
    case Create(goal, total, now) => s.(rows := CreateMission(h, mid, r, goal, total, now).rows)
    case AppendFact(f, o, now) => if CallerFact(f) then s.(rows := Append(h, mid, r, f, o, now).rows) else s
    case ClaimAction(budget, kind, args, now) => s.(rows := Claim(h, budget, mid, r, kind, args, now).rows)
    case CompleteAction(key, eid, result, now) => s.(rows := Complete(h, mid, r, key, eid, result, now).rows)
    case ReconcileAction(key, occurred, eid, result, now) =>
      s.(rows := Reconcile(h, mid, r, key, occurred, eid, result, now).rows)
    case ReadCheckpoint(pid, reason) =>
      (match CheckpointRead(r.events)
       case Raised(_) => s
       case Ok(pair) => s.(pending := s.pending[pid := CheckpointTaken(pair.0, pair.1, reason)]))
    case WriteCheckpoint(pid, now) =>
      if pid in s.pending && s.pending[pid].CheckpointTaken? then
        var p := s.pending[pid];
        Sys(CheckpointWrite(h, mid, r, p.sequence, p.payload, p.reason, now).rows, s.pending - {pid})
      else s
    case ReadClose(pid, contract) =>
      (match CloseRead(h, r, contract)
       case Raised(_) => s
       case Ok(pair) => s.(pending := s.pending[pid := CloseChecked(pair.0, pair.1)]))
    case WriteClose(pid, now) =>
      if pid in s.pending && s.pending[pid].CloseChecked? then
        var p := s.pending[pid];
        Sys(CloseWrite(h, mid, r, p.completed, p.total, now).rows, s.pending - {pid})
      else s
    case Issue(ticket) => s.(rows := IssueTicket(h, mid, r, ticket).rows)
    case Consume(pid, ticket) =>
      var t := ConsumeTicket(h, r, ticket);
      if t.outcome == Ok(true) && pid !in s.pending then Sys(t.rows, s.pending[pid := TicketConsumed])
      else s.(rows := t.rows)
    case Confirm(pid, who, now) =>
      if pid in s.pending && s.pending[pid].TicketConsumed? then
        Sys(Append(h, mid, r, ReviewConfirmed(who), Human, now).rows, s.pending - {pid})
      else s
    case Request(ttl, ticket, clock) => s.(rows := RequestApproval(h, mid, r, ttl, ticket, clock).rows)
    case ApproveTicket(ticket, digest, operator, clock, now) =>
      s.(rows := Approve(h, mid, r, ticket, digest, operator, clock, now).rows)
    case Reopen => s.(rows := Reopened(r))
    case Die(pid) => s.(pending := s.pending - {pid})
  }

  ghost function Exec(h: Hash, mid: string, s: Sys, ops: seq<Op>): Sys
    decreases ops
  {
    if ops == [] then s else Exec(h, mid, Apply(h, mid, s, ops[0]), ops[1..])
  }

  lemma {:induction false} ExecAppend(h: Hash, mid: string, s: Sys, a: seq<Op>, b: seq<Op>)
    ensures Exec(h, mid, s, a + b) == Exec(h, mid, Exec(h, mid, s, a), b)
    decreases a
  {
    hide Apply;
    if a == [] {
      assert a + b == b;
    } else {
      assert (a + b)[1..] == a[1..] + b;
      ExecAppend(h, mid, Apply(h, mid, s, a[0]), a[1..], b);
    }
  }

  // ---- the event a step records ---------------------------------------------------------------

  datatype Draft = Draft(fact: Fact, origin: Origin, now: string)

  /** The log grew by the drafted event and the anchor moved onto it, or neither changed. */
  ghost predicate Grew(h: Hash, mid: string, r: MissionRows, r': MissionRows, d: Option<Draft>) {
    match d
    case None => r'.events == r.events && r'.head == r.head
    case Some(d) =>
      && r'.events == Recorded(h, mid, r, d.fact, d.origin, d.now).events
      && r'.head == Recorded(h, mid, r, d.fact, d.origin, d.now).head
  }

  ghost function EventOf(h: Hash, mid: string, s: Sys, op: Op): Option<Draft> {
    var r := s.rows;
    match op
    case Create(goal, total, now) =>
      if CreateMission(h, mid, r, goal, total, now).outcome.Ok?
      then Some(Draft(MissionStarted(goal, total), Deterministic, now)) else None
    case AppendFact(f, o, now) => if CallerFact(f) && CanAppend(mid, r, f) then Some(Draft(f, o, now)) else None
    case ClaimAction(budget, kind, args, now) =>
      var c := Claim(h, budget, mid, r, kind, args, now).outcome;
      if c.Ok? && c.value.isFresh then
        var key := ActionKey(h, kind, args);
        Some(Draft(ActionStarted(key, kind, args, Attempts(r.actions, key) + 1), Deterministic, now))
      else None
    case CompleteAction(key, eid, result, now) =>
      if IsStarted(r.actions, key) then Some(Draft(ActionCompleted(key, eid, OrEmpty(result)), Deterministic, now))
      else None
    case ReconcileAction(key, occurred, eid, result, now) =>
      if IsStarted(r.actions, key) then Some(Draft(ActionReconciled(key, occurred, eid), Deterministic, now)) else None
    case WriteCheckpoint(pid, now) =>
      if pid in s.pending && s.pending[pid].CheckpointTaken?
         && CheckpointWrite(h, mid, r, s.pending[pid].sequence, s.pending[pid].payload, s.pending[pid].reason, now)
              .outcome.Ok?
      then Some(Draft(CheckpointCreated(s.pending[pid].sequence, h(s.pending[pid].payload), s.pending[pid].reason),
                      Deterministic, now))
      else None
    case WriteClose(pid, now) =>
      if pid in s.pending && s.pending[pid].CloseChecked?
         && CanAppend(mid, r, MissionCompleted(s.pending[pid].completed, s.pending[pid].total))
      then Some(Draft(MissionCompleted(s.pending[pid].completed, s.pending[pid].total), Deterministic, now)) else None
    case Confirm(pid, who, now) =>
      if pid in s.pending && s.pending[pid].TicketConsumed? && CanAppend(mid, r, ReviewConfirmed(who))
      then Some(Draft(ReviewConfirmed(who), Human, now)) else None
    case ApproveTicket(ticket, digest, operator, clock, now) =>
      if Approve(h, mid, r, ticket, digest, operator, clock, now).outcome.Ok?
      then Some(Draft(ReviewConfirmed(operator), Human, now)) else None
    case _ => None
  }

  /** Every step but the reopening grows the log by its event, in the same transaction as its rows. */
  lemma Shape(h: Hash, mid: string, s: Sys, op: Op)
    requires !op.Reopen?
    ensures Grew(h, mid, s.rows, Apply(h, mid, s, op).rows, EventOf(h, mid, s, op))
  {
    hide NewEvent, Report, ModeOf, ApprovalDigest, Fits, IsMissionId, CheckpointRead, CloseRead, HasStart, Claimed,
      Settled, MayClaim;
    if op.ClaimAction? || op.CompleteAction? || op.ReconcileAction? { ShapeLedger(h, mid, s, op); }
    else if op.Request? || op.ApproveTicket? { ShapeApproval(h, mid, s, op); }
    else {
      hide Claim, Complete, Reconcile, RequestApproval, Approve, IsStarted, ActionKey, Attempts;
    }
  }

  lemma ShapeLedger(h: Hash, mid: string, s: Sys, op: Op)
    requires op.ClaimAction? || op.CompleteAction? || op.ReconcileAction?
    ensures Grew(h, mid, s.rows, Apply(h, mid, s, op).rows, EventOf(h, mid, s, op))
  {
    hide NewEvent, Claimed, Settled, MayClaim, ActionKey, Attempts;
  }

  lemma ShapeApproval(h: Hash, mid: string, s: Sys, op: Op)
    requires op.Request? || op.ApproveTicket?
    ensures Grew(h, mid, s.rows, Apply(h, mid, s, op).rows, EventOf(h, mid, s, op))
  {
    hide NewEvent, ModeOf, ApprovalDigest, HasStart;
  }

  // ---- the chain in every run --------------------------------------------------------------------

  /**
   What every run keeps: the log is linked and anchored; before its first event there
   is nothing at all; and if its first event is the mission's start, the mission's row
   says the same.
   */
  ghost predicate Live(h: Hash, mid: string, s: Sys) {
    var es := s.rows.events;
    && (es == [] ==> s == START)
    && Linked(h, es, |es|) && s.rows.head == (if es == [] then None else Some(Anchor(es)))
    && (forall i :: 0 <= i < |es| ==> es[i].missionId == mid)
    && (s.rows.mission.Some? ==> s.rows.mission.value.missionId == mid)
    && (HasStart(es) ==>
          s.rows.mission.Some? && es[0].fact == MissionStarted(s.rows.mission.value.goal, s.rows.mission.value.total))
  }

  lemma StartLive(h: Hash, mid: string)
    ensures Live(h, mid, START)
  {
  }

  /** Such a log verifies iff it opens with the mission's start; opening the file changes nothing. */
  lemma LiveVerifies(h: Hash, mid: string, s: Sys)
    requires Live(h, mid, s)
    ensures Report(h, s.rows.events, s.rows.head).ok <==> HasStart(s.rows.events)
    ensures HasStart(s.rows.events) ==>
              Report(h, s.rows.events, s.rows.head) == ChainReport(true, |s.rows.events|, "")
    ensures Numbered(s.rows.events) && Reopened(s.rows) == s.rows
  {
    hide LinkedAt, Report;
    VerifiedNumbers(h, s.rows.events);
    VerifiedIsOk(h, s.rows.events, s.rows.head);
  }

  lemma MissionStays(h: Hash, mid: string, s: Sys, op: Op)
    requires s.rows.mission.Some?
    ensures Apply(h, mid, s, op).rows.mission == s.rows.mission
  {
    hide NewEvent, Report, ModeOf, ApprovalDigest, Fits, IsMissionId, CheckpointRead, CloseRead, HasStart, Claimed,
      Settled, MayClaim;
  }

  /** A mission's row appears with its start, and a start only with its row. */
  lemma MissionAppears(h: Hash, mid: string, s: Sys, op: Op)
    requires s.rows.mission.None?
    ensures var s' := Apply(h, mid, s, op);
      var d := EventOf(h, mid, s, op);
      && (s'.rows.mission.Some? ==> d.Some? && d.value.fact.MissionStarted? && s'.rows.mission.value.missionId == mid)
      && (d.Some? && d.value.fact.MissionStarted? ==>
            s'.rows.mission.Some?
            && d.value.fact == MissionStarted(s'.rows.mission.value.goal, s'.rows.mission.value.total))
  {
    hide NewEvent, Report, ModeOf, ApprovalDigest, Fits, IsMissionId, CheckpointRead, CloseRead, HasStart, Claimed,
      Settled, MayClaim, IsBlank;
  }

  /** On the empty store only a creation or a granted claim does anything. */
  lemma FirstStep(h: Hash, mid: string, op: Op)
    ensures EventOf(h, mid, START, op).None? ==> Apply(h, mid, START, op) == START
    ensures EventOf(h, mid, START, op).Some? ==> op.Create? || Granted(h, mid, START, op)
    ensures EventOf(h, mid, START, op).Some? && op.Create? ==> EventOf(h, mid, START, op).value.fact.MissionStarted?
  {
    hide NewEvent, ModeOf, ApprovalDigest, Fits, IsMissionId, Claimed, Settled, MayClaim, Linked, Trusted, IsBlank;
  }

  /** The step is a claim, and it is granted. */
  predicate Granted(h: Hash, mid: string, s: Sys, op: Op) {
    op.ClaimAction? &&
    var c := Claim(h, op.budget, mid, s.rows, op.kind, op.args, op.now).outcome;
    c.Ok? && c.value.isFresh
  }

  lemma GrantedStarts(h: Hash, mid: string, s: Sys, op: Op)
    requires Granted(h, mid, s, op)
    ensures EventOf(h, mid, s, op).Some? && EventOf(h, mid, s, op).value.fact.ActionStarted?
  {
    hide Claim, ActionKey, Attempts;
  }

  /** What growing by a draft means on a numbered log. */
  ghost predicate GrownBy(es: seq<Event>, es': seq<Event>, d: Option<Draft>) {
    match d
    case None => es' == es
    case Some(d) =>
      && |es'| == |es| + 1 && es' == es + [es'[|es|]]
      && es'[|es|].fact == d.fact && es'[|es|].origin == d.origin && es'[|es|].sequence == |es| + 1
  }

  ghost predicate Anchored(h: Hash, es: seq<Event>, head: Option<Head>) {
    Linked(h, es, |es|) && head == if es == [] then None else Some(Anchor(es))
  }

  lemma GrewLinks(h: Hash, mid: string, r: MissionRows, r': MissionRows, d: Option<Draft>)
    requires Anchored(h, r.events, r.head) && Grew(h, mid, r, r', d)
    ensures Anchored(h, r'.events, r'.head) && GrownBy(r.events, r'.events, d)
    ensures |r'.events| > |r.events| ==> r'.events[|r.events|].missionId == mid
  {
    hide LinkedAt, NewEvent;
    match d
    case None =>
    case Some(d) =>
      NewEventLinks(h, mid, r.events, d.fact, d.origin, d.now);
      NewEventFact(h, mid, r.events, d.fact, d.origin, d.now);
  }

  lemma GrownKeepsStart(es: seq<Event>, es': seq<Event>, d: Option<Draft>)
    requires GrownBy(es, es', d)
    ensures es <= es' && (es != [] ==> (HasStart(es') <==> HasStart(es)))
    ensures es == [] ==> (HasStart(es') <==> d.Some? && d.value.fact.MissionStarted?)
    ensures es != [] ==> es'[0] == es[0]
  {
  }

  lemma ApplyGrew(h: Hash, mid: string, s: Sys, op: Op)
    requires Live(h, mid, s)
    ensures Grew(h, mid, s.rows, Apply(h, mid, s, op).rows, EventOf(h, mid, s, op))
  {
    if op.Reopen? {
      LiveVerifies(h, mid, s);
      hide Live, Reopened;
    } else {
      Shape(h, mid, s, op);
    }
  }

  lemma ApplyGrows(h: Hash, mid: string, s: Sys, op: Op)
    requires Live(h, mid, s)
    ensures var s' := Apply(h, mid, s, op);
      && Live(h, mid, s') && GrownBy(s.rows.events, s'.rows.events, EventOf(h, mid, s, op))
      && Numbered(s.rows.events) && Numbered(s'.rows.events) && s.rows.events <= s'.rows.events
  {
    hide Apply, EventOf, Grew, GrownBy, LinkedAt;
    var s' := Apply(h, mid, s, op);
    var d := EventOf(h, mid, s, op);
    ApplyGrew(h, mid, s, op);
    GrewLinks(h, mid, s.rows, s'.rows, d);
    GrownKeepsStart(s.rows.events, s'.rows.events, d);
    if s.rows.mission.Some? {
      MissionStays(h, mid, s, op);
    } else {
      MissionAppears(h, mid, s, op);
    }
    if s.rows.events == [] {
      FirstStep(h, mid, op);
      GrownFromNothing(s'.rows.events, d);
    }
    GrownMissionIds(mid, s.rows.events, s'.rows.events, d);
    LiveVerifies(h, mid, s);
    LiveVerifies(h, mid, s');
  }

  lemma GrownFromNothing(es': seq<Event>, d: Option<Draft>)
    requires GrownBy([], es', d)
    ensures es' == [] <==> d.None?
    ensures d.Some? ==> es'[0].fact == d.value.fact
  {
  }

  lemma GrownMissionIds(mid: string, es: seq<Event>, es': seq<Event>, d: Option<Draft>)
    requires GrownBy(es, es', d) && forall i :: 0 <= i < |es| ==> es[i].missionId == mid
    requires |es'| > |es| ==> es'[|es|].missionId == mid
    ensures forall i :: 0 <= i < |es'| ==> es'[i].missionId == mid
  {
  }

  lemma ApplyLive(h: Hash, mid: string, s: Sys, op: Op)
    requires Live(h, mid, s)
    ensures Live(h, mid, Apply(h, mid, s, op)) && s.rows.events <= Apply(h, mid, s, op).rows.events
  {
    hide Live, Apply, EventOf, GrownBy;
    ApplyGrows(h, mid, s, op);
  }

  lemma {:induction false} ExecLive(h: Hash, mid: string, s: Sys, ops: seq<Op>)
    requires Live(h, mid, s)
    ensures Live(h, mid, Exec(h, mid, s, ops)) && s.rows.events <= Exec(h, mid, s, ops).rows.events
    decreases ops
  {
    hide Live, Apply;
    if ops != [] {
      ApplyLive(h, mid, s, ops[0]);
      ExecLive(h, mid, Apply(h, mid, s, ops[0]), ops[1..]);
    }
  }

  lemma ExecSnoc(h: Hash, mid: string, s: Sys, before: seq<Op>, op: Op)
    ensures Exec(h, mid, s, before + [op]) == Apply(h, mid, Exec(h, mid, s, before), op)
  {
    hide Apply;
    ExecAppend(h, mid, s, before, [op]);
    var s1 := Exec(h, mid, s, before);
    assert [op][1..] == [] && Exec(h, mid, s1, [op]) == Exec(h, mid, Apply(h, mid, s1, op), []);
  }

  // ---- claims before the mission -------------------------------------------------------------------

  /** A claim granted although the mission does not exist. */
  predicate Stray(h: Hash, mid: string, s: Sys, op: Op) {
    s.rows.mission.None? && Granted(h, mid, s, op)
  }

  ghost predicate StrayAt(h: Hash, mid: string, ops: seq<Op>, i: int) {
    0 <= i < |ops| && Stray(h, mid, Exec(h, mid, START, ops[..i]), ops[i])
  }

  /** Some claim of the run was granted before the mission was created. */
  ghost predicate StrayIn(h: Hash, mid: string, ops: seq<Op>) {
    exists i :: StrayAt(h, mid, ops, i)
  }

  predicate Headless(es: seq<Event>) {
    es != [] && !HasStart(es)
  }

  lemma HeadlessStep(h: Hash, mid: string, s: Sys, op: Op)
    requires Live(h, mid, s)
    ensures Headless(Apply(h, mid, s, op).rows.events) <==> Headless(s.rows.events) || Stray(h, mid, s, op)
  {
    hide Apply, EventOf, GrownBy, Claim, LinkedAt, Granted;
    ApplyGrows(h, mid, s, op);
    var d := EventOf(h, mid, s, op);
    GrownKeepsStart(s.rows.events, Apply(h, mid, s, op).rows.events, d);
    if s.rows.events == [] {
      FirstStep(h, mid, op);
      GrownFromNothing(Apply(h, mid, s, op).rows.events, d);
      if Granted(h, mid, s, op) { GrantedStarts(h, mid, s, op); }
    }
  }

  lemma StraySnoc(h: Hash, mid: string, before: seq<Op>, op: Op)
    ensures StrayIn(h, mid, before + [op])
            <==> StrayIn(h, mid, before) || Stray(h, mid, Exec(h, mid, START, before), op)
  {
    hide Exec, Stray;
    var ops, n := before + [op], |before|;
    assert ops[..n] == before && ops[n] == op;
    assert forall i :: 0 <= i < n ==> ops[..i] == before[..i] && ops[i] == before[i];
    if StrayIn(h, mid, before) {
      var i :| StrayAt(h, mid, before, i);
      assert StrayAt(h, mid, ops, i);
    }
    if Stray(h, mid, Exec(h, mid, START, before), op) { assert StrayAt(h, mid, ops, n); }
    if StrayIn(h, mid, ops) {
      var i :| StrayAt(h, mid, ops, i);
      assert i < n ==> StrayAt(h, mid, before, i);
    }
  }

  /** In any run the log lacks its start iff a claim came before it. */
  lemma {:induction false} HeadlessIffStray(h: Hash, mid: string, ops: seq<Op>)
    ensures Headless(Exec(h, mid, START, ops).rows.events) <==> StrayIn(h, mid, ops)
    decreases |ops|
  {
    hide Apply, StrayIn, Stray, Live;
    if ops == [] {
      assert !StrayIn(h, mid, ops) by { NoSteps(h, mid); }
    } else {
      var n := |ops| - 1;
      assert ops == ops[..n] + [ops[n]];
      HeadlessIffStray(h, mid, ops[..n]);
      StartLive(h, mid);
      ExecLive(h, mid, START, ops[..n]);
      ExecSnoc(h, mid, START, ops[..n], ops[n]);
      HeadlessStep(h, mid, Exec(h, mid, START, ops[..n]), ops[n]);
      StraySnoc(h, mid, ops[..n], ops[n]);
    }
  }

  lemma NoSteps(h: Hash, mid: string)
    ensures !StrayIn(h, mid, [])
  {
  }

  /**
   In every run the events are numbered from one, opening the file again changes
   nothing, running on only extends the log, and before the first event there is
   nothing. A created mission verifies, to its last event, iff no claim was granted
   before its creation.
   */
  lemma EveryRunVerifies(h: Hash, mid: string, ops: seq<Op>, more: seq<Op>)
    ensures var s := Exec(h, mid, START, ops);
      && Numbered(s.rows.events) && Reopened(s.rows) == s.rows
      && (forall i :: 0 <= i < |s.rows.events| ==> s.rows.events[i].missionId == mid)
      && (s.rows.events == [] ==> s == START)
      && (s.rows.mission.Some? ==> (Report(h, s.rows.events, s.rows.head).ok <==> !StrayIn(h, mid, ops)))
      && (Report(h, s.rows.events, s.rows.head).ok ==>
            s.rows.mission.Some? && Report(h, s.rows.events, s.rows.head) == ChainReport(true, |s.rows.events|, ""))
      && s.rows.events <= Exec(h, mid, START, ops + more).rows.events
  {
    hide Apply, Report, StrayIn, LinkedAt, Reopened;
    var s := Exec(h, mid, START, ops);
    StartLive(h, mid);
    ExecLive(h, mid, START, ops);
    ExecLive(h, mid, s, more);
    ExecAppend(h, mid, START, ops, more);
    LiveVerifies(h, mid, s);
    HeadlessIffStray(h, mid, ops);
  }

  // ---- many missions in one database -----------------------------------------------------------------

  datatype Call = Call(mission: string, op: Op)

  ghost function SysOf(w: map<string, Sys>, mid: string): Sys {
    if mid in w then w[mid] else START
  }

  ghost function ExecAll(h: Hash, w: map<string, Sys>, calls: seq<Call>): map<string, Sys>
    decreases calls
  {
    if calls == [] then w
    else ExecAll(h, w[calls[0].mission := Apply(h, calls[0].mission, SysOf(w, calls[0].mission), calls[0].op)],
      calls[1..])
  }

  function OpsOf(calls: seq<Call>, mid: string): seq<Op> {
    if calls == [] then [] else (if calls[0].mission == mid then [calls[0].op] else []) + OpsOf(calls[1..], mid)
  }

  /** What a mission's rows become depends on the calls on that mission alone. */
  lemma {:induction false} MissionsDoNotInterfere(h: Hash, w: map<string, Sys>, calls: seq<Call>, mid: string)
    ensures SysOf(ExecAll(h, w, calls), mid) == Exec(h, mid, SysOf(w, mid), OpsOf(calls, mid))
    decreases calls
  {
    hide Apply;
    if calls != [] {
      var c := calls[0];
      var w' := w[c.mission := Apply(h, c.mission, SysOf(w, c.mission), c.op)];
      MissionsDoNotInterfere(h, w', calls[1..], mid);
      if c.mission == mid {
        assert OpsOf(calls, mid)[0] == c.op && OpsOf(calls, mid)[1..] == OpsOf(calls[1..], mid);
      } else {
        assert SysOf(w', mid) == SysOf(w, mid) && OpsOf(calls, mid) == OpsOf(calls[1..], mid);
      }
    }
  }
}
