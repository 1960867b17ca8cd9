/**
 What the gap between the checks of `complete_mission` and its write lets in: exactly
 when a mission is closed with an unresolved effect.
 */
module ClosingGap {
  import opened Prelude
  import opened Json
  import opened Models
  import opened Chain
  import opened Projection
  import opened Contracts
  import opened Rows
  import opened Ledger
  import opened Recovery
  import opened Closing
  import opened Runs
  import opened ReplayedLedger
  import opened Gate

  // ---- one claim in the gap ---------------------------------------------------------------

  /** A closing process checks, somebody else claims an effect, and the closing process writes. */
  function RacedClose(pid: nat, contract: Option<seq<Clause>>, budget: RetryBudget, kind: string, args: Json,
                      now: string): seq<Op> {
    [ReadClose(pid, contract), ClaimAction(budget, kind, args, now), WriteClose(pid, now)]
  }

  lemma ClaimLeavesStarted(h: Hash, budget: RetryBudget, mid: string, r: MissionRows, kind: string, args: Json,
                           now: string)
    requires var c := Claim(h, budget, mid, r, kind, args, now).outcome; c.Ok? && c.value.isFresh
    ensures var r' := Claim(h, budget, mid, r, kind, args, now).rows;
      Uncertain(r'.actions) != [] && r'.mission == r.mission
  {
    hide ActionKey, NewEvent;
    var key := ActionKey(h, kind, args);
    var t, i := Claimed(r.actions, key, kind, args), IndexOf(r.actions, key);
    assert t[i].status.Started?;
    UncertainExact(t);
    assert t[i] in Uncertain(t);
  }

  /**
   The checks of `complete_mission` can be out of date when it writes: whenever a
   mission may be closed and a claim may be granted, the claim can come in between,
   and the mission is then closed with an unresolved effect. `recover` still asks
   for the reconciliation first.
   */
  lemma CloseCanRaceAClaim(h: Hash, mid: string, s: Sys, pid: nat, contract: Option<seq<Clause>>, budget: RetryBudget,
                           kind: string, args: Json, now: string, environment: Option<Snapshot>)
    requires Live(h, mid, s)
    requires CloseRead(h, s.rows, contract).Ok?
    requires var read := CloseRead(h, s.rows, contract).value; CanAppend(mid, s.rows, MissionCompleted(read.0, read.1))
    requires var c := Claim(h, budget, mid, s.rows, kind, args, now).outcome; c.Ok? && c.value.isFresh
    ensures var r := Exec(h, mid, s, RacedClose(pid, contract, budget, kind, args, now)).rows;
      && Terminal(r.events) && Uncertain(r.actions) != []
      && ModeOf(h, Query(r, environment, contract)) == Reconciling
  {
    hide Apply, Live, Claim, CloseRead, Fits, IsMissionId;
    var ops := RacedClose(pid, contract, budget, kind, args, now);
    var s1 := Apply(h, mid, s, ops[0]);
    var s2 := Apply(h, mid, s1, ops[1]);
    var s3 := Apply(h, mid, s2, ops[2]);
    ExecThree(h, mid, s, ops[0], ops[1], ops[2]);
    ExecLive(h, mid, s, ops);
    ReadCloses(h, mid, s, pid, contract);
    ClaimsBetween(h, mid, s1, budget, kind, args, now);
    ClaimLeavesStarted(h, budget, mid, s.rows, kind, args, now);
    WriteCloses(h, mid, s2, pid, now);
    ReadFound(h, s.rows, contract);
    assert HasStart(s3.rows.events);
    LiveIsOk(h, mid, s3);
    hide Report, Terminal, Exec, Uncertain;
  }

  /** What passed closing checks say of the rows they read. */
  lemma ReadFound(h: Hash, r: MissionRows, contract: Option<seq<Clause>>)
    requires CloseRead(h, r, contract).Ok?
    ensures HasStart(r.events) && !Unconfirmed(r.events) && Uncertain(r.actions) == []
    ensures contract.Some? ==> Evaluate(contract.value, r.events).satisfied
  {
    hide Report, Unconfirmed, Evaluate, State;
  }

  lemma ExecThree(h: Hash, mid: string, s: Sys, a: Op, b: Op, c: Op)
    ensures Exec(h, mid, s, [a, b, c]) == Apply(h, mid, Apply(h, mid, Apply(h, mid, s, a), b), c)
  {
    hide Apply;
    var s1 := Apply(h, mid, s, a);
    assert [a, b, c][1..] == [b, c] && [b, c][1..] == [c] && [c][1..] == [];
    assert Exec(h, mid, s, [a, b, c]) == Exec(h, mid, s1, [b, c]);
    assert Exec(h, mid, s1, [b, c]) == Exec(h, mid, Apply(h, mid, s1, b), [c]);
  }

  lemma ReadCloses(h: Hash, mid: string, s: Sys, pid: nat, contract: Option<seq<Clause>>)
    requires CloseRead(h, s.rows, contract).Ok?
    ensures var read := CloseRead(h, s.rows, contract).value;
      Apply(h, mid, s, ReadClose(pid, contract)) == s.(pending := s.pending[pid := CloseChecked(read.0, read.1)])
  {
    hide CloseRead, CheckpointRead, Claim, Complete, Reconcile, CreateMission, Append, RequestApproval, Approve;
  }

  lemma ClaimsBetween(h: Hash, mid: string, s: Sys, budget: RetryBudget, kind: string, args: Json, now: string)
    ensures Apply(h, mid, s, ClaimAction(budget, kind, args, now))
      == s.(rows := Claim(h, budget, mid, s.rows, kind, args, now).rows)
  {
    hide CloseRead, CheckpointRead, Claim, Complete, Reconcile, CreateMission, Append, RequestApproval, Approve;
  }

  lemma WriteCloses(h: Hash, mid: string, s: Sys, pid: nat, now: string)
    requires pid in s.pending && s.pending[pid].CloseChecked?
    requires CanAppend(mid, s.rows, MissionCompleted(s.pending[pid].completed, s.pending[pid].total))
    ensures var s' := Apply(h, mid, s, WriteClose(pid, now));
      Terminal(s'.rows.events) && s'.rows.actions == s.rows.actions && s'.rows.mission == s.rows.mission
  {
    hide Fits, IsMissionId, NewEvent, CloseRead, CheckpointRead, Claim, Complete, Reconcile, CreateMission,
      RequestApproval, Approve;
    var f := MissionCompleted(s.pending[pid].completed, s.pending[pid].total);
    NewEventFact(h, mid, s.rows.events, f, Deterministic, now);
    TerminalStep(s.rows.events, NewEvent(h, mid, s.rows.events, f, Deterministic, now));
  }

  lemma LiveIsOk(h: Hash, mid: string, s: Sys)
    requires Live(h, mid, s) && HasStart(s.rows.events)
    ensures Report(h, s.rows.events, s.rows.head).ok
  {
    LiveVerifies(h, mid, s);
  }

  // ---- any gap ------------------------------------------------------------------------------

  predicate Claims(h: Hash, op: Op, key: string) {
    op.ClaimAction? && ActionKey(h, op.kind, op.args) == key
  }

  predicate Settles(op: Op, key: string) {
    (op.CompleteAction? || op.ReconcileAction?) && op.key == key
  }

  /** Step `i` is granted a claim on `key`, and no later step settles that key. */
  ghost predicate UnsettledAt(h: Hash, mid: string, s: Sys, ops: seq<Op>, key: string, i: int) {
    && 0 <= i < |ops| && Claims(h, ops[i], key) && Granted(h, mid, Exec(h, mid, s, ops[..i]), ops[i])
    && forall j :: i < j < |ops| ==> !Settles(ops[j], key)
  }

  ghost predicate LeavesUnsettled(h: Hash, mid: string, s: Sys, ops: seq<Op>, key: string) {
    exists i :: UnsettledAt(h, mid, s, ops, key, i)
  }

  predicate IsStartedKey(s: Sys, key: string) {
    StatusOf(s.rows.actions, key) == Some(Started)
  }

  /** One step leaves a key started iff it claims it, or finds it started and does not settle it. */
  lemma StepStarts(h: Hash, mid: string, s: Sys, op: Op, key: string)
    ensures IsStartedKey(Apply(h, mid, s, op), key)
      <==> (Granted(h, mid, s, op) && Claims(h, op, key)) || (IsStartedKey(s, key) && !Settles(op, key))
  {
    if op.ClaimAction? {
      ApplyClaim(h, mid, s, op);
      ClaimMoves(h, mid, s.rows, op.budget, op.kind, op.args, op.now, key);
      hide Apply, Claim, StatusOf, ActionKey;
    } else if op.CompleteAction? {
      CompleteMoves(h, mid, s, op.key, op.externalId, op.result, op.now, key);
      hide Apply, Complete, StatusOf;
    } else if op.ReconcileAction? {
      ReconcileMoves(h, mid, s, op.key, op.occurred, op.externalId, op.result, op.now, key);
      hide Apply, Reconcile, StatusOf;
    } else {
      OtherStepsLeaveActions(h, mid, s, op);
      hide Apply, StatusOf;
    }
  }

  lemma ApplyClaim(h: Hash, mid: string, s: Sys, op: Op)
    requires op.ClaimAction?
    ensures Apply(h, mid, s, op)
      == s.(rows := Claim(h, op.budget, mid, s.rows, op.kind, op.args, op.now).rows)
  {
    hide Claim;
  }

  /** The last step of a run, seen on `LeavesUnsettled`. */
  lemma UnsettledSnoc(h: Hash, mid: string, s: Sys, before: seq<Op>, op: Op, key: string)
    ensures LeavesUnsettled(h, mid, s, before + [op], key)
      <==> (Granted(h, mid, Exec(h, mid, s, before), op) && Claims(h, op, key))
           || (LeavesUnsettled(h, mid, s, before, key) && !Settles(op, key))
  {
    hide Exec, Granted, Claims;
    var ops, n := before + [op], |before|;
    assert ops[..n] == before && ops[n] == op;
    assert forall i :: 0 <= i < n ==> ops[..i] == before[..i] && ops[i] == before[i];
    if LeavesUnsettled(h, mid, s, ops, key) {
      var i :| UnsettledAt(h, mid, s, ops, key, i);
      if i < n { assert UnsettledAt(h, mid, s, before, key, i) && !Settles(ops[n], key); }
    }
    if Granted(h, mid, Exec(h, mid, s, before), op) && Claims(h, op, key) {
      assert UnsettledAt(h, mid, s, ops, key, n);
    }
    if LeavesUnsettled(h, mid, s, before, key) && !Settles(op, key) {
      var i :| UnsettledAt(h, mid, s, before, key, i);
      assert UnsettledAt(h, mid, s, ops, key, i);
    }
  }

  /** After any run a key that was not started is started iff the run leaves a claim on it unsettled. */
  lemma {:induction false} StartedIffUnsettled(h: Hash, mid: string, s: Sys, ops: seq<Op>, key: string)
    requires !IsStartedKey(s, key)
    ensures IsStartedKey(Exec(h, mid, s, ops), key) <==> LeavesUnsettled(h, mid, s, ops, key)
    decreases |ops|
  {
    hide Apply, LeavesUnsettled, Granted, Claims, Settles, IsStartedKey;
    if ops == [] {
      assert !LeavesUnsettled(h, mid, s, [], key) by { NothingUnsettled(h, mid, s, key); }
    } else {
      var n := |ops| - 1;
      assert ops == ops[..n] + [ops[n]];
      StartedIffUnsettled(h, mid, s, ops[..n], key);
      ExecSnoc(h, mid, s, ops[..n], ops[n]);
      StepStarts(h, mid, Exec(h, mid, s, ops[..n]), ops[n], key);
      UnsettledSnoc(h, mid, s, ops[..n], ops[n], key);
    }
  }

  lemma NothingUnsettled(h: Hash, mid: string, s: Sys, key: string)
    ensures !LeavesUnsettled(h, mid, s, [], key)
  {
  }

  lemma UncertainIffStarted(t: seq<ActionRow>)
    requires UniqueKeys(t)
    ensures Uncertain(t) != [] <==> exists key :: StatusOf(t, key) == Some(Started)
  {
    UncertainExact(t);
    if Uncertain(t) != [] {
      var row := Uncertain(t)[0];
      assert row in Uncertain(t);
      var i :| 0 <= i < |t| && t[i] == row;
      IndexIs(t, i);
      assert StatusOf(t, row.key) == Some(Started);
    }
    if key :| StatusOf(t, key) == Some(Started) { assert t[IndexOf(t, key)] in Uncertain(t); }
  }

  /** The states before the checks, before the gap, after it, and after the write. */
  ghost function ClosingRun(h: Hash, mid: string, history: seq<Op>, pid: nat, contract: Option<seq<Clause>>,
                            gap: seq<Op>, now: string)
    : (Sys, Sys, Sys, Sys)
  {
    var s := Exec(h, mid, START, history);
    var s1 := Apply(h, mid, s, ReadClose(pid, contract));
    var s2 := Exec(h, mid, s1, gap);
    (s, s1, s2, Apply(h, mid, s2, WriteClose(pid, now)))
  }

  lemma ClosingRunIsARun(h: Hash, mid: string, history: seq<Op>, pid: nat, contract: Option<seq<Clause>>,
                         gap: seq<Op>, now: string)
    ensures var m := ClosingRun(h, mid, history, pid, contract, gap, now);
      m.3 == Exec(h, mid, START, ((history + [ReadClose(pid, contract)]) + gap) + [WriteClose(pid, now)])
  {
    hide Apply, Exec;
    ExecSnoc(h, mid, START, history, ReadClose(pid, contract));
    ExecAppend(h, mid, START, history + [ReadClose(pid, contract)], gap);
    ExecSnoc(h, mid, START, (history + [ReadClose(pid, contract)]) + gap, WriteClose(pid, now));
  }

  lemma WriteLeavesActions(h: Hash, mid: string, s: Sys, pid: nat, now: string)
    ensures Apply(h, mid, s, WriteClose(pid, now)).rows.actions == s.rows.actions
  {
    OtherStepsLeaveActions(h, mid, s, WriteClose(pid, now));
  }

  lemma ChecksFoundNothing(h: Hash, s: Sys, contract: Option<seq<Clause>>, key: string)
    requires CloseRead(h, s.rows, contract).Ok?
    ensures !IsStartedKey(s, key)
  {
    hide Report, Unconfirmed, Evaluate, State, HasStart;
    var t := s.rows.actions;
    UncertainExact(t);
    assert Uncertain(t) == [];
    var i := IndexOf(t, key);
    if i < |t| { assert t[i] in t && t[i] !in Uncertain(t); }
  }

  /** The closing process still waits with its numbers after the gap, and its row can be written. */
  predicate StillCloses(mid: string, s: Sys, pid: nat) {
    && pid in s.pending && s.pending[pid].CloseChecked?
    && CanAppend(mid, s.rows, MissionCompleted(s.pending[pid].completed, s.pending[pid].total))
  }

  /**
   Closing across any gap: whatever other processes do between the passed checks and
   the write, the mission is closed with an unresolved effect iff one of their claims
   was granted in the gap and not settled in it. Then, and only then, `recover` asks
   for a reconciliation.
   */
  lemma UnresolvedIffClaimedInGap(h: Hash, mid: string, history: seq<Op>, pid: nat, contract: Option<seq<Clause>>,
                                  gap: seq<Op>,
                                  now: string, environment: Option<Snapshot>)
    requires CloseRead(h, Exec(h, mid, START, history).rows, contract).Ok?
    ensures var m := ClosingRun(h, mid, history, pid, contract, gap, now);
      var r := m.3.rows;
      && (StillCloses(mid, m.2, pid) ==> Terminal(r.events))
      && (Uncertain(r.actions) != [] <==> exists key :: LeavesUnsettled(h, mid, m.1, gap, key))
      && (Uncertain(r.actions) != [] <==> ModeOf(h, Query(r, environment, contract)) == Reconciling)
  {
    hide Apply, Exec, CloseRead, LeavesUnsettled, Live, Fits, IsMissionId, Report, Terminal, Uncertain, TableReplays;
    var m := ClosingRun(h, mid, history, pid, contract, gap, now);
    var ops := ((history + [ReadClose(pid, contract)]) + gap) + [WriteClose(pid, now)];
    ClosingRunIsARun(h, mid, history, pid, contract, gap, now);
    RunFacts(h, mid, history, ops, contract, m.3);
    ReadCloses(h, mid, m.0, pid, contract);
    WriteLeavesActions(h, mid, m.2, pid, now);
    if StillCloses(mid, m.2, pid) { WriteCloses(h, mid, m.2, pid, now); }
    forall key ensures IsStartedKey(m.3, key) <==> LeavesUnsettled(h, mid, m.1, gap, key) {
      ChecksFoundNothing(h, m.0, contract, key);
      StartedIffUnsettled(h, mid, m.1, gap, key);
    }
    UncertainIffStarted(m.3.rows.actions);
    if Uncertain(m.3.rows.actions) != [] {
      var key :| StatusOf(m.3.rows.actions, key) == Some(Started);
      assert IsStartedKey(m.3, key);
    }
    if key :| LeavesUnsettled(h, mid, m.1, gap, key) { assert IsStartedKey(m.3, key); }
  }

  /** A run that extends one whose closing checks passed verifies, and its action keys are unique. */
  lemma RunFacts(h: Hash, mid: string, history: seq<Op>, ops: seq<Op>, contract: Option<seq<Clause>>, s: Sys)
    requires history <= ops && s == Exec(h, mid, START, ops)
      && CloseRead(h, Exec(h, mid, START, history).rows, contract).Ok?
    ensures Report(h, s.rows.events, s.rows.head).ok && UniqueKeys(s.rows.actions) && Numbered(s.rows.events)
    ensures Exec(h, mid, START, history).rows.events <= s.rows.events
  {
    hide Apply, TableReplays, Live, CloseRead, Report;
    var before := Exec(h, mid, START, history);
    StartLive(h, mid);
    ExecLive(h, mid, START, history);
    ReadFound(h, before.rows, contract);
    assert ops == history + ops[|history|..];
    ExecAppend(h, mid, START, history, ops[|history|..]);
    ExecLive(h, mid, before, ops[|history|..]);
    assert HasStart(s.rows.events);
    LiveVerifies(h, mid, s);
    TableIsReplay(h, mid, ops);
    ReplaysUnique(s.rows.events, s.rows.actions);
  }

  lemma ReplaysUnique(es: seq<Event>, t: seq<ActionRow>)
    requires TableReplays(es, t)
    ensures UniqueKeys(t)
  {
  }

  /** A gap in which nobody claims is harmless, however long. */
  lemma GapWithoutClaims(h: Hash, mid: string, history: seq<Op>, pid: nat, contract: Option<seq<Clause>>,
                         gap: seq<Op>, now: string)
    requires CloseRead(h, Exec(h, mid, START, history).rows, contract).Ok?
    requires forall i :: 0 <= i < |gap| ==> !gap[i].ClaimAction?
    ensures Uncertain(ClosingRun(h, mid, history, pid, contract, gap, now).3.rows.actions) == []
  {
    hide Apply, Exec, CloseRead, ClosingRun, Uncertain;
    UnresolvedIffClaimedInGap(h, mid, history, pid, contract, gap, now, None);
  }

  /** A gap of one step is harmful iff the step is a granted claim. */
  lemma GapOfOneStep(h: Hash, mid: string, history: seq<Op>, pid: nat, contract: Option<seq<Clause>>, op: Op,
                     now: string)
    requires CloseRead(h, Exec(h, mid, START, history).rows, contract).Ok?
    ensures var m := ClosingRun(h, mid, history, pid, contract, [op], now);
      Uncertain(m.3.rows.actions) != [] <==> Granted(h, mid, m.1, op)
  {
    hide Apply, Exec, CloseRead, Uncertain, Granted, LeavesUnsettled;
    var m := ClosingRun(h, mid, history, pid, contract, [op], now);
    UnresolvedIffClaimedInGap(h, mid, history, pid, contract, [op], now, None);
    forall key ensures LeavesUnsettled(h, mid, m.1, [op], key) <==> Granted(h, mid, m.1, op) && Claims(h, op, key) {
      UnsettledSnoc(h, mid, m.1, [], op, key);
      NothingUnsettled(h, mid, m.1, key);
      assert [] + [op] == [op] && Exec(h, mid, m.1, []) == m.1 by { ExecNothing(h, mid, m.1); }
    }
    if Granted(h, mid, m.1, op) {
      GrantedClaims(h, mid, m.1, op);
      assert LeavesUnsettled(h, mid, m.1, [op], ActionKey(h, op.kind, op.args));
    }
  }

  lemma ExecNothing(h: Hash, mid: string, s: Sys)
    ensures Exec(h, mid, s, []) == s
  {
  }

  lemma GrantedClaims(h: Hash, mid: string, s: Sys, op: Op)
    requires Granted(h, mid, s, op)
    ensures op.ClaimAction? && Claims(h, op, ActionKey(h, op.kind, op.args))
  {
    hide Claim, ActionKey;
  }

  // ---- what else the gap lets in --------------------------------------------------------------

  /** Agent work at `i`, with no confirmation recorded after it. */
  ghost predicate WorkLeft(es: seq<Event>, i: int) {
    0 <= i < |es| && AgentWork(es[i]) && forall j :: i < j < |es| ==> !es[j].fact.ReviewConfirmed?
  }

  lemma WorkLeftIsUncovered(es: seq<Event>, i: int)
    requires Numbered(es)
    ensures WorkLeft(es, i) <==> Uncovered(es, i)
  {
    if WorkLeft(es, i) {
      forall j | 0 <= j < |es| && es[j].fact.ReviewConfirmed? ensures es[j].sequence < es[i].sequence {
        assert j != i && !(i < j);
      }
    }
  }

  lemma UncoveredBefore(es: seq<Event>, n: nat, i: int)
    requires Uncovered(es, i) && i < n <= |es|
    ensures Uncovered(es[..n], i)
  {
  }

  /** The mission is closed with unconfirmed work iff agents worked in the gap and nobody confirmed it there. */
  lemma UnconfirmedIffWorkInGap(h: Hash, mid: string, history: seq<Op>, pid: nat, contract: Option<seq<Clause>>,
                                gap: seq<Op>, now: string, environment: Option<Snapshot>)
    requires CloseRead(h, Exec(h, mid, START, history).rows, contract).Ok?
    ensures var m := ClosingRun(h, mid, history, pid, contract, gap, now);
      var es, n := m.3.rows.events, |m.0.rows.events|;
      && m.0.rows.events <= es
      && (Unconfirmed(es) <==> exists i :: n <= i && WorkLeft(es, i))
      && (Unconfirmed(es) && Uncertain(m.3.rows.actions) == [] ==>
            ModeOf(h, Query(m.3.rows, environment, contract)) == RequestReview)
  {
    hide Apply, Exec, CloseRead, Report, Uncovered, Uncertain, Terminal, WorkLeft;
    var m := ClosingRun(h, mid, history, pid, contract, gap, now);
    ClosingRunIsARun(h, mid, history, pid, contract, gap, now);
    RunFacts(h, mid, history, ((history + [ReadClose(pid, contract)]) + gap) + [WriteClose(pid, now)], contract, m.3);
    ReadFound(h, m.0.rows, contract);
    var es, n := m.3.rows.events, |m.0.rows.events|;
    assert es[..n] == m.0.rows.events;
    forall i ensures WorkLeft(es, i) <==> Uncovered(es, i) { WorkLeftIsUncovered(es, i); }
    forall i | Uncovered(es, i) ensures n <= i {
      if i < n { UncoveredBefore(es, n, i); }
    }
  }

  lemma {:induction false} EvidenceAppend(a: seq<Event>, b: seq<Event>, id: string)
    ensures Evidence(a + b, id) == if Evidence(b, id).Some? then Evidence(b, id) else Evidence(a, id)
    decreases |b|
  {
    if b == [] {
      assert a + b == a;
    } else {
      var n := |b| - 1;
      assert a + b == (a + b[..n]) + [b[n]] && b == b[..n] + [b[n]];
      EvidenceAppend(a, b[..n], id);
      EvidenceStep(a + b[..n], b[n], id);
      EvidenceStep(b[..n], b[n], id);
    }
  }

  /** The tail's last trusted evidence on the clause's id is what no clause of that id expects. */
  ghost predicate Overturned(contract: seq<Clause>, tail: seq<Event>, c: Clause) {
    && c in contract && Evidence(tail, c.evidenceId).Some?
    && forall d :: d in contract && d.evidenceId == c.evidenceId ==> d.expected != Evidence(tail, c.evidenceId)
  }

  /** Some clause with this clause's id is met. */
  ghost predicate Upheld(contract: seq<Clause>, es: seq<Event>, c: Clause) {
    exists d :: d in contract && d.evidenceId == c.evidenceId && Met(d, es)
  }

  lemma SatisfiedIffUpheld(contract: seq<Clause>, es: seq<Event>)
    ensures Evaluate(contract, es).satisfied <==> forall c :: c in contract ==> Upheld(contract, es, c)
  {
    hide Evaluate, Met;
    SatisfiedExact(contract, es);
  }

  lemma UpheldUnlessOverturned(contract: seq<Clause>, front: seq<Event>, tail: seq<Event>, c: Clause)
    requires c in contract && Upheld(contract, front, c)
    ensures Upheld(contract, front + tail, c) <==> !Overturned(contract, tail, c)
  {
    hide Evidence;
    EvidenceAppend(front, tail, c.evidenceId);
    forall d | d in contract && d.evidenceId == c.evidenceId
      ensures Met(d, front + tail)
              <==> d.expected == if Evidence(tail, c.evidenceId).Some? then Evidence(tail, c.evidenceId)
                                 else Evidence(front, c.evidenceId)
    {}
  }

  /** A satisfied contract stays satisfied over a tail iff the tail overturns none of its clauses. */
  lemma UnsatisfiedIffOverturned(contract: seq<Clause>, front: seq<Event>, tail: seq<Event>)
    requires Evaluate(contract, front).satisfied
    ensures !Evaluate(contract, front + tail).satisfied <==> exists c :: Overturned(contract, tail, c)
  {
    SatisfiedIffUpheld(contract, front);
    SatisfiedIffUpheld(contract, front + tail);
    hide Evaluate, Upheld;
    forall c | c in contract ensures Upheld(contract, front + tail, c) <==> !Overturned(contract, tail, c) {
      UpheldUnlessOverturned(contract, front, tail, c);
    }
    assert forall c :: Overturned(contract, tail, c) ==> c in contract;
  }

  /** The mission is closed against its contract iff trusted evidence recorded in the gap overturned a clause. */
  lemma UnmetIffOverturnedInGap(h: Hash, mid: string, history: seq<Op>, pid: nat, contract: seq<Clause>, gap: seq<Op>,
                                now: string)
    requires CloseRead(h, Exec(h, mid, START, history).rows, Some(contract)).Ok?
    ensures var m := ClosingRun(h, mid, history, pid, Some(contract), gap, now);
      var es, n := m.3.rows.events, |m.0.rows.events|;
      && m.0.rows.events <= es
      && (!Evaluate(contract, es).satisfied <==> exists c :: Overturned(contract, es[n..], c))
  {
    hide Apply, Exec, CloseRead, Report, Uncertain, Evaluate, Overturned;
    var m := ClosingRun(h, mid, history, pid, Some(contract), gap, now);
    ClosingRunIsARun(h, mid, history, pid, Some(contract), gap, now);
    RunFacts(h, mid, history, ((history + [ReadClose(pid, Some(contract))]) + gap) + [WriteClose(pid, now)],
             Some(contract), m.3);
    ReadFound(h, m.0.rows, Some(contract));
    var es, n := m.3.rows.events, |m.0.rows.events|;
    assert es == m.0.rows.events + es[n..];
    UnsatisfiedIffOverturned(contract, m.0.rows.events, es[n..]);
  }

  // ---- one such run, from the empty store ---------------------------------------------------

  lemma {:induction false} EscapedShort(s: string, k: string)
    ensures |Escaped(s, k)| <= 6 * |s| + 1 + |k|
  {
    if s != [] { EscapedShort(s[1..], k); }
  }

  lemma WriteTwo(f: Field, g: Field)
    ensures Write(Obj([f, g]), "") == "{" + WriteField(f, "," + WriteField(g, "}"))
  {
    hide Quoted;
    assert [f, g][1..] == [g] && [g][1..] == [];
    assert WriteFields([], "") == "}";
    assert WriteFields([g], "") == "," + WriteField(g, WriteFields([], ""));
  }

  lemma SortTwo(f: Field, g: Field)
    requires !Less(g.name, f.name)
    ensures Sort([f, g]) == [f, g]
  {
    hide Less;
    assert [f, g][1..] == [g] && [g][1..] == [];
    assert Insert(g, []) == [g] && Sort([g]) == Insert(g, Sort([]));
    assert Sort([f, g]) == Insert(f, [g]);
  }

  lemma EmptyClosingFits()
    ensures Fits(MissionCompleted(0, 0))
  {
    hide Escaped, Less;
    var f, g := Field("completed", Num(0)), Field("total", Num(0));
    assert !Less("total", "completed") by { LessByFirst("total", "completed"); }
    assert NormFields([f, g]) == [f, g];
    assert Sort([f, g]) == [f, g] by { SortTwo(f, g); }
    assert Norm(Obj([f, g])) == Obj([f, g]);
    WriteTwo(f, g);
    assert Write(g.value, "}") == "0}" && Write(f.value, "," + WriteField(g, "}")) == "0" + ("," + WriteField(g, "}"));
    EscapedShort(g.name, ":" + Write(g.value, "}"));
    EscapedShort(f.name, ":" + Write(f.value, "," + WriteField(g, "}")));
  }

  lemma LessByFirst(a: string, b: string)
    requires a != [] && b != [] && b[0] < a[0]
    ensures !Less(a, b)
  {
  }

  lemma NewMissionCloses(h: Hash, now: string)
    ensures var s := Exec(h, "m", START, [Create("g", 0, now)]);
      CloseRead(h, s.rows, None) == Ok((0, 0)) && s.rows.mission.Some? && s.rows.actions == [] && s.pending == map[]
  {
    var op := Create("g", 0, now);
    ExecSnoc(h, "m", START, [], op);
    ExecNothing(h, "m", START);
    assert [] + [op] == [op];
    StartLive(h, "m");
    ApplyLive(h, "m", START, op);
    LiveVerifies(h, "m", Apply(h, "m", START, op));
    hide Exec, NewEvent, Report, LinkedAt;
    assert IsMissionId("m") by { assert IdBody("m"); }
    assert !IsBlank("g") by { assert !IsSpace("g"[0]); }
    NewEventFact(h, "m", [], MissionStarted("g", 0), Deterministic, now);
    var s := Apply(h, "m", START, op);
    assert s.rows.events[1..] == [];
  }

  /** A mission created, checked, claimed on and closed: it ends closed and unresolved, for every action. */
  lemma RaceFromStart(h: Hash, kind: string, args: Json, now: string)
    ensures var r := Exec(h, "m", START, [Create("g", 0, now)] + RacedClose(0, None, NO_CAPS, kind, args, now)).rows;
      Terminal(r.events) && Uncertain(r.actions) != [] && ModeOf(h, Query(r, None, None)) == Reconciling
  {
    hide Apply, ModeOf, Live, Report, Terminal, Uncertain, CloseRead, Fits;
    var history, op := [Create("g", 0, now)], ClaimAction(NO_CAPS, kind, args, now);
    NewMissionCloses(h, now);
    EmptyClosingFits();
    assert IsMissionId("m") by { assert IdBody("m"); }
    var s := Exec(h, "m", START, history);
    FirstClaimGranted(h, "m", s.rows, kind, args, now);
    StartLive(h, "m");
    ExecLive(h, "m", START, history);
    CloseCanRaceAClaim(h, "m", s, 0, None, NO_CAPS, kind, args, now, None);
    ExecAppend(h, "m", START, history, RacedClose(0, None, NO_CAPS, kind, args, now));
  }

  lemma FirstClaimGranted(h: Hash, mid: string, r: MissionRows, kind: string, args: Json, now: string)
    requires r.actions == []
    ensures var c := Claim(h, NO_CAPS, mid, r, kind, args, now).outcome; c.Ok? && c.value.isFresh
  {
    hide ActionKey, Recorded;
  }
}
