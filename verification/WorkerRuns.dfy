/** Runs made of the tool server's steps alone, with tickets minted by the operator. */
module WorkerRuns {
  import opened Prelude
  import opened Models
  import opened Chain
  import opened Projection
  import opened Contracts
  import opened Rows
  import opened Ledger
  import opened Recovery
  import opened Closing
  import opened Runs
  import opened ClosedRuns

  /** What `ToolServer.handle` does in ticket mode, plus minting, reopening and dying. */
  predicate WorkerOp(op: Op) {
    match op
    case AppendFact(f, o, _) => f.WorkCompleted? && o.ExternalAgent?
    case ReadClose(_, contract) => contract.None?
    case Request(_, _, _) => false
    case ApproveTicket(_, _, _, _, _) => false
    case _ => true
  }

  function Confirmations(es: seq<Event>): nat {
    if es == [] then 0 else Confirmations(es[..|es| - 1]) + if es[|es| - 1].fact.ReviewConfirmed? then 1 else 0
  }

  function Used(tickets: map<string, bool>): set<string> {
    set k | k in tickets && tickets[k]
  }

  function Holders(pending: map<nat, Pending>): set<nat> {
    set pid | pid in pending && pending[pid].TicketConsumed?
  }

  ghost predicate OnlyAgentsWork(es: seq<Event>) {
    forall i :: 0 <= i < |es| && es[i].fact.WorkCompleted? ==> es[i].origin.ExternalAgent?
  }

  /** A mission that may be closed: nothing is to be done, or somebody confirmed. */
  ghost predicate Earned(es: seq<Event>) {
    HasStart(es) && (State(es).total <= 0 || Confirmations(es) > 0)
  }

  ghost predicate Guarded(s: Sys) {
    var es := s.rows.events;
    && Confirmations(es) + |Holders(s.pending)| <= |Used(s.rows.tickets)|
    && OnlyAgentsWork(es)
    && (Terminal(es) ==> Earned(es))
    && (forall pid :: pid in s.pending && s.pending[pid].CloseChecked? ==> Earned(es))
  }

  lemma {:induction false} ConfirmationSeen(es: seq<Event>, i: nat)
    requires i < |es| && es[i].fact.ReviewConfirmed?
    ensures Confirmations(es) > 0
  {
    if i < |es| - 1 { ConfirmationSeen(es[..|es| - 1], i); }
  }

  lemma {:induction false} ConfirmationsGrow(es: seq<Event>, more: seq<Event>)
    ensures Confirmations(es) <= Confirmations(es + more)
  {
    if more == [] {
      assert es + more == es;
    } else {
      ConfirmationsGrow(es, more[..|more| - 1]);
      assert (es + more)[..|es + more| - 1] == es + more[..|more| - 1];
    }
  }

  /** With only agent work in the log, a target above zero is reached only under a confirmation. */
  lemma CloseNeedsConfirmation(h: Hash, r: MissionRows, contract: Option<seq<Clause>>)
    requires CloseRead(h, r, contract).Ok? && OnlyAgentsWork(r.events)
    ensures Earned(r.events)
  {
    hide Report, State;
    var es := r.events;
    var s := State(es);
    if s.total > 0 {
      CompletedInFirstOrder(es);
      var at :| Places(es, s.completed, true, at);
      assert FirstAt(es, at[0], true, s.completed[0]);
      var i := at[0];
      OkHasStart(h, es, r.head);
      assert AgentWork(es[i]) && es[i].sequence > 0;
      assert !Uncovered(es, i);
      var j :| 0 <= j < |es| && es[j].fact.ReviewConfirmed?;
      ConfirmationSeen(es, j);
    }
  }

  ghost predicate Confirms(h: Hash, mid: string, s: Sys, op: Op) {
    EventOf(h, mid, s, op).Some? && EventOf(h, mid, s, op).value.fact.ReviewConfirmed?
  }

  /** A confirmation, done or half done, never comes without a newly consumed ticket. */
  ghost predicate Paid(h: Hash, mid: string, s: Sys, op: Op) {
    var s' := Apply(h, mid, s, op);
    |Holders(s'.pending)| - |Holders(s.pending)| + (if Confirms(h, mid, s, op) then 1 else 0)
      <= |Used(s'.rows.tickets)| - |Used(s.rows.tickets)|
  }

  lemma OneMoreUsed(tickets: map<string, bool>, k: string)
    requires k in tickets && !tickets[k]
    ensures |Used(tickets[k := true])| == |Used(tickets)| + 1
  {
    assert Used(tickets[k := true]) == Used(tickets) + {k} && k !in Used(tickets);
  }

  lemma OneMoreHolder(pending: map<nat, Pending>, pid: nat)
    requires pid !in pending
    ensures |Holders(pending[pid := TicketConsumed])| == |Holders(pending)| + 1
  {
    assert Holders(pending[pid := TicketConsumed]) == Holders(pending) + {pid} && pid !in Holders(pending);
  }

  /** What consuming does: nothing, or mark the ticket, and let an idle process go on to confirm. */
  lemma ConsumeMoves(h: Hash, mid: string, s: Sys, pid: nat, ticket: string)
    ensures var s' := Apply(h, mid, s, Consume(pid, ticket));
      var k := h(ticket);
      && !Confirms(h, mid, s, Consume(pid, ticket))
      && (if k in s.rows.tickets && !s.rows.tickets[k]
          then s'.rows.tickets == s.rows.tickets[k := true]
               && s'.pending == if pid in s.pending then s.pending else s.pending[pid := TicketConsumed]
          else s' == s)
  {
    hide CreateMission, Append, Claim, Complete, Reconcile, CheckpointRead, CheckpointWrite, CloseRead, CloseWrite,
      RequestApproval, Approve,
      IssueTicket, CanAppend, IsStarted, Attempts, ActionKey, Reopened;
  }

  lemma ConsumePays(h: Hash, mid: string, s: Sys, pid: nat, ticket: string)
    ensures Paid(h, mid, s, Consume(pid, ticket))
  {
    hide Apply, Confirms, Used, Holders;
    ConsumeMoves(h, mid, s, pid, ticket);
    var k := h(ticket);
    if k in s.rows.tickets && !s.rows.tickets[k] {
      OneMoreUsed(s.rows.tickets, k);
      if pid !in s.pending { OneMoreHolder(s.pending, pid); }
    }
  }

  lemma ConfirmPays(h: Hash, mid: string, s: Sys, pid: nat, who: string, now: string)
    ensures Paid(h, mid, s, Confirm(pid, who, now))
  {
    hide Fits, IsMissionId, Recorded;
    var s' := Apply(h, mid, s, Confirm(pid, who, now));
    RecordedKeepsTickets(h, mid, s.rows, ReviewConfirmed(who), Human, now);
    assert s'.rows.tickets == s.rows.tickets;
    if pid in s.pending && s.pending[pid].TicketConsumed? {
      assert Holders(s'.pending) == Holders(s.pending) - {pid} && pid in Holders(s.pending);
    }
  }

  lemma RecordedKeepsTickets(h: Hash, mid: string, r: MissionRows, f: Fact, o: Origin, now: string)
    ensures Recorded(h, mid, r, f, o, now).tickets == r.tickets
  {
    hide NewEvent;
  }

  lemma DiePays(h: Hash, mid: string, s: Sys, pid: nat)
    ensures Paid(h, mid, s, Die(pid))
  {
    var s' := Apply(h, mid, s, Die(pid));
    assert Holders(s'.pending) <= Holders(s.pending);
    SubsetSize(Holders(s'.pending), Holders(s.pending));
  }

  lemma IssuePays(h: Hash, mid: string, s: Sys, ticket: string)
    ensures Paid(h, mid, s, Issue(ticket))
  {
    hide IsMissionId;
    var s' := Apply(h, mid, s, Issue(ticket));
    assert Used(s'.rows.tickets) == Used(s.rows.tickets);
  }

  lemma EveryWorkerPays(h: Hash, mid: string, s: Sys, op: Op)
    requires WorkerOp(op)
    ensures Paid(h, mid, s, op)
  {
    hide Apply, EventOf, Holders, Used, Paid;
    match op
    case Consume(pid, ticket) => ConsumePays(h, mid, s, pid, ticket);
    case Confirm(pid, who, now) => ConfirmPays(h, mid, s, pid, who, now);
    case Die(pid) => DiePays(h, mid, s, pid);
    case Issue(ticket) => IssuePays(h, mid, s, ticket);
    case _ =>
      OthersKeepTickets(h, mid, s, op);
      OthersPay(h, mid, s, op);
  }

  lemma OthersPay(h: Hash, mid: string, s: Sys, op: Op)
    requires var s' := Apply(h, mid, s, op);
      s'.rows.tickets == s.rows.tickets && |Holders(s'.pending)| <= |Holders(s.pending)| && !Confirms(h, mid, s, op)
    ensures Paid(h, mid, s, op)
  {
    hide Apply, EventOf;
  }

  lemma OthersKeepTickets(h: Hash, mid: string, s: Sys, op: Op)
    requires WorkerOp(op) && !op.Consume? && !op.Confirm? && !op.Die? && !op.Issue?
    ensures var s' := Apply(h, mid, s, op);
      && s'.rows.tickets == s.rows.tickets && |Holders(s'.pending)| <= |Holders(s.pending)|
      && !Confirms(h, mid, s, op)
  {
    hide NewEvent, Report, CloseRead, CheckpointRead, HasStart, Claimed, Settled, MayClaim, Fits, IsMissionId,
      ActionKey;
    var s' := Apply(h, mid, s, op);
    assert Holders(s'.pending) <= Holders(s.pending);
    SubsetSize(Holders(s'.pending), Holders(s.pending));
  }

  lemma ApplyUsedStays(h: Hash, mid: string, s: Sys, op: Op, k: string)
    requires k in Used(s.rows.tickets)
    ensures k in Used(Apply(h, mid, s, op).rows.tickets)
  {
    hide NewEvent, Report, ModeOf, ApprovalDigest, Fits, IsMissionId, CheckpointRead, CloseRead, HasStart, Claimed,
      Settled, MayClaim, ActionKey;
  }

  lemma {:induction false} ExecUsedStays(h: Hash, mid: string, s: Sys, ops: seq<Op>, k: string)
    requires k in Used(s.rows.tickets)
    ensures k in Used(Exec(h, mid, s, ops).rows.tickets)
    decreases ops
  {
    hide Apply, Used;
    if ops != [] {
      ApplyUsedStays(h, mid, s, ops[0], k);
      ExecUsedStays(h, mid, Apply(h, mid, s, ops[0]), ops[1..], k);
    }
  }

  /** Whatever happens after a ticket is redeemed, redeeming it again finds it used. */
  lemma TicketConsumedOnce(h: Hash, mid: string, s: Sys, pid: nat, ticket: string, ops: seq<Op>)
    requires ConsumeTicket(h, s.rows, ticket).outcome == Ok(true)
    ensures var s' := Exec(h, mid, Apply(h, mid, s, Consume(pid, ticket)), ops);
      ConsumeTicket(h, s'.rows, ticket) == Txn(s'.rows, Ok(false))
  {
    var s1 := Apply(h, mid, s, Consume(pid, ticket));
    assert h(ticket) in Used(s1.rows.tickets);
    ExecUsedStays(h, mid, s1, ops, h(ticket));
    hide Apply;
  }

  lemma WorkFrom(h: Hash, mid: string, s: Sys, op: Op)
    requires WorkerOp(op) && EventOf(h, mid, s, op).Some? && EventOf(h, mid, s, op).value.fact.WorkCompleted?
    ensures EventOf(h, mid, s, op).value.origin == ExternalAgent
  {
    hide Recorded, Report, Claim, CreateMission, CheckpointWrite, Fits, IsMissionId, HasStart;
  }

  lemma EarnedGrows(es: seq<Event>, es': seq<Event>)
    requires Earned(es) && es <= es'
    ensures Earned(es')
  {
    hide State;
    StateGrows(es, es');
    ConfirmationsGrow(es, es'[|es|..]);
    assert es' == es + es'[|es|..];
  }

  /** Confirmations and work after one step. */
  lemma GrownCounts(es: seq<Event>, es': seq<Event>, d: Option<Draft>)
    requires GrownBy(es, es', d)
    ensures Confirmations(es') == Confirmations(es) + if d.Some? && d.value.fact.ReviewConfirmed? then 1 else 0
    ensures OnlyAgentsWork(es) && (d.Some? && d.value.fact.WorkCompleted? ==> d.value.origin == ExternalAgent) ==>
              OnlyAgentsWork(es')
    ensures Terminal(es') <==> Terminal(es) || (d.Some? && d.value.fact.MissionCompleted?)
  {
    if d.Some? {
      assert es'[..|es'| - 1] == es;
      TerminalStep(es, es'[|es|]);
    }
  }

  lemma ApplyGuarded(h: Hash, mid: string, s: Sys, op: Op)
    requires Live(h, mid, s) && Guarded(s) && WorkerOp(op)
    ensures Guarded(Apply(h, mid, s, op))
  {
    hide Live, Apply, EventOf, CloseRead, Terminal, Holders, Used, Earned, Confirmations, OnlyAgentsWork, GrownBy,
      Numbered, WorkerOp;
    ApplyGrows(h, mid, s, op);
    EveryWorkerPays(h, mid, s, op);
    var s' := Apply(h, mid, s, op);
    var d := EventOf(h, mid, s, op);
    GrownCounts(s.rows.events, s'.rows.events, d);
    if Earned(s.rows.events) { EarnedGrows(s.rows.events, s'.rows.events); }
    if d.Some? && d.value.fact.WorkCompleted? { WorkFrom(h, mid, s, op); }
    if d.Some? && d.value.fact.MissionCompleted? { TerminalFrom(h, mid, s, op); }
    forall pid | pid in s'.pending && s'.pending[pid].CloseChecked? ensures Earned(s'.rows.events) {
      CloseCheckedFrom(h, mid, s, op, pid);
      if !(pid in s.pending && s.pending[pid] == s'.pending[pid]) { CloseNeedsConfirmation(h, s.rows, op.contract); }
    }
  }

  lemma {:induction false} ExecGuarded(h: Hash, mid: string, s: Sys, ops: seq<Op>)
    requires Live(h, mid, s) && Guarded(s) && forall i :: 0 <= i < |ops| ==> WorkerOp(ops[i])
    ensures Guarded(Exec(h, mid, s, ops))
    decreases ops
  {
    hide Guarded, Apply;
    if ops != [] {
      ApplyLive(h, mid, s, ops[0]);
      ApplyGuarded(h, mid, s, ops[0]);
      forall i | 0 <= i < |ops[1..]| ensures WorkerOp(ops[1..][i]) { assert ops[1..][i] == ops[i + 1]; }
      ExecGuarded(h, mid, Apply(h, mid, s, ops[0]), ops[1..]);
    }
  }

  /**
   In every worker run the confirmations in the log never outnumber the consumed
   tickets; and while no ticket is consumed, a mission with a target above zero is
   neither closed nor verified complete, whatever environment and contract are
   asked about.
   */
  lemma WorkersNeedTickets(h: Hash, mid: string, ops: seq<Op>, environment: Option<Snapshot>,
                           contract: Option<seq<Clause>>)
    requires forall i :: 0 <= i < |ops| ==> WorkerOp(ops[i])
    ensures var r := Exec(h, mid, START, ops).rows;
      && Confirmations(r.events) <= |Used(r.tickets)|
      && (r.mission.Some? && r.mission.value.total > 0 && Used(r.tickets) == {} ==>
            !Terminal(r.events) && ModeOf(h, Query(r, environment, contract)) != VerifiedComplete)
  {
    hide Apply, Report;
    assert Holders(START.pending) == {} && Used(START.rows.tickets) == {};
    StartLive(h, mid);
    assert Guarded(START);
    ExecLive(h, mid, START, ops);
    ExecGuarded(h, mid, START, ops);
    var r := Exec(h, mid, START, ops).rows;
    if HasStart(r.events) {
      ReplayGrows(Initial(r.events[0]), r.events[1..]);
    }
  }
}
