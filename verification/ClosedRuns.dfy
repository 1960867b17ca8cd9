/** In every run a mission that counts as verified complete has earned it. */
module ClosedRuns {
  import opened Prelude
  import opened Models
  import opened Chain
  import opened Projection
  import opened Contracts
  import opened Rows
  import opened Ledger
  import opened Recovery
  import opened Closing
  import opened Runs

  /** Numbers a closing process read earlier are still reached by the log. */
  ghost predicate StillReached(es: seq<Event>, p: Pending) {
    p.CloseChecked? ==>
      && HasStart(es) && p.total == State(es).total && p.completed <= |State(es).completed|
      && (p.total == 0 || p.completed >= p.total)
  }

  ghost predicate ClosedRight(s: Sys) {
    && (Terminal(s.rows.events) ==> HasStart(s.rows.events) && TargetMet(State(s.rows.events)))
    && forall pid :: pid in s.pending ==> StillReached(s.rows.events, s.pending[pid])
  }

  /** A closing process's numbers come from its own checks. */
  lemma CloseCheckedFrom(h: Hash, mid: string, s: Sys, op: Op, pid: nat)
    requires var s' := Apply(h, mid, s, op); pid in s'.pending && s'.pending[pid].CloseChecked?
    ensures var s' := Apply(h, mid, s, op);
      || (pid in s.pending && s.pending[pid] == s'.pending[pid])
      || (op.ReadClose? && s'.rows == s.rows
          && CloseRead(h, s.rows, op.contract) == Ok((s'.pending[pid].completed, s'.pending[pid].total)))
  {
    hide Recorded, Report, ModeOf, ApprovalDigest, Fits, IsMissionId, CheckpointRead, CloseRead, HasStart, Claim,
      Complete, Reconcile,
      RequestApproval, Approve, CreateMission, Append, CheckpointWrite;
  }

  /** Only a closing process records the terminal event. */
  lemma TerminalFrom(h: Hash, mid: string, s: Sys, op: Op)
    requires EventOf(h, mid, s, op).Some? && EventOf(h, mid, s, op).value.fact.MissionCompleted?
    ensures exists pid :: pid in s.pending && s.pending[pid].CloseChecked?
  {
    hide Recorded, Report, ModeOf, ApprovalDigest, Fits, IsMissionId, HasStart, Claim, RequestApproval, Approve,
      CreateMission, CheckpointWrite;
    assert op.WriteClose?;
    assert op.pid in s.pending;
  }

  lemma StateGrows(es: seq<Event>, es': seq<Event>)
    requires HasStart(es) && es <= es'
    ensures HasStart(es') && State(es').total == State(es).total && State(es).completed <= State(es').completed
  {
    assert es' == es + es'[|es|..];
    StateAppend(es, es'[|es|..]);
    ReplayGrows(State(es), es'[|es|..]);
  }

  lemma ReadReaches(h: Hash, r: MissionRows, contract: Option<seq<Clause>>, p: Pending)
    requires p.CloseChecked? && CloseRead(h, r, contract) == Ok((p.completed, p.total))
    ensures StillReached(r.events, p)
  {
    hide Report, Unconfirmed, Evaluate;
  }

  lemma ApplyClosedRight(h: Hash, mid: string, s: Sys, op: Op)
    requires Live(h, mid, s) && ClosedRight(s)
    ensures ClosedRight(Apply(h, mid, s, op))
  {
    hide Live, Apply, EventOf, CloseRead, State, Terminal;
    ApplyGrows(h, mid, s, op);
    var s' := Apply(h, mid, s, op);
    var es, es' := s.rows.events, s'.rows.events;
    if HasStart(es) { StateGrows(es, es'); }
    forall pid | pid in s'.pending ensures StillReached(es', s'.pending[pid]) {
      if s'.pending[pid].CloseChecked? {
        CloseCheckedFrom(h, mid, s, op, pid);
        if !(pid in s.pending && s.pending[pid] == s'.pending[pid]) {
          ReadReaches(h, s.rows, op.contract, s'.pending[pid]);
        }
      }
    }
    if EventOf(h, mid, s, op).Some? {
      TerminalStep(es, es'[|es|]);
      if EventOf(h, mid, s, op).value.fact.MissionCompleted? {
        TerminalFrom(h, mid, s, op);
        var pid :| pid in s.pending && s.pending[pid].CloseChecked?;
        assert StillReached(es, s.pending[pid]);
      }
    }
  }

  lemma StartClosedRight()
    ensures ClosedRight(START)
  {
  }

  lemma {:induction false} ExecClosedRight(h: Hash, mid: string, s: Sys, ops: seq<Op>)
    requires Live(h, mid, s) && ClosedRight(s)
    ensures ClosedRight(Exec(h, mid, s, ops))
    decreases ops
  {
    hide ClosedRight, Apply;
    if ops != [] {
      ApplyLive(h, mid, s, ops[0]);
      ApplyClosedRight(h, mid, s, ops[0]);
      ExecClosedRight(h, mid, Apply(h, mid, s, ops[0]), ops[1..]);
    }
  }

  /**
   Whatever other writers did between a closing process's checks and its event:
   if `recover` says verified_complete then the chain verifies, no effect is
   unresolved, all agent work is confirmed, the distinct completed items reach the
   total, nothing pinned has drifted, and the contract asked about is satisfied.
   */
  lemma VerifiedCompleteIsEarned(h: Hash, mid: string, ops: seq<Op>, environment: Option<Snapshot>,
                                 contract: Option<seq<Clause>>)
    requires ModeOf(h, Query(Exec(h, mid, START, ops).rows, environment, contract)) == VerifiedComplete
    ensures var r := Exec(h, mid, START, ops).rows;
      && Report(h, r.events, r.head).ok
      && (forall row :: row in r.actions ==> !row.status.Started?)
      && (forall i :: 0 <= i < |r.events| && AgentWork(r.events[i]) ==>
            exists j :: i < j < |r.events| && r.events[j].fact.ReviewConfirmed?)
      && HasStart(r.events) && InFirstOrder(r.events, State(r.events).completed, true)
      && (State(r.events).total == 0 || |State(r.events).completed| >= State(r.events).total)
      && !EnvironmentDrifted(Query(r, environment, contract))
      && (contract.Some? ==> Evaluate(contract.value, r.events).satisfied)
  {
    hide Apply, Report, EnvironmentDrifted, State;
    StartLive(h, mid);
    StartClosedRight();
    ExecLive(h, mid, START, ops);
    ExecClosedRight(h, mid, START, ops);
    var r := Exec(h, mid, START, ops).rows;
    OkHasStart(h, r.events, r.head);
    CompletedInFirstOrder(r.events);
    UncertainExact(r.actions);
    forall row | row in r.actions ensures !row.status.Started? {
      assert row !in Uncertain(r.actions);
    }
    forall i | 0 <= i < |r.events| && AgentWork(r.events[i])
      ensures exists j :: i < j < |r.events| && r.events[j].fact.ReviewConfirmed?
    {
      assert !Uncovered(r.events, i);
      var j :| 0 <= j < |r.events| && r.events[j].fact.ReviewConfirmed? && r.events[j].sequence >= r.events[i].sequence;
      assert j != i;
    }
  }
}
