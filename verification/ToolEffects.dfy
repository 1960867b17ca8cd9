/**
 What each tool of the server answers and leaves behind, when its request is authorised and
 names a well-formed mission: told from the rows before, tool by tool.
 */
module ToolEffects {
  import opened Prelude
  import opened Json
  import opened Models
  import opened Projection
  import opened Rows
  import opened Ledger
  import opened Closing
  import opened Runs
  import opened Service

  const OK := ToolReply(true, "")
  const INVALID := ToolReply(false, "invalid_arguments")

  /** The request reaches its handler. */
  ghost predicate Reaches(p: Policy, q: ToolRequest) {
    Authorize(p, q).Ok? && IsMissionId(q.mission)
  }

  /** The rows of the request's mission after it was served. */
  ghost function After(h: Hash, p: Policy, r: MissionRows, q: ToolRequest, now: string): MissionRows {
    Exec(h, q.mission, Sys(r, map[]), OpsFor(p, q, now)).rows
  }

  /** A mission is created with its start, or refused as an argument error. */
  lemma StartRecords(h: Hash, p: Policy, r: MissionRows, q: ToolRequest, now: string)
    requires Reaches(p, q) && q.tool.StartMission?
    ensures var r' := After(h, p, r, q, now);
      var goal, total := q.tool.goal, q.tool.total;
      if CanCreate(q.mission, r, goal, total) then
        && Answer(h, p, r, q, now) == Ok(OK)
        && OneMore(q.mission, r, r', MissionStarted(goal, total), Deterministic, now)
        && Beside(r') == Beside(r).(mission := Some(Mission(q.mission, goal, total)))
      else Answer(h, p, r, q, now) == Ok(INVALID) && r' == r
  {
    hide Authorize, ResolveClient, IsMissionId, Exec, Rows.CreateMission, OneMore;
    SimpleOps(h, q.mission, r, Create(q.tool.goal, q.tool.total, now));
    CreateExact(h, q.mission, r, q.tool.goal, q.tool.total, now);
    CreateRefusals(h, q.mission, r, q.tool.goal, q.tool.total, now);
  }

  lemma CreateRefusals(h: Hash, mid: string, r: MissionRows, goal: string, total: int, now: string)
    ensures var t := Rows.CreateMission(h, mid, r, goal, total, now);
      t.outcome.Raised? ==> t.rows == r && (t.outcome.error == ValueError || t.outcome.error == IntegrityError)
  {
    hide IsMissionId, IsBlank, Recorded;
  }

  /** Work that an agent reports is recorded as the agent's. */
  lemma WorkRecords(h: Hash, p: Policy, r: MissionRows, q: ToolRequest, now: string)
    requires Reaches(p, q) && q.tool.RecordWork?
    ensures var r' := After(h, p, r, q, now);
      var f := WorkCompleted(q.tool.item);
      if Fits(f) && r.mission.Some? then
        && Answer(h, p, r, q, now) == Ok(OK)
        && OneMore(q.mission, r, r', f, ExternalAgent, now) && Beside(r') == Beside(r)
      else Answer(h, p, r, q, now) == Ok(INVALID) && r' == r
  {
    hide Authorize, ResolveClient, IsMissionId, Exec, Rows.Append, OneMore, Fits;
    SimpleOps(h, q.mission, r, AppendFact(WorkCompleted(q.tool.item), ExternalAgent, now));
    AppendExact(h, q.mission, r, WorkCompleted(q.tool.item), ExternalAgent, now);
    AppendRefusals(h, q.mission, r, WorkCompleted(q.tool.item), ExternalAgent, now);
  }

  lemma AppendRefusals(h: Hash, mid: string, r: MissionRows, f: Fact, o: Origin, now: string)
    ensures var t := Rows.Append(h, mid, r, f, o, now);
      t.outcome.Raised? ==> t.rows == r && (t.outcome.error == ValueError || t.outcome.error == KeyError)
  {
    hide IsMissionId, Fits, Recorded, NewEvent;
  }

  /** A checkpoint pictures the log as it is and is numbered by its last event. */
  lemma CheckpointRecords(h: Hash, p: Policy, r: MissionRows, q: ToolRequest, now: string)
    requires Reaches(p, q) && q.tool.TakeCheckpoint?
    ensures var r' := After(h, p, r, q, now);
      if HasStart(r.events) && forall c :: c in r.checkpoints ==> c.sequence != r.events[|r.events| - 1].sequence then
        var n := r.events[|r.events| - 1].sequence;
        && Answer(h, p, r, q, now) == Ok(OK)
        && exists s :: Pictures(r.events, s)
             && var c := CheckpointRow(n, Canonical(StateJson(s)), h(Canonical(StateJson(s))), "tool");
             && Beside(r') == Beside(r).(checkpoints := r.checkpoints + [c])
             && OneMore(q.mission, r, r', CheckpointCreated(n, c.digest, "tool"), Deterministic, now)
      else Answer(h, p, r, q, now) == Ok(INVALID) && r' == r
  {
    hide Authorize, ResolveClient, IsMissionId, Exec, CheckpointWrite, OneMore, State, Pictures, Canonical, StateJson;
    CheckpointOps(h, q.mission, r, now);
    if HasStart(r.events) {
      StatePictures(r.events);
      var s := State(r.events);
      var n := r.events[|r.events| - 1].sequence;
      CheckpointExact(h, q.mission, r, n, Canonical(StateJson(s)), "tool", now);
      CheckpointRefusals(h, q.mission, r, n, Canonical(StateJson(s)), "tool", now);
    }
  }

  lemma CheckpointRefusals(h: Hash, mid: string, r: MissionRows, n: int, payload: string, reason: string, now: string)
    ensures var t := CheckpointWrite(h, mid, r, n, payload, reason, now);
      t.outcome.Raised? ==> t.rows == r && t.outcome.error == IntegrityError
  {
    hide Recorded;
  }

  /** The server's claims have no budget: only the action's own row decides. */
  lemma ClaimRecords(h: Hash, p: Policy, r: MissionRows, q: ToolRequest, now: string)
    requires Reaches(p, q) && q.tool.ClaimTool?
    ensures var r' := After(h, p, r, q, now);
      var t, i := r.actions, IndexOf(r.actions, ActionKey(h, q.tool.kind, q.tool.args));
      if i < |t| && t[i].status == Started then
        Answer(h, p, r, q, now) == Ok(ToolReply(false, "uncertain_action")) && r' == r
      else
        && Answer(h, p, r, q, now) == Ok(OK)
        && if i < |t| && t[i].status == Completed then r' == r
           else ClaimGranted(h, q.mission, r, r', q.tool.kind, q.tool.args, now)
  {
    hide Authorize, ResolveClient, IsMissionId, Exec, Ledger.Claim, ClaimGranted, ActionKey;
    SimpleOps(h, q.mission, r, ClaimAction(NO_BUDGET, q.tool.kind, q.tool.args, now));
    ClaimExact(h, NO_BUDGET, q.mission, r, q.tool.kind, q.tool.args, now);
  }

  /** A completion settles its started row, whatever kind of action it is. */
  lemma CompleteRecords(h: Hash, p: Policy, r: MissionRows, q: ToolRequest, now: string)
    requires Reaches(p, q) && q.tool.CompleteTool?
    ensures var r' := After(h, p, r, q, now);
      var t, i, key, eid := r.actions, IndexOf(r.actions, q.tool.key), q.tool.key, q.tool.externalId;
      if i < |t| && t[i].status == Started then
        var result := if q.tool.result.None? then Obj([]) else q.tool.result.value;
        && Answer(h, p, r, q, now) == Ok(OK)
        && RowSettled(q.mission, r, r', key, Completed, eid, result, ActionCompleted(key, eid, result), now)
      else Answer(h, p, r, q, now) == Ok(INVALID) && r' == r
  {
    hide Authorize, ResolveClient, IsMissionId, Exec, Ledger.Complete, RowSettled;
    SimpleOps(h, q.mission, r, CompleteAction(q.tool.key, q.tool.externalId, q.tool.result, now));
    CompleteExact(h, q.mission, r, q.tool.key, q.tool.externalId, q.tool.result, now);
  }

  /** A reconciliation settles its started row by what was found. */
  lemma ReconcileRecords(h: Hash, p: Policy, r: MissionRows, q: ToolRequest, now: string)
    requires Reaches(p, q) && q.tool.ReconcileTool?
    ensures var r' := After(h, p, r, q, now);
      var t, i, key, eid := r.actions, IndexOf(r.actions, q.tool.key), q.tool.key, q.tool.externalId;
      if i < |t| && t[i].status == Started then
        && Answer(h, p, r, q, now) == Ok(OK)
        && RowSettled(q.mission, r, r', key, if q.tool.occurred then Completed else NotOccurred, eid, Obj([]),
                      ActionReconciled(key, q.tool.occurred, eid), now)
      else Answer(h, p, r, q, now) == Ok(INVALID) && r' == r
  {
    hide Authorize, ResolveClient, IsMissionId, Exec, Ledger.Reconcile, RowSettled;
    SimpleOps(h, q.mission, r, ReconcileAction(q.tool.key, q.tool.occurred, q.tool.externalId, None, now));
    ReconcileExact(h, q.mission, r, q.tool.key, q.tool.occurred, q.tool.externalId, None, now);
  }

  /** Closing asks for no contract. */
  lemma CloseRecords(h: Hash, p: Policy, r: MissionRows, q: ToolRequest, now: string)
    requires Reaches(p, q) && q.tool.CloseTool?
    ensures var r' := After(h, p, r, q, now);
      if Closable(h, q.mission, r, None) then
        && Answer(h, p, r, q, now) == Ok(OK)
        && exists s :: Pictures(r.events, s) && Beside(r') == Beside(r)
             && OneMore(q.mission, r, r', MissionCompleted(|s.completed|, s.total), Deterministic, now)
      else Answer(h, p, r, q, now) == Ok(INVALID) && r' == r
  {
    hide Authorize, ResolveClient, IsMissionId, Exec, Closing.CompleteMission, Closable, Pictures, OneMore;
    CloseOps(h, q.mission, r, now);
    CloseExact(h, q.mission, r, None, now);
  }

  /** The ticket of a confirmation: its own argument, or else the request's token; an empty one is none. */
  ghost predicate Presents(q: ToolRequest, ticket: string) {
    && q.tool.ConfirmTool? && ticket != ""
    && if q.tool.ticket.Some? && q.tool.ticket.value != "" then ticket == q.tool.ticket.value
       else q.confirmToken == Some(ticket)
  }

  /** With tickets, a confirmation without a redeemable ticket is refused loudly. */
  lemma ConfirmRefused(h: Hash, p: Policy, r: MissionRows, q: ToolRequest, now: string)
    requires Reaches(p, q) && q.tool.ConfirmTool? && p.requireConfirmTicket
    requires forall t :: Presents(q, t) ==> h(t) !in r.tickets || r.tickets[h(t)]
    ensures Answer(h, p, r, q, now) == Raised(AuthorizationError) && After(h, p, r, q, now) == r
  {
    hide Authorize, ResolveClient, IsMissionId, Exec, Rows.Append;
    NoOps(h, q.mission, Sys(r, map[]));
    var t := Or(q.tool.ticket, q.confirmToken);
    if t.Some? && t.value != "" {
      assert Presents(q, t.value);
      ConfirmOps(h, q.mission, r, t.value, ResolveClient(p, q).value, now);
    }
  }

  /** A redeemed ticket is used up; the confirmation is a human's and names the proven client. */
  lemma ConfirmRecords(h: Hash, p: Policy, r: MissionRows, q: ToolRequest, who: string, ticket: string, now: string)
    requires Reaches(p, q) && q.tool.ConfirmTool? && Service.Proven(p, q, who)
    requires p.requireConfirmTicket ==> Presents(q, ticket) && h(ticket) in r.tickets && !r.tickets[h(ticket)]
    ensures var r' := After(h, p, r, q, now);
      var used := if p.requireConfirmTicket then r.tickets[h(ticket) := true] else r.tickets;
      if Fits(ReviewConfirmed(who)) && r.mission.Some? then
        && Answer(h, p, r, q, now) == Ok(OK)
        && OneMore(q.mission, r, r', ReviewConfirmed(who), Human, now) && Beside(r') == Beside(r).(tickets := used)
      else Answer(h, p, r, q, now) == Ok(INVALID) && r' == r.(tickets := used)
  {
    ResolveExact(p, q);
    hide Authorize, ResolveClient, IsMissionId, Exec, Rows.Append, OneMore, Fits, Service.Proven;
    var f := ReviewConfirmed(who);
    if p.requireConfirmTicket {
      var s := r.(tickets := r.tickets[h(ticket) := true]);
      ConfirmOps(h, q.mission, r, ticket, who, now);
      AppendExact(h, q.mission, s, f, Human, now);
      AppendRefusals(h, q.mission, s, f, Human, now);
      OneMoreIgnoresTickets(q.mission, r, s.tickets, After(h, p, r, q, now), f, now);
    } else {
      SimpleOps(h, q.mission, r, AppendFact(f, Human, now));
      AppendExact(h, q.mission, r, f, Human, now);
      AppendRefusals(h, q.mission, r, f, Human, now);
    }
  }

  lemma OneMoreIgnoresTickets(mid: string, r: MissionRows, tickets: map<string, bool>, r': MissionRows, f: Fact,
                              now: string)
    ensures OneMore(mid, r.(tickets := tickets), r', f, Human, now) <==> OneMore(mid, r, r', f, Human, now)
  {
  }

  /** What only reads changes nothing, and fails only where there is no start to project. */
  lemma ReadingRecordsNothing(h: Hash, p: Policy, r: MissionRows, q: ToolRequest, now: string)
    requires Reaches(p, q)
    requires q.tool.StatusTool? || q.tool.BriefingTool? || q.tool.InspectTool? || q.tool.ResumeTool?
             || q.tool.ListActionsTool?
    ensures After(h, p, r, q, now) == r
    ensures Answer(h, p, r, q, now)
            == Ok(if q.tool.ResumeTool? || q.tool.ListActionsTool? || HasStart(r.events) then OK else INVALID)
  {
    hide Authorize, ResolveClient, IsMissionId, Exec, State;
    NoOps(h, q.mission, Sys(r, map[]));
  }

  /** A request that does not reach its handler changes nothing; a malformed mission id is an argument error. */
  lemma UnreachedRecordsNothing(h: Hash, p: Policy, r: MissionRows, q: ToolRequest, now: string)
    requires !Reaches(p, q)
    ensures After(h, p, r, q, now) == r
    ensures ResolveClient(p, q).Ok? && !IsMissionId(q.mission) ==> Answer(h, p, r, q, now) == Ok(INVALID)
  {
    hide Authorize, ResolveClient, IsMissionId, Exec;
    NoOps(h, q.mission, Sys(r, map[]));
  }
}
