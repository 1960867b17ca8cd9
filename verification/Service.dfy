/** The tool server of `service.py`: who may do what, and what each tool does to the store. */
module Service {
  import opened Prelude
  import opened Json
  import opened Models
  import opened Projection
  import opened Contracts
  import opened Rows
  import opened Ledger
  import opened Recovery
  import opened Closing
  import opened Runs
  import opened WorkerRuns
  import opened Store
  import opened LedgerStore

  datatype Tool =
    | StartMission(goal: string, total: int)
    | RecordWork(item: string)
    | TakeCheckpoint
    | ClaimTool(kind: string, args: Json)
    | CompleteTool(key: string, externalId: Option<string>, result: Option<Json>)
    | ReconcileTool(key: string, occurred: bool, externalId: Option<string>)
    | ConfirmTool(ticket: Option<string>)
    | CloseTool
    | StatusTool
    | BriefingTool
    | InspectTool
    | ResumeTool
    | ListActionsTool

  /** The tools of `READ_ONLY_TOOLS` that are asked about one mission. */
  predicate ReadOnly(tool: Tool) {
    tool.StatusTool? || tool.BriefingTool? || tool.InspectTool? || tool.ResumeTool? || tool.ListActionsTool?
  }

  /** The read-only tools that project the mission's state, and so fail without a start. */
  predicate Projects(tool: Tool) {
    tool.StatusTool? || tool.BriefingTool? || tool.InspectTool?
  }

  datatype ToolRequest = ToolRequest(
    tool: Tool, mission: string, client: string, confirmToken: Option<string>, clientToken: Option<string>)

  /** The server's fields, which it never changes. */
  datatype Policy = Policy(
    mutatingClients: seq<string>,
    confirmToken: Option<string>,
    requireConfirmTicket: bool,
    transportClient: Option<string>,
    clientTokens: map<string, string>)

  datatype ToolReply = ToolReply(ok: bool, code: string)

  /** `x or y` on optional strings: the empty string counts as missing. */
  function Or(x: Option<string>, y: Option<string>): Option<string> {
    if x.Some? && x.value != "" then x else y
  }

  predicate IsAscii(s: string) {
    forall i :: 0 <= i < |s| ==> s[i] < 128 as char
  }

  /** `resolve_client`: the proven identity. `compare_digest` refuses strings outside ASCII with a TypeError. */
  function ResolveClient(p: Policy, q: ToolRequest): Outcome<string> {
    if p.transportClient.Some? then Ok(p.transportClient.value)
    else if p.clientTokens != map[] then
      var presented := match q.clientToken case None => "" case Some(t) => t;
      if q.client !in p.clientTokens || p.clientTokens[q.client] == "" then Raised(AuthorizationError)
      else if !IsAscii(presented) || !IsAscii(p.clientTokens[q.client]) then Raised(TypeError)
      else if presented != p.clientTokens[q.client] then Raised(AuthorizationError)
      else Ok(q.client)
    else Ok(q.client)
  }

  /** `_authorize`. */
  function Authorize(p: Policy, q: ToolRequest): (r: Outcome<()>)
    ensures r.Ok? ==> ResolveClient(p, q).Ok?
  {
    var client := ResolveClient(p, q);
    if client.Raised? then Raised(client.error)
    else if ReadOnly(q.tool) then Ok(())
    else if client.value !in p.mutatingClients then Raised(AuthorizationError)
    else if q.tool.ConfirmTool? && !p.requireConfirmTicket && (p.confirmToken.None? || q.confirmToken != p.confirmToken)
    then Raised(AuthorizationError)
    else Ok(())
  }

  /**
   `who` is the proven identity of a request: the transport's, when it is pinned; the
   request's own claim, when the server knows no tokens; and otherwise the claimed
   client, when the request presents the token the server holds for it.
   */
  ghost predicate Proven(p: Policy, q: ToolRequest, who: string) {
    if p.transportClient.Some? then who == p.transportClient.value
    else if p.clientTokens == map[] then who == q.client
    else
      && who == q.client && who in p.clientTokens && q.clientToken == Some(p.clientTokens[who])
      && p.clientTokens[who] != "" && forall c :: c in p.clientTokens[who] ==> c < 128 as char
  }

  /** The proven identity is on the allow-list. */
  ghost predicate Listed(p: Policy, q: ToolRequest) {
    exists who :: Proven(p, q, who) && who in p.mutatingClients
  }

  /** A token outside ASCII, presented or held, cannot be compared. */
  ghost predicate Uncomparable(p: Policy, q: ToolRequest) {
    && p.transportClient.None? && q.client in p.clientTokens && p.clientTokens[q.client] != ""
    && ((q.clientToken.Some? && exists c :: c in q.clientToken.value && c >= 128 as char)
        || exists c :: c in p.clientTokens[q.client] && c >= 128 as char)
  }

  lemma ResolveExact(p: Policy, q: ToolRequest)
    ensures forall who :: ResolveClient(p, q) == Ok(who) <==> Proven(p, q, who)
    ensures ResolveClient(p, q) == Raised(TypeError) <==> Uncomparable(p, q)
    ensures ResolveClient(p, q).Raised? ==> ResolveClient(p, q).error in {TypeError, AuthorizationError}
  {
    AsciiExact("");
    if q.clientToken.Some? { AsciiExact(q.clientToken.value); }
    if q.client in p.clientTokens { AsciiExact(p.clientTokens[q.client]); }
    hide IsAscii;
  }

  lemma OneIdentity(p: Policy, q: ToolRequest)
    ensures ResolveClient(p, q).Ok? <==> exists who :: Proven(p, q, who)
    ensures Listed(p, q) <==> ResolveClient(p, q).Ok? && ResolveClient(p, q).value in p.mutatingClients
  {
    ResolveExact(p, q);
    hide ResolveClient, Proven, Uncomparable;
    if ResolveClient(p, q).Ok? { assert Proven(p, q, ResolveClient(p, q).value); }
  }

  lemma AsciiExact(s: string)
    ensures IsAscii(s) <==> forall c :: c in s ==> c < 128 as char
    ensures !IsAscii(s) <==> exists c :: c in s && c >= 128 as char
  {
    if !IsAscii(s) {
      var i :| 0 <= i < |s| && s[i] >= 128 as char;
      var c := s[i];
      assert c in s;
    }
  }

  /**
   Who may call what, tool by tool: what changes the store needs a proven client on the
   allow-list, and confirming without tickets the operator's token besides; what only
   reads needs a proven client.
   */
  lemma AuthorizeExact(p: Policy, q: ToolRequest)
    ensures q.tool.StartMission? || q.tool.RecordWork? || q.tool.TakeCheckpoint? || q.tool.ClaimTool?
            || q.tool.CompleteTool? || q.tool.ReconcileTool? || q.tool.CloseTool? ==>
              (Authorize(p, q).Ok? <==> Listed(p, q))
    ensures q.tool.ConfirmTool? ==>
              (Authorize(p, q).Ok? <==>
                 Listed(p, q) && (p.requireConfirmTicket || (p.confirmToken.Some? && q.confirmToken == p.confirmToken)))
    ensures q.tool.StatusTool? || q.tool.BriefingTool? || q.tool.InspectTool? || q.tool.ResumeTool?
            || q.tool.ListActionsTool? ==>
              (Authorize(p, q).Ok? <==> exists who :: Proven(p, q, who))
    ensures Authorize(p, q).Raised? ==>
              Authorize(p, q).error == if Uncomparable(p, q) then TypeError else AuthorizationError
  {
    ResolveExact(p, q);
    OneIdentity(p, q);
    hide ResolveClient, Proven, Uncomparable, Listed;
  }

  /** Nobody but a proven client on the allow-list makes the server do anything to the store. */
  lemma OnlyListedMove(p: Policy, q: ToolRequest, now: string)
    requires OpsFor(p, q, now) != []
    ensures Listed(p, q)
    ensures q.tool.StartMission? || q.tool.RecordWork? || q.tool.TakeCheckpoint? || q.tool.ClaimTool?
            || q.tool.CompleteTool? || q.tool.ReconcileTool? || q.tool.CloseTool? || q.tool.ConfirmTool?
    ensures q.tool.ConfirmTool? && !p.requireConfirmTicket ==> p.confirmToken.Some? && q.confirmToken == p.confirmToken
  {
    AuthorizeExact(p, q);
    hide Authorize, Listed, IsMissionId;
  }

  const NO_BUDGET := RetryBudget(map[], map[])

  /** The store steps a request amounts to, as process 0. */
  function OpsFor(p: Policy, q: ToolRequest, now: string): seq<Op> {
    if Authorize(p, q).Raised? || !IsMissionId(q.mission) then []
    else
      match q.tool
      case StartMission(goal, total) => [Create(goal, total, now)]
      case RecordWork(item) => [AppendFact(WorkCompleted(item), ExternalAgent, now)]
      case TakeCheckpoint => [ReadCheckpoint(0, "tool"), WriteCheckpoint(0, now)]
      case ClaimTool(kind, args) => [ClaimAction(NO_BUDGET, kind, args, now)]
      case CompleteTool(key, eid, result) => [CompleteAction(key, eid, result, now)]
      case ReconcileTool(key, occurred, eid) => [ReconcileAction(key, occurred, eid, None, now)]
      case ConfirmTool(ticket) =>
        var t := Or(ticket, q.confirmToken);
        if !p.requireConfirmTicket then [AppendFact(ReviewConfirmed(ResolveClient(p, q).value), Human, now)]
        else if t.None? || t.value == "" then []
        else [Consume(0, t.value), Confirm(0, ResolveClient(p, q).value, now)]
      case CloseTool => [ReadClose(0, None), WriteClose(0, now)]
      case _ => []
  }

  lemma ExecOne(h: Hash, mid: string, s: Sys, op: Op)
    ensures Exec(h, mid, s, [op]) == Apply(h, mid, s, op)
  {
    hide Apply;
    assert [op][1..] == [];
    assert Exec(h, mid, s, [op]) == Exec(h, mid, Apply(h, mid, s, op), []);
  }

  lemma ExecTwo(h: Hash, mid: string, s: Sys, a: Op, b: Op)
    ensures Exec(h, mid, s, [a, b]) == Apply(h, mid, Apply(h, mid, s, a), b)
  {
    hide Apply;
    assert [a, b][1..] == [b];
    assert Exec(h, mid, s, [a, b]) == Exec(h, mid, Apply(h, mid, s, a), [b]);
    ExecOne(h, mid, Apply(h, mid, s, a), b);
  }

  lemma CheckpointOps(h: Hash, mid: string, r: MissionRows, now: string)
    ensures Exec(h, mid, Sys(r, map[]), [ReadCheckpoint(0, "tool"), WriteCheckpoint(0, now)])
      == Sys(if CheckpointRead(r.events).Raised? then r
             else
               var read := CheckpointRead(r.events).value;
               CheckpointWrite(h, mid, r, read.0, read.1, "tool", now).rows, map[])
  {
    hide CheckpointRead, CheckpointWrite, CloseRead, Claim, Complete, Reconcile, CreateMission, Append,
      RequestApproval, Approve;
    ExecTwo(h, mid, Sys(r, map[]), ReadCheckpoint(0, "tool"), WriteCheckpoint(0, now));
    var s1 := Apply(h, mid, Sys(r, map[]), ReadCheckpoint(0, "tool"));
    assert CheckpointRead(r.events).Ok? ==> s1.pending - {0} == map[];
  }

  lemma CloseOps(h: Hash, mid: string, r: MissionRows, now: string)
    ensures Exec(h, mid, Sys(r, map[]), [ReadClose(0, None), WriteClose(0, now)])
      == Sys(CompleteMission(h, mid, r, None, now).rows, map[])
  {
    hide CheckpointRead, CheckpointWrite, CloseRead, CloseWrite, Claim, Complete, Reconcile, CreateMission, Append,
      RequestApproval, Approve;
    ExecTwo(h, mid, Sys(r, map[]), ReadClose(0, None), WriteClose(0, now));
    var s1 := Apply(h, mid, Sys(r, map[]), ReadClose(0, None));
    assert CloseRead(h, r, None).Ok? ==> s1.pending - {0} == map[];
  }

  lemma ConfirmOps(h: Hash, mid: string, r: MissionRows, ticket: string, who: string, now: string)
    ensures var t := ConsumeTicket(h, r, ticket);
      Exec(h, mid, Sys(r, map[]), [Consume(0, ticket), Confirm(0, who, now)])
      == Sys(if t.outcome == Ok(true) then Append(h, mid, t.rows, ReviewConfirmed(who), Human, now).rows else r, map[])
  {
    hide CheckpointRead, CheckpointWrite, CloseRead, CloseWrite, Claim, Complete, Reconcile, CreateMission, Append,
      RequestApproval, Approve;
    ExecTwo(h, mid, Sys(r, map[]), Consume(0, ticket), Confirm(0, who, now));
    var s1 := Apply(h, mid, Sys(r, map[]), Consume(0, ticket));
    assert s1.pending - {0} == map[];
  }

  function CodeOf(x: Error): string {
    match x
    case UncertainAction => "uncertain_action"
    case KeyError => "invalid_arguments"
    case ValueError => "invalid_arguments"
    case TypeError => "invalid_arguments"
    case IntegrityError => "invalid_arguments"
    case _ => "internal_error"
  }

  function Reply<T>(r: Outcome<T>): ToolReply {
    match r
    case Ok(_) => ToolReply(true, "")
    case Raised(x) => ToolReply(false, CodeOf(x))
  }

  /** What an authorised request is answered; the texts the read-only tools return are not modelled. */
  ghost function Answer(h: Hash, p: Policy, r: MissionRows, q: ToolRequest, now: string): Outcome<ToolReply>
    requires ResolveClient(p, q).Ok?
  {
    var mid := q.mission;
    if !IsMissionId(mid) then Ok(ToolReply(false, "invalid_arguments"))
    else
      match q.tool
      case StartMission(goal, total) => Ok(Reply(CreateMission(h, mid, r, goal, total, now).outcome))
      case RecordWork(item) => Ok(Reply(Append(h, mid, r, WorkCompleted(item), ExternalAgent, now).outcome))
      case TakeCheckpoint => Ok(Reply(CheckpointOutcome(h, mid, r, now)))
      case ClaimTool(kind, args) => Ok(Reply(Claim(h, NO_BUDGET, mid, r, kind, args, now).outcome))
      case CompleteTool(key, eid, result) => Ok(Reply(Complete(h, mid, r, key, eid, result, now).outcome))
      case ReconcileTool(key, occurred, eid) => Ok(Reply(Reconcile(h, mid, r, key, occurred, eid, None, now).outcome))
      case ConfirmTool(ticket) => ConfirmAnswer(h, p, r, q, ticket, now)
      case CloseTool => Ok(Reply(CompleteMission(h, mid, r, None, now).outcome))
      case _ => Ok(if Projects(q.tool) then Reply(Projected(r.events)) else ToolReply(true, ""))
  }

  function CheckpointOutcome(h: Hash, mid: string, r: MissionRows, now: string): Outcome<CheckpointRow> {
    var read := CheckpointRead(r.events);
    if read.Raised? then Raised(read.error)
    else CheckpointWrite(h, mid, r, read.value.0, read.value.1, "tool", now).outcome
  }

  function ConfirmAnswer(h: Hash, p: Policy, r: MissionRows, q: ToolRequest, ticket: Option<string>, now: string)
    : Outcome<ToolReply>
    requires ResolveClient(p, q).Ok?
  {
    var t := Or(ticket, q.confirmToken);
    var who := ResolveClient(p, q).value;
    if !p.requireConfirmTicket then Ok(Reply(Append(h, q.mission, r, ReviewConfirmed(who), Human, now).outcome))
    else if t.None? || t.value == "" || ConsumeTicket(h, r, t.value).outcome != Ok(true) then Raised(AuthorizationError)
    else Ok(Reply(Append(h, q.mission, ConsumeTicket(h, r, t.value).rows, ReviewConfirmed(who), Human, now).outcome))
  }

  /** `handle`, with the handler it dispatches to. */
  method Handle(p: Policy, store: EverRunStore, q: ToolRequest, now: string) returns (r: Outcome<ToolReply>)
    modifies store
    ensures Authorize(p, q).Raised? ==>
              r == Raised(Authorize(p, q).error) && store.View(q.mission) == old(store.View(q.mission))
    ensures Authorize(p, q).Ok? ==>
              ResolveClient(p, q).Ok? && r == Answer(store.h, p, old(store.View(q.mission)), q, now)
    ensures Sys(store.View(q.mission), map[])
            == Exec(store.h, q.mission, Sys(old(store.View(q.mission)), map[]), OpsFor(p, q, now))
    ensures store.View(q.mission) != old(store.View(q.mission)) ==>
              exists who :: Proven(p, q, who) && who in p.mutatingClients
    ensures store.Only(q.mission)
  {
    hide Apply, Authorize, ResolveClient, IsMissionId, Or, Exec, Closing.CompleteMission, OpsFor, Proven;
    var h, mid := store.h, q.mission;
    ghost var before := store.View(mid);
    if OpsFor(p, q, now) != [] { OnlyListedMove(p, q, now); }
    NothingIfRefused(p, q, now);
    NoOps(h, mid, Sys(before, map[]));
    if Authorize(p, q).Raised? {
      return Raised(Authorize(p, q).error);
    }
    ghost var client := AuthorizedClient(p, q);
    if !IsMissionId(mid) {
      return Ok(ToolReply(false, "invalid_arguments"));
    }
    r := Dispatch(p, store, q, now);
  }

  lemma NothingIfRefused(p: Policy, q: ToolRequest, now: string)
    ensures Authorize(p, q).Raised? || !IsMissionId(q.mission) ==> OpsFor(p, q, now) == []
  {
    hide Authorize, IsMissionId;
  }

  lemma NoOps(h: Hash, mid: string, s: Sys)
    ensures Exec(h, mid, s, []) == s
  {
  }

  lemma AuthorizedClient(p: Policy, q: ToolRequest) returns (client: string)
    requires Authorize(p, q).Ok?
    ensures ResolveClient(p, q) == Ok(client)
  {
    client := ResolveClient(p, q).value;
  }

  /** The handlers of an authorised request. */
  method Dispatch(p: Policy, store: EverRunStore, q: ToolRequest, now: string) returns (r: Outcome<ToolReply>)
    requires Authorize(p, q).Ok? && IsMissionId(q.mission) && ResolveClient(p, q).Ok?
    modifies store
    ensures r == Answer(store.h, p, old(store.View(q.mission)), q, now)
    ensures Sys(store.View(q.mission), map[])
            == Exec(store.h, q.mission, Sys(old(store.View(q.mission)), map[]), OpsFor(p, q, now))
    ensures store.Only(q.mission)
  {
    hide Authorize, ResolveClient, IsMissionId, Exec, Apply, Claim, Complete, Reconcile, Closing.CompleteMission,
      Append, CreateMission,
      CheckpointRead, CheckpointWrite;
    var h, mid := store.h, q.mission;
    ghost var s0 := Sys(store.View(mid), map[]);
    NoOps(h, mid, s0);
    match q.tool
    case StartMission(goal, total) =>
      SimpleOps(h, mid, s0.rows, OpsFor(p, q, now)[0]);
      var done := store.CreateMission(mid, goal, total, now);
      r := Ok(Reply(done));
    case RecordWork(item) =>
      SimpleOps(h, mid, s0.rows, OpsFor(p, q, now)[0]);
      var done := store.Append(mid, WorkCompleted(item), ExternalAgent, now);
      r := Ok(Reply(done));
    case TakeCheckpoint =>
      CheckpointOps(h, mid, s0.rows, now);
      var done := store.CreateCheckpoint(mid, "tool", now);
      r := Ok(Reply(done));
    case ClaimTool(kind, args) =>
      SimpleOps(h, mid, s0.rows, OpsFor(p, q, now)[0]);
      var ledger := new ActionLedger(store, mid, NO_BUDGET);
      var done := ledger.Claim(kind, args, now);
      r := Ok(Reply(done));
    case CompleteTool(key, eid, result) =>
      SimpleOps(h, mid, s0.rows, OpsFor(p, q, now)[0]);
      var ledger := new ActionLedger(store, mid, NO_BUDGET);
      var done := ledger.Complete(key, eid, result, now);
      r := Ok(Reply(done));
    case ReconcileTool(key, occurred, eid) =>
      SimpleOps(h, mid, s0.rows, OpsFor(p, q, now)[0]);
      var ledger := new ActionLedger(store, mid, NO_BUDGET);
      var done := ledger.Reconcile(key, occurred, eid, None, now);
      r := Ok(Reply(done));
    case ConfirmTool(ticket) =>
      r := ConfirmHandler(p, store, q, ticket, now);
    case CloseTool =>
      CloseOps(h, mid, s0.rows, now);
      var done := store.CompleteMission(mid, None, now);
      r := Ok(Reply(done));
    case _ =>
      r := ReadHandler(store, mid, q.tool, now);
  }

  /** The read-only handlers, without the texts they build. */
  method ReadHandler(store: EverRunStore, mid: string, tool: Tool, now: string) returns (r: Outcome<ToolReply>)
    requires ReadOnly(tool)
    ensures r == Ok(if Projects(tool) then Reply(Projected(store.View(mid).events)) else ToolReply(true, ""))
  {
    hide ModeOf, ActionOf, Signals, Sealed, Worst;
    if Projects(tool) {
      var projected := Project(store.Log(mid));
      if projected.Raised? {
        return Ok(Reply(projected));
      }
    }
    if !tool.ListActionsTool? {
      var _, _ := Recover(store.h, Query(store.View(mid), None, None), now);
    }
    return Ok(ToolReply(true, ""));
  }

  predicate IsSimple(op: Op) {
    match op
    case Create(_, _, _) => true
    case AppendFact(f, _, _) => CallerFact(f)
    case ClaimAction(_, _, _, _) => true
    case CompleteAction(_, _, _, _) => true
    case ReconcileAction(_, _, _, _, _) => true
    case _ => false
  }

  /** What the one-transaction tools do to the rows. */
  function SimpleRows(h: Hash, mid: string, r: MissionRows, op: Op): MissionRows {
    match op
    case Create(goal, total, now) => CreateMission(h, mid, r, goal, total, now).rows
    case AppendFact(f, o, now) => Append(h, mid, r, f, o, now).rows
    case ClaimAction(budget, kind, args, now) => Claim(h, budget, mid, r, kind, args, now).rows
    case CompleteAction(key, eid, result, now) => Complete(h, mid, r, key, eid, result, now).rows
    case ReconcileAction(key, occurred, eid, result, now) => Reconcile(h, mid, r, key, occurred, eid, result, now).rows
    case _ => r
  }

  lemma SimpleOps(h: Hash, mid: string, r: MissionRows, op: Op)
    ensures IsSimple(op) ==> Exec(h, mid, Sys(r, map[]), [op]) == Sys(SimpleRows(h, mid, r, op), map[])
  {
    ExecOne(h, mid, Sys(r, map[]), op);
    hide Claim, Complete, Reconcile, CreateMission, Append, CheckpointRead, CheckpointWrite, CloseRead, CloseWrite,
      RequestApproval, Approve;
  }

  method ConfirmHandler(p: Policy, store: EverRunStore, q: ToolRequest, ticket: Option<string>, now: string)
    returns (r: Outcome<ToolReply>)
    requires Authorize(p, q).Ok? && IsMissionId(q.mission) && ResolveClient(p, q).Ok? && q.tool == ConfirmTool(ticket)
    modifies store
    ensures r == ConfirmAnswer(store.h, p, old(store.View(q.mission)), q, ticket, now)
    ensures Sys(store.View(q.mission), map[])
            == Exec(store.h, q.mission, Sys(old(store.View(q.mission)), map[]), OpsFor(p, q, now))
    ensures store.Only(q.mission)
  {
    hide Authorize, ResolveClient, IsMissionId, Exec, Apply, Append, Or;
    var h, mid, who := store.h, q.mission, ResolveClient(p, q).value;
    ghost var s0 := Sys(store.View(mid), map[]);
    NoOps(h, mid, s0);
    var t := Or(ticket, q.confirmToken);
    if p.requireConfirmTicket {
      if t.None? || t.value == "" {
        return Raised(AuthorizationError);
      }
      ConfirmOps(h, mid, s0.rows, t.value, who, now);
      var redeemed := store.ConsumeConfirmTicket(mid, t.value);
      if !redeemed {
        return Raised(AuthorizationError);
      }
    } else {
      SimpleOps(h, mid, s0.rows, AppendFact(ReviewConfirmed(who), Human, now));
    }
    var done := store.Append(mid, ReviewConfirmed(who), Human, now);
    return Ok(Reply(done));
  }

  // ---- runs of the server ---------------------------------------------------------------------

  /** A request served, or a ticket minted by the operator. */
  datatype Turn = Served(request: ToolRequest, now: string) | Minted(ticket: string)

  function TurnOps(p: Policy, mid: string, turn: Turn): seq<Op> {
    match turn
    case Served(q, now) => if q.mission == mid then OpsFor(p, q, now) else []
    case Minted(ticket) => [Issue(ticket)]
  }

  function AllOps(p: Policy, mid: string, turns: seq<Turn>): seq<Op> {
    if turns == [] then [] else TurnOps(p, mid, turns[0]) + AllOps(p, mid, turns[1..])
  }

  lemma {:induction false} TurnsAreWorkerOps(p: Policy, mid: string, turns: seq<Turn>)
    requires p.requireConfirmTicket
    ensures forall i :: 0 <= i < |AllOps(p, mid, turns)| ==> WorkerOp(AllOps(p, mid, turns)[i])
  {
    hide Authorize, IsMissionId, Or, ResolveClient;
    if turns != [] { TurnsAreWorkerOps(p, mid, turns[1..]); }
  }

  /** Serving one request, seen from the mission's rows, leaves no half-done operation behind. */
  lemma TurnEnds(h: Hash, p: Policy, mid: string, r: MissionRows, turn: Turn)
    ensures Exec(h, mid, Sys(r, map[]), TurnOps(p, mid, turn)).pending == map[]
  {
    hide Authorize, IsMissionId, Or, ResolveClient, Apply, Exec, CompleteMission, Append;
    var s := Sys(r, map[]);
    var ops := TurnOps(p, mid, turn);
    NoOps(h, mid, s);
    if |ops| == 1 {
      assert ops == [ops[0]];
      ExecOne(h, mid, s, ops[0]);
      OneKeepsPending(h, mid, s, ops[0]);
    } else if |ops| == 2 {
      var q, now := turn.request, turn.now;
      match q.tool
      case TakeCheckpoint => CheckpointOps(h, mid, r, now);
      case CloseTool => CloseOps(h, mid, r, now);
      case ConfirmTool(ticket) =>
        var who := AuthorizedClient(p, q);
        ConfirmOps(h, mid, r, Or(ticket, q.confirmToken).value, who, now);
    }
  }

  lemma OneKeepsPending(h: Hash, mid: string, s: Sys, op: Op)
    requires op.Create? || op.AppendFact? || op.ClaimAction? || op.CompleteAction? || op.ReconcileAction? || op.Issue?
    ensures Apply(h, mid, s, op).pending == s.pending
  {
    hide Claim, Complete, Reconcile, CreateMission, Append, CheckpointRead, CheckpointWrite, CloseRead, CloseWrite,
      RequestApproval, Approve;
  }

  /** The rows after serving the turns one after the other. */
  ghost function ServeAll(h: Hash, p: Policy, mid: string, r: MissionRows, turns: seq<Turn>): MissionRows
    decreases turns
  {
    if turns == [] then r
    else ServeAll(h, p, mid, Exec(h, mid, Sys(r, map[]), TurnOps(p, mid, turns[0])).rows, turns[1..])
  }

  lemma {:induction false} ServingIsARun(h: Hash, p: Policy, mid: string, r: MissionRows, turns: seq<Turn>)
    ensures Sys(ServeAll(h, p, mid, r, turns), map[]) == Exec(h, mid, Sys(r, map[]), AllOps(p, mid, turns))
    decreases turns
  {
    hide Apply, TurnOps;
    if turns != [] {
      var first := TurnOps(p, mid, turns[0]);
      TurnEnds(h, p, mid, r, turns[0]);
      ExecAppend(h, mid, Sys(r, map[]), first, AllOps(p, mid, turns[1..]));
      ServingIsARun(h, p, mid, Exec(h, mid, Sys(r, map[]), first).rows, turns[1..]);
    }
  }

  /**
   A server in ticket mode, from an empty store: the confirmations it records never
   outnumber the consumed tickets, and without a consumed ticket a mission with a
   target above zero is neither closed nor verified complete.
   */
  lemma ServerNeedsTickets(h: Hash, p: Policy, mid: string, turns: seq<Turn>, environment: Option<Snapshot>,
                           contract: Option<seq<Clause>>)
    requires p.requireConfirmTicket
    ensures var r := ServeAll(h, p, mid, NO_ROWS, turns);
      && Confirmations(r.events) <= |Used(r.tickets)|
      && (r.mission.Some? && r.mission.value.total > 0 && Used(r.tickets) == {} ==>
            !Terminal(r.events) && ModeOf(h, Query(r, environment, contract)) != VerifiedComplete)
  {
    hide ModeOf, Apply, TurnOps;
    ServingIsARun(h, p, mid, NO_ROWS, turns);
    TurnsAreWorkerOps(p, mid, turns);
    WorkersNeedTickets(h, mid, AllOps(p, mid, turns), environment, contract);
  }
}
