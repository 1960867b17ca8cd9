/**
 `protected_call` of `gate.py` as a protocol: any number of processes, each going
 through find, claim, fire and complete as separate steps, dying or raising
 anywhere, among all the other activity on the mission's rows.
 */
module Gate {
  import opened Prelude
  import opened Json
  import opened Models
  import opened Rows
  import opened Ledger
  import opened Runs
  import opened ReplayedLedger

  /** Where one call stands. `Claiming` and `Fired` hold the claim. */
  datatype Proc =
    | Looked(kind: string, args: Json, externalId: Option<string>)
    | Claiming(key: string, externalId: Option<string>)
    | Fired(key: string, externalId: Option<string>)
    | Returned(key: string, performed: bool)
    | Failed(error: Error)
    | Dead

  /** The rows, the calls by process id, and how often each action's effect really happened. */
  datatype GateSys = GateSys(s: Sys, procs: map<nat, Proc>, world: map<string, nat>)

  const GATE_START := GateSys(START, map[], map[])

  datatype GateStep =
    | Look(pid: nat, kind: string, args: Json, requireClaim: bool, externalId: Option<string>)
    | TakeClaim(pid: nat, budget: RetryBudget, now: string)
    | Fire(pid: nat, returned: Option<string>)
    | FireRaises(pid: nat, happened: bool)
    | Finish(pid: nat, result: Option<Json>, now: string)
    | Crash(pid: nat)
    | Settle(key: string, externalId: Option<string>, result: Option<Json>, now: string)
    | Elsewhere(op: Op)

  function Times(g: GateSys, key: string): nat {
    if key in g.world then g.world[key] else 0
  }

  /** The process is between a granted claim and its completion. */
  predicate Holds(p: Proc, key: string) {
    (p.Claiming? || p.Fired?) && p.key == key
  }

  predicate Held(g: GateSys, key: string) {
    exists pid :: pid in g.procs && Holds(g.procs[pid], key)
  }

  /** After `find`: return, raise, or go on to claim. */
  function AfterFind(found: Option<ActionClaim>, kind: string, args: Json, requireClaim: bool, eid: Option<string>)
    : Proc
  {
    if found.None? then
      if requireClaim then Failed(UnclaimedSideEffect) else Looked(kind, args, eid)
    else if found.value.status.Completed? then Returned(found.value.key, false)
    else if found.value.status.Started? then Failed(UncertainSideEffect)
    else Looked(kind, args, eid)
  }

  function AfterClaim(c: Outcome<ActionClaim>, eid: Option<string>): Proc {
    match c
    case Raised(x) => Failed(x)
    case Ok(claim) => if claim.isFresh then Claiming(claim.key, eid) else Returned(claim.key, false)
  }

  function AfterComplete(c: Outcome<()>, key: string): Proc {
    match c
    case Ok(_) => Returned(key, true)
    case Raised(x) => Failed(x)
  }

  /** The external id to record: the caller's, or the effect's own string result. */
  function Resolved(eid: Option<string>, returned: Option<string>): Option<string> {
    if eid.Some? then eid else returned
  }

  /** One step; `guarded` says whether a settlement waits until no live call holds the claim. */
  ghost function GateApply(h: Hash, mid: string, g: GateSys, step: GateStep, guarded: bool): GateSys {
    match step
    case Look(pid, kind, args, requireClaim, eid) =>
      if pid in g.procs then g
      else g.(procs := g.procs[pid := AfterFind(Find(h, g.s.rows, kind, args), kind, args, requireClaim, eid)])
    case TakeClaim(pid, budget, now) =>
      if pid !in g.procs || !g.procs[pid].Looked? then g
      else
        var p := g.procs[pid];
        var c := Claim(h, budget, mid, g.s.rows, p.kind, p.args, now);
        g.(s := g.s.(rows := c.rows), procs := g.procs[pid := AfterClaim(c.outcome, p.externalId)])
    case Fire(pid, returned) =>
      if pid !in g.procs || !g.procs[pid].Claiming? then g
      else
        var p := g.procs[pid];
        g.(procs := g.procs[pid := Fired(p.key, Resolved(p.externalId, returned))],
          world := g.world[p.key := Times(g, p.key) + 1])
    case FireRaises(pid, happened) =>
      if pid !in g.procs || !g.procs[pid].Claiming? then g
      else
        var p := g.procs[pid];
        g.(procs := g.procs[pid := Failed(EffectFailed)],
           world := if happened then g.world[p.key := Times(g, p.key) + 1] else g.world)
    case Finish(pid, result, now) =>
      if pid !in g.procs || !g.procs[pid].Fired? then g
      else
        var p := g.procs[pid];
        var done := Complete(h, mid, g.s.rows, p.key, p.externalId, result, now);
        g.(s := Apply(h, mid, g.s, CompleteAction(p.key, p.externalId, result, now)),
           procs := g.procs[pid := AfterComplete(done.outcome, p.key)])
    case Crash(pid) => if pid in g.procs then g.(procs := g.procs[pid := Dead]) else g
    case Settle(key, eid, result, now) =>
      if guarded && Held(g, key) then g
      else g.(s := Apply(h, mid, g.s, ReconcileAction(key, Times(g, key) > 0, eid, result, now)))
    case Elsewhere(op) =>
      if op.ClaimAction? || op.CompleteAction? || op.ReconcileAction? then g else g.(s := Apply(h, mid, g.s, op))
  }

  ghost function GateRun(h: Hash, mid: string, g: GateSys, steps: seq<GateStep>, guarded: bool): GateSys
    decreases steps
  {
    if steps == [] then g else GateRun(h, mid, GateApply(h, mid, g, steps[0], guarded), steps[1..], guarded)
  }

  // ---- what each step answers ------------------------------------------------------------------

  /** A new call looks its action up; the row it finds decides how it goes on, and nothing else moves. */
  lemma LookExact(h: Hash, mid: string, g: GateSys, pid: nat, kind: string, args: Json, requireClaim: bool,
                  eid: Option<string>, guarded: bool)
    requires pid !in g.procs
    ensures var key := ActionKey(h, kind, args);
      var t, i := g.s.rows.actions, IndexOf(g.s.rows.actions, key);
      var next :=
        if i < |t| && t[i].status.Completed? then Returned(key, false)
        else if i < |t| && t[i].status.Started? then Failed(UncertainSideEffect)
        else if i == |t| && requireClaim then Failed(UnclaimedSideEffect)
        else Looked(kind, args, eid);
      GateApply(h, mid, g, Look(pid, kind, args, requireClaim, eid), guarded) == g.(procs := g.procs[pid := next])
  {
    hide ActionKey, Find, Apply;
    FindExact(h, g.s.rows, kind, args);
  }

  /** The claim decides on the row as it is now, whatever the call found before. */
  lemma TakeClaimExact(h: Hash, mid: string, g: GateSys, pid: nat, budget: RetryBudget, now: string, guarded: bool)
    requires pid in g.procs && g.procs[pid].Looked?
    ensures var p := g.procs[pid];
      var g' := GateApply(h, mid, g, TakeClaim(pid, budget, now), guarded);
      var key := ActionKey(h, p.kind, p.args);
      var t, i := g.s.rows.actions, IndexOf(g.s.rows.actions, key);
      var next :=
        if i < |t| && t[i].status.Completed? then Returned(key, false)
        else if i < |t| && t[i].status.Started? then Failed(UncertainAction)
        else if !WithinBudget(budget, t, key, p.kind) then Failed(BudgetExceeded)
        else Claiming(key, p.externalId);
      && g'.procs == g.procs[pid := next] && g'.world == g.world && g'.s.pending == g.s.pending
      && (next.Claiming? ==> ClaimGranted(h, mid, g.s.rows, g'.s.rows, p.kind, p.args, now))
      && (!next.Claiming? ==> g'.s.rows == g.s.rows)
  {
    hide ActionKey, Claim, Apply, WithinBudget, ClaimGranted, MayClaim;
    ClaimExact(h, budget, mid, g.s.rows, g.procs[pid].kind, g.procs[pid].args, now);
  }

  /** The completion works iff the row is still started. */
  lemma FinishExact(h: Hash, mid: string, g: GateSys, pid: nat, result: Option<Json>, now: string, guarded: bool)
    requires pid in g.procs && g.procs[pid].Fired?
    ensures var p := g.procs[pid];
      var g' := GateApply(h, mid, g, Finish(pid, result, now), guarded);
      var t, i := g.s.rows.actions, IndexOf(g.s.rows.actions, p.key);
      var recorded := if result.None? then Obj([]) else result.value;
      && g'.world == g.world && g'.s.pending == g.s.pending
      && if i < |t| && t[i].status.Started? then
           && g'.procs == g.procs[pid := Returned(p.key, true)]
           && RowSettled(mid, g.s.rows, g'.s.rows, p.key, Completed, p.externalId, recorded,
                         ActionCompleted(p.key, p.externalId, recorded), now)
         else g'.procs == g.procs[pid := Failed(KeyError)] && g'.s.rows == g.s.rows
  {
    hide Claim, Complete, Reconcile, RowSettled, CreateMission, Append, OrEmpty;
    CompleteExact(h, mid, g.s.rows, g.procs[pid].key, g.procs[pid].externalId, result, now);
  }

  // ---- the invariant -------------------------------------------------------------------------

  function StatusOf(t: seq<ActionRow>, key: string): Option<ActionStatus> {
    var i := IndexOf(t, key);
    if i < |t| then Some(t[i].status) else None
  }

  /** What a row's status says about the world and about who holds the claim. */
  ghost predicate KeyRight(g: GateSys, key: string) {
    match StatusOf(g.s.rows.actions, key)
    case None => Times(g, key) == 0 && !Held(g, key)
    case Some(NotOccurred) => Times(g, key) == 0 && !Held(g, key)
    case Some(Completed) => Times(g, key) == 1 && !Held(g, key)
    case Some(Started) =>
      && Times(g, key) <= 1
      && forall pid :: pid in g.procs && Holds(g.procs[pid], key) ==>
        Times(g, key) == if g.procs[pid].Fired? then 1 else 0
  }

  ghost predicate OneHolder(g: GateSys) {
    forall p, q, key :: p in g.procs && q in g.procs && Holds(g.procs[p], key) && Holds(g.procs[q], key) ==> p == q
  }

  predicate Performed(p: Proc) {
    p.Returned? && p.performed
  }

  /** A call that returned `performed` is the only one for its key, and its row is completed. */
  ghost predicate OnePerformer(g: GateSys) {
    && (forall p, q :: p in g.procs && q in g.procs ==>
          Performed(g.procs[p]) && Performed(g.procs[q]) && g.procs[p].key == g.procs[q].key ==> p == q)
    && (forall p :: p in g.procs && Performed(g.procs[p]) ==>
      StatusOf(g.s.rows.actions, g.procs[p].key) == Some(Completed))
  }

  ghost predicate GateRight(g: GateSys) {
    (forall key :: KeyRight(g, key)) && OneHolder(g) && OnePerformer(g)
  }

  // ---- how the ledger's transactions move a status --------------------------------------------

  lemma {:induction false} UpdateIndex(t: seq<ActionRow>, i: nat, row: ActionRow, key: string)
    requires i < |t| && row.key == t[i].key
    ensures IndexOf(t[i := row], key) == IndexOf(t, key)
  {
    if i == 0 {
      assert t[i := row][1..] == t[1..];
    } else {
      assert t[i := row][1..] == t[1..][i - 1 := row];
      UpdateIndex(t[1..], i - 1, row, key);
    }
  }

  lemma {:induction false} AppendIndex(t: seq<ActionRow>, row: ActionRow, key: string)
    ensures IndexOf(t + [row], key) == if IndexOf(t, key) < |t| || row.key == key then IndexOf(t, key) else |t| + 1
  {
    if t == [] {
      assert (t + [row])[1..] == [];
    } else {
      assert (t + [row])[1..] == t[1..] + [row];
      AppendIndex(t[1..], row, key);
    }
  }

  lemma ClaimedStatus(t: seq<ActionRow>, key: string, kind: string, args: Json, k: string)
    ensures StatusOf(Claimed(t, key, kind, args), k) == if k == key then Some(Started) else StatusOf(t, k)
  {
    var i := IndexOf(t, key);
    var t' := Claimed(t, key, kind, args);
    if i < |t| { UpdateIndex(t, i, t'[i], k); } else { AppendIndex(t, t'[|t|], k); }
  }

  lemma SettledStatus(t: seq<ActionRow>, key: string, status: ActionStatus, eid: Option<string>, result: Json,
                      k: string)
    ensures StatusOf(Settled(t, key, status, eid, result), k)
      == if k == key && StatusOf(t, key) == Some(Started) then Some(status) else StatusOf(t, k)
  {
    var i := IndexOf(t, key);
    var t' := Settled(t, key, status, eid, result);
    if i < |t| && t[i].status.Started? { UpdateIndex(t, i, t'[i], k); }
  }

  lemma ClaimMoves(h: Hash, mid: string, r: MissionRows, budget: RetryBudget, kind: string, args: Json, now: string,
                   k: string)
    ensures var c := Claim(h, budget, mid, r, kind, args, now);
      var key := ActionKey(h, kind, args);
      && (c.outcome.Ok? ==> c.outcome.value.key == key)
      && (c.outcome.Ok? && c.outcome.value.isFresh ==> StatusOf(r.actions, key) in {None, Some(NotOccurred)})
      && StatusOf(c.rows.actions, k)
         == if c.outcome.Ok? && c.outcome.value.isFresh && k == key then Some(Started) else StatusOf(r.actions, k)
  {
    hide NewEvent, ActionKey, MayClaim, Claimed;
    ClaimedStatus(r.actions, ActionKey(h, kind, args), kind, args, k);
  }

  lemma CompleteMoves(h: Hash, mid: string, s: Sys, key: string, eid: Option<string>, result: Option<Json>,
                      now: string, k: string)
    ensures var c := Complete(h, mid, s.rows, key, eid, result, now).outcome;
      var s' := Apply(h, mid, s, CompleteAction(key, eid, result, now));
      && (c.Ok? <==> StatusOf(s.rows.actions, key) == Some(Started))
      && StatusOf(s'.rows.actions, k) == if c.Ok? && k == key then Some(Completed) else StatusOf(s.rows.actions, k)
  {
    hide NewEvent, Settled;
    SettledStatus(s.rows.actions, key, Completed, eid, OrEmpty(result), k);
  }

  lemma ReconcileMoves(h: Hash, mid: string, s: Sys, key: string, occurred: bool, eid: Option<string>,
                       result: Option<Json>, now: string, k: string)
    ensures var s' := Apply(h, mid, s, ReconcileAction(key, occurred, eid, result, now));
      StatusOf(s'.rows.actions, k)
        == if StatusOf(s.rows.actions, key) == Some(Started) && k == key then Some(Verdict(occurred))
           else StatusOf(s.rows.actions, k)
  {
    hide NewEvent, Settled;
    SettledStatus(s.rows.actions, key, Verdict(occurred), eid, OrEmpty(result), k);
  }

  // ---- one step keeps it ------------------------------------------------------------------------

  /** A step that leaves rows, world and holders alone. */
  lemma QuietGate(g: GateSys, g': GateSys, pid: nat, p: Proc)
    requires GateRight(g) && g'.s.rows.actions == g.s.rows.actions && g'.world == g.world
      && g'.procs == g.procs[pid := p]
    requires !p.Claiming? && !p.Fired? && !Performed(p)
    ensures GateRight(g')
  {
    forall key ensures KeyRight(g', key) {
      assert KeyRight(g, key);
      assert Held(g', key) ==> Held(g, key);
    }
  }

  lemma ClaimGate(h: Hash, mid: string, g: GateSys, pid: nat, budget: RetryBudget, now: string)
    requires GateRight(g) && pid in g.procs && g.procs[pid].Looked?
    ensures GateRight(GateApply(h, mid, g, TakeClaim(pid, budget, now), true))
  {
    hide Apply, Claim, StatusOf, ActionKey;
    var p := g.procs[pid];
    var g' := GateApply(h, mid, g, TakeClaim(pid, budget, now), true);
    var key := ActionKey(h, p.kind, p.args);
    var c := Claim(h, budget, mid, g.s.rows, p.kind, p.args, now).outcome;
    forall k ensures c.Ok? ==> c.value.key == key
      ensures c.Ok? && c.value.isFresh ==> StatusOf(g.s.rows.actions, key) in {None, Some(NotOccurred)}
      ensures StatusOf(g'.s.rows.actions, k)
              == if c.Ok? && c.value.isFresh && k == key then Some(Started) else StatusOf(g.s.rows.actions, k)
    {
      ClaimMoves(h, mid, g.s.rows, budget, p.kind, p.args, now, k);
    }
    assert KeyRight(g, key);
    forall k ensures KeyRight(g', k) {
      assert KeyRight(g, k);
      assert Held(g', k) ==> Held(g, k) || k == key;
    }
  }

  lemma FireGate(g: GateSys, g': GateSys, pid: nat, p': Proc, happened: bool)
    requires GateRight(g) && pid in g.procs && g.procs[pid].Claiming? && g'.s == g.s
    requires var key := g.procs[pid].key;
      && g'.procs == g.procs[pid := p'] && g'.world == (if happened then g.world[key := Times(g, key) + 1] else g.world)
      && ((p'.Fired? && p'.key == key && happened) || p'.Failed?)
    ensures GateRight(g')
  {
    hide StatusOf;
    var key := g.procs[pid].key;
    assert KeyRight(g, key);
    assert Holds(g.procs[pid], key);
    assert Held(g, key);
    forall k ensures KeyRight(g', k) {
      assert KeyRight(g, k);
      assert Held(g', k) ==> Held(g, k);
    }
  }

  lemma FinishGate(h: Hash, mid: string, g: GateSys, pid: nat, result: Option<Json>, now: string)
    requires GateRight(g) && pid in g.procs && g.procs[pid].Fired?
    ensures var g' := GateApply(h, mid, g, Finish(pid, result, now), true);
      GateRight(g') && g'.procs[pid] == Returned(g.procs[pid].key, true)
  {
    hide Apply, Complete, StatusOf;
    var p := g.procs[pid];
    var g' := GateApply(h, mid, g, Finish(pid, result, now), true);
    assert KeyRight(g, p.key) && Holds(p, p.key) && Held(g, p.key);
    assert StatusOf(g.s.rows.actions, p.key) == Some(Started);
    forall k ensures StatusOf(g'.s.rows.actions, k)
                     == if k == p.key then Some(Completed) else StatusOf(g.s.rows.actions, k)
    {
      CompleteMoves(h, mid, g.s, p.key, p.externalId, result, now, k);
    }
    CompleteMoves(h, mid, g.s, p.key, p.externalId, result, now, p.key);
    forall k ensures KeyRight(g', k) {
      assert KeyRight(g, k);
      assert Held(g', k) ==> Held(g, k) && k != p.key;
    }
  }

  lemma SettleGate(h: Hash, mid: string, g: GateSys, key: string, eid: Option<string>, result: Option<Json>,
                   now: string)
    requires GateRight(g) && !Held(g, key)
    ensures GateRight(GateApply(h, mid, g, Settle(key, eid, result, now), true))
  {
    hide Apply, StatusOf;
    var g' := GateApply(h, mid, g, Settle(key, eid, result, now), true);
    forall k ensures StatusOf(g'.s.rows.actions, k)
      == if StatusOf(g.s.rows.actions, key) == Some(Started) && k == key then Some(Verdict(Times(g, key) > 0))
         else StatusOf(g.s.rows.actions, k)
    {
      ReconcileMoves(h, mid, g.s, key, Times(g, key) > 0, eid, result, now, k);
    }
    forall k ensures KeyRight(g', k) {
      assert KeyRight(g, k);
      assert Held(g', k) <==> Held(g, k);
    }
  }

  lemma SameActionsGate(g: GateSys, g': GateSys)
    requires GateRight(g) && g'.s.rows.actions == g.s.rows.actions && g'.world == g.world && g'.procs == g.procs
    ensures GateRight(g')
  {
    forall k ensures KeyRight(g', k) {
      assert KeyRight(g, k);
      assert Held(g', k) <==> Held(g, k);
    }
  }

  lemma StepGate(h: Hash, mid: string, g: GateSys, step: GateStep)
    requires GateRight(g)
    ensures GateRight(GateApply(h, mid, g, step, true))
  {
    hide GateRight, Apply, Claim, Complete, Find;
    var g' := GateApply(h, mid, g, step, true);
    match step
    case Look(pid, _, _, _, _) => if pid !in g.procs { QuietGate(g, g', pid, g'.procs[pid]); }
    case TakeClaim(pid, budget, now) =>
      if pid in g.procs && g.procs[pid].Looked? { ClaimGate(h, mid, g, pid, budget, now); }
    case Fire(pid, _) => if pid in g.procs && g.procs[pid].Claiming? { FireGate(g, g', pid, g'.procs[pid], true); }
    case FireRaises(pid, happened) =>
      if pid in g.procs && g.procs[pid].Claiming? { FireGate(g, g', pid, g'.procs[pid], happened); }
    case Finish(pid, result, now) =>
      if pid in g.procs && g.procs[pid].Fired? { FinishGate(h, mid, g, pid, result, now); }
    case Crash(pid) => if pid in g.procs { QuietGate(g, g', pid, Dead); }
    case Settle(key, eid, result, now) => if !Held(g, key) { SettleGate(h, mid, g, key, eid, result, now); }
    case Elsewhere(op) =>
      if !op.ClaimAction? && !op.CompleteAction? && !op.ReconcileAction? {
        OtherStepsLeaveActions(h, mid, g.s, op);
        SameActionsGate(g, g');
      }
  }

  lemma {:induction false} RunGate(h: Hash, mid: string, g: GateSys, steps: seq<GateStep>)
    requires GateRight(g)
    ensures GateRight(GateRun(h, mid, g, steps, true))
    decreases steps
  {
    hide GateRight, GateApply;
    if steps != [] {
      StepGate(h, mid, g, steps[0]);
      RunGate(h, mid, GateApply(h, mid, g, steps[0], true), steps[1..]);
    }
  }

  /**
   In every interleaving, with crashes and raises anywhere, and settlements that
   tell the truth about actions no live call holds: every effect happens at most
   once; a completed row means exactly once, a not-occurred row means never; and
   at most one call per action returns that it performed the effect.
   */
  lemma EffectAtMostOnce(h: Hash, mid: string, steps: seq<GateStep>, key: string)
    ensures var g := GateRun(h, mid, GATE_START, steps, true);
      && Times(g, key) <= 1
      && (StatusOf(g.s.rows.actions, key) == Some(Completed) ==> Times(g, key) == 1)
      && (StatusOf(g.s.rows.actions, key) in {None, Some(NotOccurred)} ==> Times(g, key) == 0)
      && forall p, q :: p in g.procs && q in g.procs ==>
           g.procs[p] == Returned(key, true) && g.procs[q] == Returned(key, true) ==> p == q
  {
    hide GateApply;
    assert GateRight(GATE_START);
    RunGate(h, mid, GATE_START, steps);
    assert KeyRight(GateRun(h, mid, GATE_START, steps, true), key);
  }

  /** A call that reached its completion always gets it: nobody settles a claim that is held. */
  lemma HolderAlwaysFinishes(h: Hash, mid: string, steps: seq<GateStep>, pid: nat, result: Option<Json>, now: string)
    ensures var g := GateRun(h, mid, GATE_START, steps, true);
      pid in g.procs && g.procs[pid].Fired? ==>
        GateApply(h, mid, g, Finish(pid, result, now), true).procs[pid] == Returned(g.procs[pid].key, true)
  {
    hide GateApply;
    assert GateRight(GATE_START);
    RunGate(h, mid, GATE_START, steps);
    var g := GateRun(h, mid, GATE_START, steps, true);
    if pid in g.procs && g.procs[pid].Fired? { FinishGate(h, mid, g, pid, result, now); }
  }

  // ---- why settlements must wait --------------------------------------------------------------------

  const NO_CAPS := RetryBudget(map[], map[])

  function LookAndClaim(pid: nat, kind: string, args: Json, now: string): seq<GateStep> {
    [Look(pid, kind, args, false, None), TakeClaim(pid, NO_CAPS, now)]
  }

  /** Two calls of one action: the first one's claim is settled, truthfully, while it is still about to fire. */
  function DoubleRun(h: Hash, kind: string, args: Json, p: nat, q: nat, now: string): seq<GateStep> {
    LookAndClaim(p, kind, args, now) + ([Settle(ActionKey(h, kind, args), None, None, now)]
      + (LookAndClaim(q, kind, args, now) + [Fire(q, None), Fire(p, None)]))
  }

  lemma {:induction false} GateRunAppend(h: Hash, mid: string, g: GateSys, a: seq<GateStep>, b: seq<GateStep>,
                                         guarded: bool)
    ensures GateRun(h, mid, g, a + b, guarded) == GateRun(h, mid, GateRun(h, mid, g, a, guarded), b, guarded)
    decreases a
  {
    hide GateApply;
    if a == [] {
      assert a + b == b;
    } else {
      assert (a + b)[1..] == a[1..] + b;
      GateRunAppend(h, mid, GateApply(h, mid, g, a[0], guarded), a[1..], b, guarded);
    }
  }

  lemma RunTwo(h: Hash, mid: string, g: GateSys, a: GateStep, b: GateStep, guarded: bool)
    ensures GateRun(h, mid, g, [a, b], guarded) == GateApply(h, mid, GateApply(h, mid, g, a, guarded), b, guarded)
  {
    hide GateApply;
    var g1 := GateApply(h, mid, g, a, guarded);
    assert [a, b][1..] == [b] && [b][1..] == [];
    assert GateRun(h, mid, g, [a, b], guarded) == GateRun(h, mid, g1, [b], guarded);
    assert GateRun(h, mid, g1, [b], guarded) == GateRun(h, mid, GateApply(h, mid, g1, b, guarded), [], guarded);
  }

  lemma GrantedClaim(h: Hash, mid: string, g: GateSys, pid: nat, kind: string, args: Json, now: string, guarded: bool)
    requires pid !in g.procs
    requires StatusOf(g.s.rows.actions, ActionKey(h, kind, args)) in {None, Some(NotOccurred)}
    ensures var g' := GateRun(h, mid, g, LookAndClaim(pid, kind, args, now), guarded);
      && g'.procs == g.procs[pid := Claiming(ActionKey(h, kind, args), None)] && g'.world == g.world
      && StatusOf(g'.s.rows.actions, ActionKey(h, kind, args)) == Some(Started)
  {
    hide ActionKey, NewEvent, Claimed;
    RunTwo(h, mid, g, Look(pid, kind, args, false, None), TakeClaim(pid, NO_CAPS, now), guarded);
    var g1 := GateApply(h, mid, g, Look(pid, kind, args, false, None), guarded);
    assert g1.procs[pid] == Looked(kind, args, None);
    ClaimMoves(h, mid, g1.s.rows, NO_CAPS, kind, args, now, ActionKey(h, kind, args));
  }

  lemma SettledTooEarly(h: Hash, mid: string, g: GateSys, key: string, now: string)
    requires StatusOf(g.s.rows.actions, key) == Some(Started) && Times(g, key) == 0
    ensures var g' := GateRun(h, mid, g, [Settle(key, None, None, now)], false);
      && g'.procs == g.procs && g'.world == g.world
      && StatusOf(g'.s.rows.actions, key) == Some(NotOccurred)
  {
    hide Apply, StatusOf;
    var step := Settle(key, None, None, now);
    assert [step][1..] == [];
    ReconcileMoves(h, mid, g.s, key, false, None, None, now, key);
  }

  /** The process holds the claim and is about to fire. */
  predicate AboutToFire(g: GateSys, pid: nat, key: string) {
    pid in g.procs && g.procs[pid].Claiming? && g.procs[pid].key == key
  }

  lemma BothFire(h: Hash, mid: string, g: GateSys, key: string, p: nat, q: nat, guarded: bool)
    requires p != q && AboutToFire(g, p, key) && AboutToFire(g, q, key) && Times(g, key) == 0
    ensures Times(GateRun(h, mid, g, [Fire(q, None), Fire(p, None)], guarded), key) == 2
  {
    hide Apply, Claim, Complete, Find;
    RunTwo(h, mid, g, Fire(q, None), Fire(p, None), guarded);
  }

  /**
   If a settlement does not wait for the claim's holder, the effect can happen twice: for
   every action not claimed before.
   */
  lemma UnguardedSettlementDoubles(h: Hash, mid: string, g: GateSys, kind: string, args: Json, p: nat, q: nat,
                                   now: string)
    requires p != q && p !in g.procs && q !in g.procs
    requires var key := ActionKey(h, kind, args); StatusOf(g.s.rows.actions, key) == None && Times(g, key) == 0
    ensures Times(GateRun(h, mid, g, DoubleRun(h, kind, args, p, q, now), false), ActionKey(h, kind, args)) == 2
  {
    hide ActionKey, StatusOf, LookAndClaim, GateApply, GateRun;
    var key := ActionKey(h, kind, args);
    var first, settle := LookAndClaim(p, kind, args, now), [Settle(key, None, None, now)];
    var second, fires := LookAndClaim(q, kind, args, now), [Fire(q, None), Fire(p, None)];
    GrantedClaim(h, mid, g, p, kind, args, now, false);
    var g1 := GateRun(h, mid, g, first, false);
    SettledTooEarly(h, mid, g1, key, now);
    var g2 := GateRun(h, mid, g1, settle, false);
    GrantedClaim(h, mid, g2, q, kind, args, now, false);
    var g3 := GateRun(h, mid, g2, second, false);
    BothFire(h, mid, g3, key, p, q, false);
    GateRunAppend(h, mid, g, first, settle + (second + fires), false);
    GateRunAppend(h, mid, g1, settle, second + fires, false);
    GateRunAppend(h, mid, g2, second, fires, false);
  }
}
