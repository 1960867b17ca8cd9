/** `ActionLedger`, `protected_call` and `reconcile_pending` as they run against the store. */
module LedgerStore {
  import opened Prelude
  import opened Json
  import opened Models
  import opened Rows
  import opened Ledger
  import opened Runs
  import opened Gate
  import opened Reconcilers
  import opened Store

  class ActionLedger {
    const store: EverRunStore
    const missionId: string
    const budget: RetryBudget

    constructor (store: EverRunStore, missionId: string, budget: RetryBudget)
      ensures this.store == store && this.missionId == missionId && this.budget == budget
    {
      this.store, this.missionId, this.budget := store, missionId, budget;
    }

    method Find(kind: string, args: Json) returns (found: Option<ActionClaim>)
      ensures found == Ledger.Find(store.h, store.View(missionId), kind, args)
    {
      hide ActionKey;
      var t := store.ActionTable(missionId);
      var i := IndexOf(t, ActionKey(store.h, kind, args));
      found := if i < |t| then Some(ClaimOf(t[i])) else None;
    }

    /** The mission's part of the `actions` table becomes `t`. */
    method WriteTable(t: seq<ActionRow>)
      modifies store`actions
      ensures store.View(missionId) == old(store.View(missionId)).(actions := t)
      ensures store.Only(missionId)
    {
      store.actions := store.actions[missionId := t];
    }

    /** `INSERT INTO actions ... ON CONFLICT DO UPDATE`. */
    method Upsert(key: string, kind: string, args: Json)
      modifies store
      ensures store.View(missionId)
              == old(store.View(missionId)).(actions := Claimed(old(store.ActionTable(missionId)), key, kind, args))
      ensures store.Only(missionId)
    {
      var t := store.ActionTable(missionId);
      var i := IndexOf(t, key);
      if i < |t| {
        t := t[i := t[i].(status := Started, externalId := None, result := None, attempts := t[i].attempts + 1)];
      } else {
        t := t + [ActionRow(key, kind, args, Started, None, None, 1)];
      }
      WriteTable(t);
    }

    method Claim(kind: string, args: Json, now: string) returns (r: Outcome<ActionClaim>)
      modifies store
      ensures var t := Ledger.Claim(store.h, budget, missionId, old(store.View(missionId)), kind, args, now);
        store.View(missionId) == t.rows && r == t.outcome
      ensures store.Only(missionId)
    {
      hide ActionKey, NewEvent, Claimed, OfKind, EverRunStore.View;
      TableInView(store, missionId);
      var key := ActionKey(store.h, kind, args);
      var t := store.ActionTable(missionId);
      var i := IndexOf(t, key);
      var attempts := 0;
      if i < |t| {
        attempts := t[i].attempts;
        if t[i].status.Completed? {
          return Ok(ClaimOf(t[i]));
        }
        if t[i].status.Started? {
          return Raised(UncertainAction);
        }
      }
      if !budget.Allows(kind, attempts, OfKind(t, kind) - if i < |t| then 1 else 0) {
        return Raised(BudgetExceeded);
      }
      Upsert(key, kind, args);
      var _ := store.InsertEvent(missionId, ActionStarted(key, kind, args, attempts + 1), Deterministic, now);
      return Ok(ActionClaim(key, true, None, None, Started));
    }

    method Complete(key: string, externalId: Option<string>, result: Option<Json>, now: string) returns (r: Outcome<()>)
      modifies store
      ensures var t := Ledger.Complete(store.h, missionId, old(store.View(missionId)), key, externalId, result, now);
        store.View(missionId) == t.rows && r == t.outcome
      ensures store.Only(missionId)
    {
      hide NewEvent;
      var t := store.ActionTable(missionId);
      var i := IndexOf(t, key);
      if i == |t| || !t[i].status.Started? {
        return Raised(KeyError);
      }
      WriteTable(t[i := t[i].(status := Completed, externalId := externalId, result := Some(OrEmpty(result)))]);
      var _ := store.InsertEvent(missionId, ActionCompleted(key, externalId, OrEmpty(result)), Deterministic, now);
      return Ok(());
    }

    method Reconcile(key: string, occurred: bool, externalId: Option<string>, result: Option<Json>, now: string)
      returns (r: Outcome<()>)
      modifies store
      ensures var t := Ledger.Reconcile(store.h, missionId, old(store.View(missionId)), key, occurred, externalId,
        result, now);
        store.View(missionId) == t.rows && r == t.outcome
      ensures store.Only(missionId)
    {
      hide NewEvent;
      var status := if occurred then Completed else NotOccurred;
      var t := store.ActionTable(missionId);
      var i := IndexOf(t, key);
      if i == |t| || !t[i].status.Started? {
        return Raised(KeyError);
      }
      WriteTable(t[i := t[i].(status := status, externalId := externalId, result := Some(OrEmpty(result)))]);
      var _ := store.InsertEvent(missionId, ActionReconciled(key, occurred, externalId), Deterministic, now);
      return Ok(());
    }
  }

  /** `reconcile_pending`; `clock` gives the time of each settlement. */
  method ReconcilePending(ledger: ActionLedger, probes: Probes, clock: nat -> string) returns (r: Outcome<nat>)
    modifies ledger.store
    ensures var t := SettlePending(ledger.store.h, ledger.missionId, old(ledger.store.View(ledger.missionId)), probes,
      clock);
      ledger.store.View(ledger.missionId) == t.rows && r == t.outcome
    ensures ledger.store.Only(ledger.missionId)
  {
    hide Ledger.Reconcile, Recorded, Uncertain;
    var store, mid := ledger.store, ledger.missionId;
    var todo := Uncertain(store.ActionTable(mid));
    var settled := 0;
    while settled < |todo|
      invariant 0 <= settled <= |todo|
      invariant SettlePending(store.h, mid, old(store.View(mid)), probes, clock)
        == SettleEach(store.h, mid, store.View(mid), todo[settled..], probes, clock, settled)
      invariant store.Only(mid)
    {
      var row := todo[settled];
      assert todo[settled..][0] == row && todo[settled..][1..] == todo[settled + 1..];
      if row.kind !in probes {
        return Raised(UnresolvedAction);
      }
      var occurred := probes[row.kind](row.args);
      var outcome := ledger.Reconcile(row.key, occurred, None, None, clock(settled));
      if outcome.Raised? {
        return Raised(outcome.error);
      }
      settled := settled + 1;
    }
    return Ok(settled);
  }

  /** The outside world: how often each action's effect happened. */
  class World {
    var times: map<string, nat>

    constructor ()
      ensures times == map[]
    {
      times := map[];
    }
  }

  /** What an effect does when it is called: return a string or something else, or raise, perhaps after it happened. */
  datatype Effect = ReturnsText(text: string) | ReturnsOther(truthy: bool) | RaisesEffect(happened: bool)

  /** The string the effect returns, if it returns one. */
  function TextOf(effect: Effect): Option<string> {
    if effect.ReturnsText? then Some(effect.text) else None
  }

  /** The result that is recorded: whether the returned value counts as true. */
  function ReturnedJson(effect: Effect): Json {
    var truthy := if effect.ReturnsText? then effect.text != "" else effect.ReturnsOther? && effect.truthy;
    Obj([Field("returned", Bool(truthy))])
  }

  datatype GateResult = GateResult(key: string, performed: bool, externalId: Option<string>)

  /** What follows a granted claim. */
  function FireSteps(effect: Effect, now: string): seq<GateStep> {
    if effect.RaisesEffect? then [FireRaises(0, effect.happened)]
    else [Fire(0, TextOf(effect)), Finish(0, Some(ReturnedJson(effect)), now)]
  }

  /** The steps of the protocol that one uninterrupted call takes, as process 0. */
  function CallSteps(budget: RetryBudget, kind: string, args: Json, effect: Effect, requireClaim: bool,
                     externalId: Option<string>,
                     now: string): seq<GateStep>
  {
    [Look(0, kind, args, requireClaim, externalId), TakeClaim(0, budget, now)] + FireSteps(effect, now)
  }

  /** The call's process ended as the caller sees it. */
  predicate Ends(p: Proc, r: Outcome<GateResult>) {
    match r
    case Ok(g) => p == Returned(g.key, g.performed)
    case Raised(x) => p == Failed(x)
  }

  /** The row of a call that returned is completed, under the external id the caller is told. */
  predicate DoneAs(t: seq<ActionRow>, g: GateResult) {
    var i := IndexOf(t, g.key);
    i < |t| && t[i].status.Completed? && t[i].externalId == g.externalId
  }

  lemma FoundDone(h: Hash, r: MissionRows, kind: string, args: Json, claim: ActionClaim)
    requires Find(h, r, kind, args) == Some(claim) && claim.status.Completed?
    ensures DoneAs(r.actions, GateResult(claim.key, false, claim.externalId))
  {
    hide ActionKey;
  }

  lemma ClaimedBefore(h: Hash, budget: RetryBudget, mid: string, r: MissionRows, kind: string, args: Json, now: string)
    requires var t := Claim(h, budget, mid, r, kind, args, now); t.outcome.Ok? && !t.outcome.value.isFresh
    ensures var t := Claim(h, budget, mid, r, kind, args, now);
      DoneAs(t.rows.actions, GateResult(t.outcome.value.key, false, t.outcome.value.externalId))
  {
    hide ActionKey, Recorded;
  }

  lemma CompletedNow(h: Hash, mid: string, r: MissionRows, key: string, eid: Option<string>, result: Option<Json>,
                     now: string)
    requires Complete(h, mid, r, key, eid, result, now).outcome.Ok?
    ensures DoneAs(Complete(h, mid, r, key, eid, result, now).rows.actions, GateResult(key, true, eid))
  {
    hide NewEvent;
    var i := IndexOf(r.actions, key);
    var t := Settled(r.actions, key, Completed, eid, OrEmpty(result));
    UpdateIndex(r.actions, i, t[i], key);
  }

  lemma Looks(h: Hash, mid: string, g: GateSys, kind: string, args: Json, requireClaim: bool, eid: Option<string>)
    requires g.procs == map[]
    ensures GateApply(h, mid, g, Look(0, kind, args, requireClaim, eid), true)
      == g.(procs := map[0 := AfterFind(Find(h, g.s.rows, kind, args), kind, args, requireClaim, eid)])
  {
    hide Find, AfterFind, Apply;
  }

  lemma Claims(h: Hash, mid: string, g: GateSys, p: Proc, budget: RetryBudget, now: string)
    requires g.procs == map[0 := p]
    ensures var g' := GateApply(h, mid, g, TakeClaim(0, budget, now), true);
      if !p.Looked? then g' == g
      else
        var t := Claim(h, budget, mid, g.s.rows, p.kind, p.args, now);
        g' == g.(s := g.s.(rows := t.rows), procs := map[0 := AfterClaim(t.outcome, p.externalId)])
  {
    hide Claim, AfterClaim, CreateMission, Append, Complete, Reconcile;
  }

  lemma NothingToFire(h: Hash, mid: string, g: GateSys, p: Proc, effect: Effect, now: string)
    requires g.procs == map[0 := p] && !p.Claiming? && !p.Fired?
    ensures GateRun(h, mid, g, FireSteps(effect, now), true) == g
  {
    hide Apply, Claim, Complete, Find, ReturnedJson, TextOf;
    var steps := FireSteps(effect, now);
    if effect.RaisesEffect? {
      assert steps[1..] == [];
    } else {
      RunTwo(h, mid, g, Fire(0, TextOf(effect)), Finish(0, Some(ReturnedJson(effect)), now), true);
    }
  }

  lemma Raises(h: Hash, mid: string, g: GateSys, key: string, eid: Option<string>, effect: Effect, now: string)
    requires g.procs == map[0 := Claiming(key, eid)] && effect.RaisesEffect?
    ensures GateRun(h, mid, g, FireSteps(effect, now), true)
      == g.(procs := map[0 := Failed(EffectFailed)],
            world := if effect.happened then g.world[key := Times(g, key) + 1] else g.world)
  {
    hide Apply, Claim, Complete, Find;
    assert FireSteps(effect, now)[1..] == [];
  }

  lemma Fires(h: Hash, mid: string, g: GateSys, key: string, eid: Option<string>, effect: Effect, now: string)
    requires g.procs == map[0 := Claiming(key, eid)] && !effect.RaisesEffect?
    ensures var g' := GateRun(h, mid, g, FireSteps(effect, now), true);
      var t := Complete(h, mid, g.s.rows, key, Resolved(eid, TextOf(effect)), Some(ReturnedJson(effect)), now);
      && g'.s.rows == t.rows && g'.world == g.world[key := Times(g, key) + 1]
      && g'.procs == map[0 := AfterComplete(t.outcome, key)]
  {
    hide Claim, Complete, Find, Reconcile, CreateMission, Append, Resolved, ReturnedJson, TextOf;
    RunTwo(h, mid, g, Fire(0, TextOf(effect)), Finish(0, Some(ReturnedJson(effect)), now), true);
  }

  // ---- how a call ends, told from the rows and the world before it ---------------------------

  /** One row is completed now, in the attempt after its last; the log grew by its start and its completion. */
  ghost predicate LeftCompleted(h: Hash, r: MissionRows, r': MissionRows, kind: string, args: Json,
                                eid: Option<string>, result: Json) {
    var key := ActionKey(h, kind, args);
    var t, t', i, n := r.actions, r'.actions, IndexOf(r.actions, key), |r.events|;
    var attempts := 1 + if i < |t| then t[i].attempts else 0;
    && |r'.events| == n + 2 && r'.events[..n] == r.events
    && r'.events[n].fact == ActionStarted(key, kind, args, attempts)
    && r'.events[n + 1].fact == ActionCompleted(key, eid, result)
    && Beside(r').(actions := t) == Beside(r) && OnlyRow(t, t', i)
    && t'[i] == ActionRow(key, if i < |t| then t[i].kind else kind, if i < |t| then t[i].args else args, Completed, eid,
                          Some(result), attempts)
  }

  /** The effect returned: its action is completed, under the caller's external id or else the text it returned. */
  ghost predicate Performed(h: Hash, r: MissionRows, kind: string, args: Json, effect: Effect,
                            externalId: Option<string>, r': MissionRows, outcome: Outcome<GateResult>) {
    var text := if effect.ReturnsText? then Some(effect.text) else None;
    var eid := if externalId.None? then text else externalId;
    var truthy := effect != ReturnsText("") && effect != ReturnsOther(false);
    && outcome == Ok(GateResult(ActionKey(h, kind, args), true, eid))
    && LeftCompleted(h, r, r', kind, args, eid, Obj([Field("returned", Bool(truthy))]))
  }

  /**
   How `protected_call` ends, in the order of its cases: the row under the action's key
   decides alone, then the budget, then the effect.
   */
  ghost predicate CallEnds(h: Hash, mid: string, budget: RetryBudget, r: MissionRows, world: map<string, nat>,
                           kind: string, args: Json, effect: Effect, requireClaim: bool, externalId: Option<string>,
                           now: string, r': MissionRows, world': map<string, nat>, outcome: Outcome<GateResult>)
  {
    var key := ActionKey(h, kind, args);
    var t, i := r.actions, IndexOf(r.actions, key);
    var fired := world[key := 1 + if key in world then world[key] else 0];
    if i < |t| && t[i].status.Completed? then
      outcome == Ok(GateResult(key, false, t[i].externalId)) && r' == r && world' == world
    else if i < |t| && t[i].status.Started? then
      outcome == Raised(UncertainSideEffect) && r' == r && world' == world
    else if i == |t| && requireClaim then
      outcome == Raised(UnclaimedSideEffect) && r' == r && world' == world
    else if !WithinBudget(budget, t, key, kind) then
      outcome == Raised(BudgetExceeded) && r' == r && world' == world
    else if effect.RaisesEffect? then
      && outcome == Raised(EffectFailed) && world' == (if effect.happened then fired else world)
      && ClaimGranted(h, mid, r, r', kind, args, now)
    else world' == fired && Performed(h, r, kind, args, effect, externalId, r', outcome)
  }

  lemma ClaimThenComplete(h: Hash, mid: string, r: MissionRows, s: MissionRows, kind: string, args: Json,
                          eid: Option<string>, result: Json, now: string)
    requires ClaimGranted(h, mid, r, s, kind, args, now)
    ensures var key := ActionKey(h, kind, args);
      var done := Complete(h, mid, s, key, eid, Some(result), now);
      done.outcome == Ok(()) && LeftCompleted(h, r, done.rows, kind, args, eid, result)
  {
    hide ActionKey, Complete;
    var key := ActionKey(h, kind, args);
    CompleteExact(h, mid, s, key, eid, Some(result), now);
    assert IndexOf(s.actions, key) == IndexOf(r.actions, key);
    var done := Complete(h, mid, s, key, eid, Some(result), now);
    assert done.rows.events[..|r.events|] == s.events[..|r.events|];
  }

  lemma ReturnedTruth(effect: Effect)
    requires !effect.RaisesEffect?
    ensures ReturnedJson(effect)
            == Obj([Field("returned", Bool(effect != ReturnsText("") && effect != ReturnsOther(false)))])
  {
  }

  /** The call as the protocol's steps from a state without other calls. */
  ghost function CallRun(h: Hash, mid: string, budget: RetryBudget, r: MissionRows, world: map<string, nat>,
                         kind: string, args: Json, effect: Effect, requireClaim: bool, externalId: Option<string>,
                         now: string): GateSys
  {
    GateRun(h, mid, GateSys(Sys(r, map[]), map[], world),
            CallSteps(budget, kind, args, effect, requireClaim, externalId, now), true)
  }

  /** The two steps before the effect, and those after. */
  lemma CallUnfolds(h: Hash, mid: string, budget: RetryBudget, r: MissionRows, world: map<string, nat>,
                    kind: string, args: Json, effect: Effect, requireClaim: bool, externalId: Option<string>,
                    now: string)
    ensures var g := GateSys(Sys(r, map[]), map[], world);
      var p := AfterFind(Find(h, r, kind, args), kind, args, requireClaim, externalId);
      var c := Claim(h, budget, mid, r, kind, args, now);
      CallRun(h, mid, budget, r, world, kind, args, effect, requireClaim, externalId, now) ==
      if !p.Looked? then g.(procs := map[0 := p])
      else
        var claimed := GateSys(Sys(c.rows, map[]), map[0 := AfterClaim(c.outcome, externalId)], world);
        if !claimed.procs[0].Claiming? then claimed else GateRun(h, mid, claimed, FireSteps(effect, now), true)
  {
    hide Ledger.Claim, Ledger.Find, GateRun, GateApply, FireSteps;
    var look, take := Look(0, kind, args, requireClaim, externalId), TakeClaim(0, budget, now);
    var g0 := GateSys(Sys(r, map[]), map[], world);
    var g1 := GateApply(h, mid, g0, look, true);
    GateRunAppend(h, mid, g0, [look, take], FireSteps(effect, now), true);
    RunTwo(h, mid, g0, look, take, true);
    Looks(h, mid, g0, kind, args, requireClaim, externalId);
    Claims(h, mid, g1, g1.procs[0], budget, now);
    var g2 := GateApply(h, mid, g1, take, true);
    if !g2.procs[0].Claiming? { NothingToFire(h, mid, g2, g2.procs[0], effect, now); }
  }

  lemma FiresExact(h: Hash, mid: string, r: MissionRows, claimed: MissionRows, world: map<string, nat>, kind: string,
                   args: Json, effect: Effect, externalId: Option<string>, now: string, outcome: Outcome<GateResult>)
    requires ClaimGranted(h, mid, r, claimed, kind, args, now) && !effect.RaisesEffect?
    requires var claiming := Claiming(ActionKey(h, kind, args), externalId);
      var g := GateRun(h, mid, GateSys(Sys(claimed, map[]), map[0 := claiming], world), FireSteps(effect, now), true);
      0 in g.procs && Ends(g.procs[0], outcome) && (outcome.Ok? ==> DoneAs(g.s.rows.actions, outcome.value))
    ensures var claiming := Claiming(ActionKey(h, kind, args), externalId);
      var g := GateRun(h, mid, GateSys(Sys(claimed, map[]), map[0 := claiming], world), FireSteps(effect, now), true);
      var key := ActionKey(h, kind, args);
      && Performed(h, r, kind, args, effect, externalId, g.s.rows, outcome)
      && g.world == world[key := 1 + if key in world then world[key] else 0]
  {
    hide ActionKey, GateRun, GateApply, FireSteps, Ledger.Complete, LeftCompleted, ClaimGranted, ReturnedJson;
    var key := ActionKey(h, kind, args);
    Fires(h, mid, GateSys(Sys(claimed, map[]), map[0 := Claiming(key, externalId)], world), key, externalId, effect,
      now);
    var eid := if externalId.None? then TextOf(effect) else externalId;
    ClaimThenComplete(h, mid, r, claimed, kind, args, eid, ReturnedJson(effect), now);
    CompletedNow(h, mid, claimed, key, eid, Some(ReturnedJson(effect)), now);
    ReturnedTruth(effect);
  }

  /** Where the steps of a call end, in rows, world and answer. */
  lemma CallExact(h: Hash, mid: string, budget: RetryBudget, r: MissionRows, world: map<string, nat>,
                  kind: string, args: Json, effect: Effect, requireClaim: bool, externalId: Option<string>,
                  now: string, outcome: Outcome<GateResult>)
    requires var g := CallRun(h, mid, budget, r, world, kind, args, effect, requireClaim, externalId, now);
      && 0 in g.procs && Ends(g.procs[0], outcome)
      && (outcome.Ok? ==> DoneAs(g.s.rows.actions, outcome.value))
    ensures var g := CallRun(h, mid, budget, r, world, kind, args, effect, requireClaim, externalId, now);
      CallEnds(h, mid, budget, r, world, kind, args, effect, requireClaim, externalId, now, g.s.rows, g.world, outcome)
  {
    hide ActionKey, Ledger.Claim, Ledger.Find, GateRun, GateApply, FireSteps, WithinBudget, MayClaim, CallRun,
      CallSteps, Performed, ClaimGranted, Claimable;
    var key := ActionKey(h, kind, args);
    CallUnfolds(h, mid, budget, r, world, kind, args, effect, requireClaim, externalId, now);
    FindExact(h, r, kind, args);
    ClaimExact(h, budget, mid, r, kind, args, now);
    var p := AfterFind(Find(h, r, kind, args), kind, args, requireClaim, externalId);
    if p.Looked? {
      var c := Claim(h, budget, mid, r, kind, args, now);
      var g := GateSys(Sys(c.rows, map[]), map[0 := AfterClaim(c.outcome, externalId)], world);
      if Claimable(budget, r.actions, key, kind) && effect.RaisesEffect? {
        Raises(h, mid, g, key, externalId, effect, now);
      } else if Claimable(budget, r.actions, key, kind) {
        FiresExact(h, mid, r, c.rows, world, kind, args, effect, externalId, now, outcome);
      }
    }
  }

  lemma CallsEnd(h: Hash, mid: string, budget: RetryBudget, r: MissionRows, world: map<string, nat>,
                 kind: string, args: Json, effect: Effect, requireClaim: bool, externalId: Option<string>, now: string)
    ensures var g := CallRun(h, mid, budget, r, world, kind, args, effect, requireClaim, externalId, now);
      forall outcome ::
        0 in g.procs && Ends(g.procs[0], outcome) && (outcome.Ok? ==> DoneAs(g.s.rows.actions, outcome.value)) ==>
          CallEnds(h, mid, budget, r, world, kind, args, effect, requireClaim, externalId, now, g.s.rows, g.world,
                   outcome)
  {
    hide CallRun, CallEnds, DoneAs, Ends;
    var g := CallRun(h, mid, budget, r, world, kind, args, effect, requireClaim, externalId, now);
    forall outcome |
      0 in g.procs && Ends(g.procs[0], outcome) && (outcome.Ok? ==> DoneAs(g.s.rows.actions, outcome.value))
      ensures CallEnds(h, mid, budget, r, world, kind, args, effect, requireClaim, externalId, now, g.s.rows, g.world,
                       outcome)
    {
      CallExact(h, mid, budget, r, world, kind, args, effect, requireClaim, externalId, now, outcome);
    }
  }

  /** The part of `protected_call` after a granted claim: the effect, then its completion. */
  method FireAndComplete(ledger: ActionLedger, world: World, key: string, externalId: Option<string>, effect: Effect,
                         now: string)
    returns (r: Outcome<GateResult>)
    modifies ledger.store, world
    ensures var claiming := GateSys(Sys(old(ledger.store.View(ledger.missionId)), map[]),
      map[0 := Claiming(key, externalId)], old(world.times));
      var after := GateRun(ledger.store.h, ledger.missionId, claiming, FireSteps(effect, now), true);
      && ledger.store.View(ledger.missionId) == after.s.rows && world.times == after.world
      && 0 in after.procs && Ends(after.procs[0], r)
    ensures r.Ok? ==> DoneAs(ledger.store.ActionTable(ledger.missionId), r.value)
    ensures ledger.store.Only(ledger.missionId)
  {
    hide ReturnedJson, TextOf, DoneAs, Ledger.Complete, GateRun, GateApply, FireSteps, EverRunStore.View;
    var store, mid := ledger.store, ledger.missionId;
    ghost var h, fired := store.h, store.View(mid);
    ghost var claiming := GateSys(Sys(fired, map[]), map[0 := Claiming(key, externalId)], world.times);
    var times := if key in world.times then world.times[key] else 0;
    if effect.RaisesEffect? {
      Raises(h, mid, claiming, key, externalId, effect, now);
      if effect.happened {
        world.times := world.times[key := times + 1];
      }
      return Raised(EffectFailed);
    }
    Fires(h, mid, claiming, key, externalId, effect, now);
    world.times := world.times[key := times + 1];
    var resolved := if externalId.Some? then externalId else TextOf(effect);
    var done := ledger.Complete(key, resolved, Some(ReturnedJson(effect)), now);
    if done.Raised? {
      return Raised(done.error);
    }
    CompletedNow(h, mid, fired, key, resolved, Some(ReturnedJson(effect)), now);
    TableInView(store, mid);
    return Ok(GateResult(key, true, resolved));
  }

  /** `protected_call`, run without interruption: it ends where its protocol steps end, and as `CallEnds` says. */
  method ProtectedCall(ledger: ActionLedger, world: World, kind: string, args: Json, effect: Effect, requireClaim: bool,
                       externalId: Option<string>, now: string) returns (r: Outcome<GateResult>)
    modifies ledger.store, world
    ensures CallEnds(ledger.store.h, ledger.missionId, ledger.budget, old(ledger.store.View(ledger.missionId)),
                     old(world.times), kind, args, effect, requireClaim, externalId, now,
                     ledger.store.View(ledger.missionId), world.times, r)
    ensures var after := CallRun(ledger.store.h, ledger.missionId, ledger.budget,
                                 old(ledger.store.View(ledger.missionId)), old(world.times), kind, args, effect,
                                 requireClaim, externalId, now);
      && ledger.store.View(ledger.missionId) == after.s.rows && world.times == after.world
      && 0 in after.procs && Ends(after.procs[0], r)
    ensures r.Ok? ==> DoneAs(ledger.store.ActionTable(ledger.missionId), r.value)
    ensures ledger.store.Only(ledger.missionId)
  {
    hide DoneAs, ActionKey, Ledger.Claim, Ledger.Find, GateRun, GateApply, FireSteps, Recorded, EverRunStore.View,
      CallRun, CallEnds;
    var store, mid := ledger.store, ledger.missionId;
    ghost var h, before, times := store.h, store.View(mid), world.times;
    CallUnfolds(h, mid, ledger.budget, before, times, kind, args, effect, requireClaim, externalId, now);
    CallsEnd(h, mid, ledger.budget, before, times, kind, args, effect, requireClaim, externalId, now);
    var existing := ledger.Find(kind, args);
    if requireClaim && existing.None? {
      return Raised(UnclaimedSideEffect);
    }
    if existing.Some? {
      if existing.value.status.Completed? {
        FoundDone(h, before, kind, args, existing.value);
        TableInView(store, mid);
        return Ok(GateResult(existing.value.key, false, existing.value.externalId));
      }
      if existing.value.status.Started? {
        return Raised(UncertainSideEffect);
      }
    }
    var claim := ledger.Claim(kind, args, now);
    if claim.Raised? {
      return Raised(claim.error);
    }
    if !claim.value.isFresh {
      ClaimedBefore(h, ledger.budget, mid, before, kind, args, now);
      TableInView(store, mid);
      return Ok(GateResult(claim.value.key, false, claim.value.externalId));
    }
    r := FireAndComplete(ledger, world, claim.value.key, externalId, effect, now);
    TableInView(store, mid);
  }

  lemma TableInView(store: EverRunStore, mid: string)
    ensures store.View(mid).actions == store.ActionTable(mid)
  {
  }
}
