/**
 Which settlements of an action are harmless: exactly those after which no run of the
 guarded protocol makes its effect happen twice.
 */
module Settlements {
  import opened Prelude
  import opened Json
  import opened Models
  import opened Ledger
  import opened Runs
  import opened ReplayedLedger
  import opened Gate

  /** A reconciliation with any answer, whether or not anybody holds the claim. */
  ghost function AfterSettlement(h: Hash, mid: string, g: GateSys, key: string, occurred: bool, eid: Option<string>,
                                 result: Option<Json>, now: string): GateSys {
    g.(s := Apply(h, mid, g.s, ReconcileAction(key, occurred, eid, result, now)))
  }

  /** A live call stands between its granted claim and its effect. */
  ghost predicate InBetween(g: GateSys, key: string) {
    exists pid :: AboutToFire(g, pid, key)
  }

  /** Whatever the protocol does from here on, the effect has happened at most once. */
  ghost predicate Harmless(h: Hash, mid: string, g: GateSys, key: string) {
    forall more: seq<GateStep> :: Times(GateRun(h, mid, g, more, true), key) <= 1
  }

  // ---- what keeps an effect from happening twice ----------------------------------------------

  predicate Holding(g: GateSys, pid: nat, key: string) {
    pid in g.procs && Holds(g.procs[pid], key)
  }

  /** At most one call holds the claim, and it has fired iff the effect happened. */
  ghost predicate HolderTells(g: GateSys, key: string) {
    && (forall p, q :: Holding(g, p, key) && Holding(g, q, key) ==> p == q)
    && (forall pid :: Holding(g, pid, key) ==> Times(g, key) == if g.procs[pid].Fired? then 1 else 0)
  }

  /** A claimable action has neither happened nor a holder; otherwise it happened at most once and its holder tells. */
  ghost predicate Safe(g: GateSys, key: string) {
    && Times(g, key) <= 1 && HolderTells(g, key)
    && (StatusOf(g.s.rows.actions, key) in {None, Some(NotOccurred)} ==>
          Times(g, key) == 0 && forall pid :: !Holding(g, pid, key))
  }

  /** Nothing about the action changes but that process `pid` may let go of it. */
  lemma SafeQuiet(g: GateSys, g': GateSys, key: string, pid: nat, p: Proc)
    requires Safe(g, key) && !Holds(p, key)
    requires StatusOf(g'.s.rows.actions, key) == StatusOf(g.s.rows.actions, key)
    requires Times(g', key) == Times(g, key) && g'.procs == g.procs[pid := p]
    ensures Safe(g', key)
  {
    hide StatusOf;
    forall q | Holding(g', q, key) ensures Holding(g, q, key) && g'.procs[q] == g.procs[q] {}
  }

  lemma SafeSame(g: GateSys, g': GateSys, key: string)
    requires Safe(g, key) && StatusOf(g'.s.rows.actions, key) == StatusOf(g.s.rows.actions, key)
    requires Times(g', key) == Times(g, key) && g'.procs == g.procs
    ensures Safe(g', key)
  {
    hide StatusOf;
    forall q ensures Holding(g', q, key) <==> Holding(g, q, key) {}
  }

  /** The row is completed; nobody's hold changes. */
  lemma SafeCompleted(g: GateSys, g': GateSys, key: string)
    requires Times(g, key) <= 1 && HolderTells(g, key) && StatusOf(g'.s.rows.actions, key) == Some(Completed)
    requires g'.world == g.world && g'.procs == g.procs
    ensures Safe(g', key)
  {
    hide StatusOf;
    forall q ensures Holding(g', q, key) <==> Holding(g, q, key) {}
  }

  lemma SafeClaim(h: Hash, mid: string, g: GateSys, pid: nat, budget: RetryBudget, now: string, key: string)
    requires Safe(g, key) && pid in g.procs && g.procs[pid].Looked?
    ensures Safe(GateApply(h, mid, g, TakeClaim(pid, budget, now), true), key)
  {
    hide Apply, Claim, StatusOf, ActionKey;
    var p := g.procs[pid];
    var g' := GateApply(h, mid, g, TakeClaim(pid, budget, now), true);
    ClaimMoves(h, mid, g.s.rows, budget, p.kind, p.args, now, key);
    if Holds(g'.procs[pid], key) {
      forall q | Holding(g', q, key) ensures q == pid { assert q != pid ==> Holding(g, q, key); }
    } else {
      SafeQuiet(g, g', key, pid, g'.procs[pid]);
    }
  }

  lemma SafeFire(g: GateSys, g': GateSys, key: string, pid: nat, p: Proc, happened: bool)
    requires Safe(g, key) && pid in g.procs && g.procs[pid].Claiming? && g'.s == g.s && g'.procs == g.procs[pid := p]
    requires var k := g.procs[pid].key;
      && (p.Failed? || (p.Fired? && p.key == k && happened))
      && g'.world == if happened then g.world[k := Times(g, k) + 1] else g.world
    ensures Safe(g', key)
  {
    hide StatusOf;
    if g.procs[pid].key == key {
      assert Holding(g, pid, key) && Times(g, key) == 0;
      forall q | Holding(g', q, key) ensures q == pid { assert q != pid ==> Holding(g, q, key); }
    } else {
      SafeQuiet(g, g', key, pid, p);
    }
  }

  lemma SafeFinish(h: Hash, mid: string, g: GateSys, pid: nat, result: Option<Json>, now: string, key: string)
    requires Safe(g, key) && pid in g.procs && g.procs[pid].Fired?
    ensures Safe(GateApply(h, mid, g, Finish(pid, result, now), true), key)
  {
    hide Apply, Complete, StatusOf;
    var p := g.procs[pid];
    var g' := GateApply(h, mid, g, Finish(pid, result, now), true);
    CompleteMoves(h, mid, g.s, p.key, p.externalId, result, now, key);
    forall q | Holding(g', q, key) ensures Holding(g, q, key) && g'.procs[q] == g.procs[q] {}
  }

  lemma SafeSettle(h: Hash, mid: string, g: GateSys, k: string, eid: Option<string>, result: Option<Json>, now: string,
                   key: string)
    requires Safe(g, key) && !Held(g, k)
    ensures Safe(GateApply(h, mid, g, Settle(k, eid, result, now), true), key)
  {
    hide Apply, StatusOf;
    var g' := GateApply(h, mid, g, Settle(k, eid, result, now), true);
    ReconcileMoves(h, mid, g.s, k, Times(g, k) > 0, eid, result, now, key);
    forall q ensures Holding(g', q, key) <==> Holding(g, q, key) {}
    if k == key {
      forall q ensures !Holding(g, q, key) {}
    }
  }

  lemma SafeStep(h: Hash, mid: string, g: GateSys, step: GateStep, key: string)
    requires Safe(g, key)
    ensures Safe(GateApply(h, mid, g, step, true), key)
  {
    hide Safe, Apply, Claim, Complete, Find, StatusOf;
    var g' := GateApply(h, mid, g, step, true);
    match step
    case Look(pid, _, _, _, _) => if pid !in g.procs { SafeQuiet(g, g', key, pid, g'.procs[pid]); }
    case TakeClaim(pid, budget, now) =>
      if pid in g.procs && g.procs[pid].Looked? { SafeClaim(h, mid, g, pid, budget, now, key); }
    case Fire(pid, _) =>
      if pid in g.procs && g.procs[pid].Claiming? { SafeFire(g, g', key, pid, g'.procs[pid], true); }
    case FireRaises(pid, happened) =>
      if pid in g.procs && g.procs[pid].Claiming? { SafeFire(g, g', key, pid, g'.procs[pid], happened); }
    case Finish(pid, result, now) =>
      if pid in g.procs && g.procs[pid].Fired? { SafeFinish(h, mid, g, pid, result, now, key); }
    case Crash(pid) => if pid in g.procs { SafeQuiet(g, g', key, pid, Dead); }
    case Settle(k, eid, result, now) => if !Held(g, k) { SafeSettle(h, mid, g, k, eid, result, now, key); }
    case Elsewhere(op) =>
      if !op.ClaimAction? && !op.CompleteAction? && !op.ReconcileAction? {
        OtherStepsLeaveActions(h, mid, g.s, op);
        SafeSame(g, g', key);
      }
  }

  lemma {:induction false} SafeRun(h: Hash, mid: string, g: GateSys, steps: seq<GateStep>, key: string)
    requires Safe(g, key)
    ensures Safe(GateRun(h, mid, g, steps, true), key)
    decreases steps
  {
    hide Safe, GateApply;
    if steps != [] {
      SafeStep(h, mid, g, steps[0], key);
      SafeRun(h, mid, GateApply(h, mid, g, steps[0], true), steps[1..], key);
    }
  }

  lemma SafeIsHarmless(h: Hash, mid: string, g: GateSys, key: string)
    requires Safe(g, key)
    ensures Harmless(h, mid, g, key)
  {
    hide GateRun;
    forall more: seq<GateStep> ensures Times(GateRun(h, mid, g, more, true), key) <= 1 {
      SafeRun(h, mid, g, more, key);
    }
  }

  /** What the protocol's own invariant says of one action. */
  lemma RightIsSafe(g: GateSys, key: string)
    requires GateRight(g)
    ensures Safe(g, key)
    ensures InBetween(g, key) ==> StatusOf(g.s.rows.actions, key) == Some(Started) && Times(g, key) == 0
  {
    hide StatusOf;
    assert KeyRight(g, key);
    forall pid | Holding(g, pid, key) ensures Held(g, key) {}
    forall pid | AboutToFire(g, pid, key) ensures Holding(g, pid, key) {}
  }

  // ---- the two directions --------------------------------------------------------------------

  /** The settlements after which a second effect is impossible. */
  ghost predicate Settleable(g: GateSys, key: string, occurred: bool) {
    occurred || StatusOf(g.s.rows.actions, key) != Some(Started) || (Times(g, key) == 0 && !InBetween(g, key))
  }

  lemma SettleableStaysSafe(h: Hash, mid: string, g: GateSys, key: string, occurred: bool, eid: Option<string>,
                            result: Option<Json>, now: string)
    requires GateRight(g) && Settleable(g, key, occurred)
    ensures Safe(AfterSettlement(h, mid, g, key, occurred, eid, result, now), key)
  {
    hide Apply, StatusOf;
    var g' := AfterSettlement(h, mid, g, key, occurred, eid, result, now);
    RightIsSafe(g, key);
    ReconcileMoves(h, mid, g.s, key, occurred, eid, result, now, key);
    if StatusOf(g.s.rows.actions, key) != Some(Started) {
      SafeSame(g, g', key);
    } else if occurred {
      SafeCompleted(g, g', key);
    } else {
      forall pid ensures !Holding(g', pid, key) {
        assert Holding(g, pid, key) ==> AboutToFire(g, pid, key);
      }
    }
  }

  lemma {:induction false} FreshPid(pids: set<nat>) returns (n: nat)
    ensures forall pid :: pid in pids ==> pid < n
    decreases |pids|
  {
    n := 0;
    if pids != {} {
      var pid :| pid in pids;
      var rest := pids - {pid};
      var m := FreshPid(rest);
      n := if m <= pid then pid + 1 else m;
      forall p | p in pids ensures p < n { assert p == pid || p in rest; }
    }
  }

  lemma FireOnce(h: Hash, mid: string, g: GateSys, key: string, q: nat)
    requires AboutToFire(g, q, key)
    ensures Times(GateRun(h, mid, g, [Fire(q, None)], true), key) == Times(g, key) + 1
  {
    hide Apply, Claim, Complete, Find;
    assert [Fire(q, None)][1..] == [];
  }

  /** After any other settlement some run makes the effect happen twice. */
  lemma OthersDouble(h: Hash, mid: string, g: GateSys, kind: string, args: Json, eid: Option<string>,
                     result: Option<Json>, now: string)
    requires GateRight(g) && !Settleable(g, ActionKey(h, kind, args), false)
    ensures var key := ActionKey(h, kind, args);
      !Harmless(h, mid, AfterSettlement(h, mid, g, key, false, eid, result, now), key)
  {
    hide Apply, StatusOf, ActionKey, GateRun, GateApply, LookAndClaim;
    var key := ActionKey(h, kind, args);
    var g1 := AfterSettlement(h, mid, g, key, false, eid, result, now);
    RightIsSafe(g, key);
    ReconcileMoves(h, mid, g.s, key, false, eid, result, now, key);
    var q := FreshPid(g.procs.Keys);
    assert q !in g1.procs;
    GrantedClaim(h, mid, g1, q, kind, args, now, true);
    var claim := LookAndClaim(q, kind, args, now);
    var g2 := GateRun(h, mid, g1, claim, true);
    if Times(g, key) > 0 {
      FireOnce(h, mid, g2, key, q);
      GateRunAppend(h, mid, g1, claim, [Fire(q, None)], true);
      assert Times(GateRun(h, mid, g1, claim + [Fire(q, None)], true), key) == 2;
    } else {
      var p :| AboutToFire(g, p, key);
      BothFire(h, mid, g2, key, p, q, true);
      GateRunAppend(h, mid, g1, claim, [Fire(q, None), Fire(p, None)], true);
      assert Times(GateRun(h, mid, g1, claim + [Fire(q, None), Fire(p, None)], true), key) == 2;
    }
  }

  /**
   For every state of the guarded protocol and every settlement, truthful or not: it
   is harmless iff it says the effect occurred, or finds the row not started, or the
   effect has not happened and no live call is between its claim and its effect.
   */
  lemma SettlementHarmlessIff(h: Hash, mid: string, steps: seq<GateStep>, kind: string, args: Json, occurred: bool,
                              eid: Option<string>, result: Option<Json>, now: string)
    ensures var g := GateRun(h, mid, GATE_START, steps, true);
      var key := ActionKey(h, kind, args);
      Harmless(h, mid, AfterSettlement(h, mid, g, key, occurred, eid, result, now), key)
      <==> occurred || StatusOf(g.s.rows.actions, key) != Some(Started) || (Times(g, key) == 0 && !InBetween(g, key))
  {
    hide GateRun, ActionKey, StatusOf, GateRight, AfterSettlement, Harmless, Safe, InBetween;
    var g := GateRun(h, mid, GATE_START, steps, true);
    var key := ActionKey(h, kind, args);
    assert GateRight(GATE_START) by { StartRight(); }
    RunGate(h, mid, GATE_START, steps);
    if Settleable(g, key, occurred) {
      SettleableStaysSafe(h, mid, g, key, occurred, eid, result, now);
      SafeIsHarmless(h, mid, AfterSettlement(h, mid, g, key, occurred, eid, result, now), key);
    } else {
      OthersDouble(h, mid, g, kind, args, eid, result, now);
    }
  }

  lemma StartRight()
    ensures GateRight(GATE_START)
  {
  }

  /** A truthful settlement is harmless iff no live call is between its claim and its effect. */
  lemma TruthfulSettlementHarmlessIff(h: Hash, mid: string, steps: seq<GateStep>, kind: string, args: Json,
                                      eid: Option<string>, result: Option<Json>, now: string)
    ensures var g := GateRun(h, mid, GATE_START, steps, true);
      var key := ActionKey(h, kind, args);
      Harmless(h, mid, AfterSettlement(h, mid, g, key, Times(g, key) > 0, eid, result, now), key)
      <==> !InBetween(g, key)
  {
    hide GateRun, ActionKey, StatusOf, GateRight, AfterSettlement, Harmless, InBetween;
    var g := GateRun(h, mid, GATE_START, steps, true);
    var key := ActionKey(h, kind, args);
    assert GateRight(GATE_START) by { StartRight(); }
    RunGate(h, mid, GATE_START, steps);
    RightIsSafe(g, key);
    SettlementHarmlessIff(h, mid, steps, kind, args, Times(g, key) > 0, eid, result, now);
  }
}
