/** The crash-recovery demo of `demo.py`, end to end. */
module Demo {
  import opened Prelude
  import opened Json
  import opened Models
  import opened Chain
  import opened Projection
  import opened Rows
  import opened Ledger
  import opened Recovery
  import opened Closing
  import opened Store
  import opened LedgerStore

  datatype DemoResult = DemoResult(completed: int, uniqueOutputs: int, duplicates: int, chainValid: bool,
    sideEffectCount: int)

  const DEMO := "demo"

  function Max(a: int, b: int): int {
    if a < b then b else a
  }

  /** `str(0)`, `str(1)`, ... */
  function Items(n: nat): (r: seq<string>)
    ensures |r| == n && forall i :: 0 <= i < n ==> r[i] == Dec(i)
  {
    seq(n, i requires 0 <= i => Dec(i))
  }

  lemma ItemsDistinct(n: nat)
    ensures Distinct(Items(n))
  {
    forall i, j | 0 <= i < j < n ensures Items(n)[i] != Items(n)[j] {
      if Digits(i) == Digits(j) { DigitsInjective(i, j); }
    }
  }

  lemma ItemsNext(n: nat)
    ensures Items(n + 1) == Items(n) + [Dec(n)] && Dec(n) !in Items(n)
  {
    ItemsDistinct(n + 1);
    assert Items(n + 1)[n] == Dec(n);
    forall i | 0 <= i < n ensures Items(n)[i] != Dec(n) { assert Items(n + 1)[i] == Items(n)[i]; }
  }

  lemma ItemsHave(n: nat, i: nat)
    ensures Dec(i) in Items(n) <==> i < n
  {
    if i < n {
      assert Items(n)[i] == Dec(i);
    } else {
      forall j | 0 <= j < n ensures Items(n)[j] != Dec(i) {
        if Digits(j) == Digits(i) { DigitsInjective(j, i); }
      }
    }
  }

  lemma {:induction false} DistinctSize(xs: seq<string>)
    requires Distinct(xs)
    ensures |set x | x in xs| == |xs|
  {
    if xs != [] {
      var n := |xs| - 1;
      DistinctSize(xs[..n]);
      assert (set x | x in xs) == (set x | x in xs[..n]) + {xs[n]};
    }
  }

  // ---- the item events fit ---------------------------------------------------------------

  lemma {:induction false} PlainLength(s: string, k: string)
    requires forall i :: 0 <= i < |s| ==> '0' <= s[i] <= '9'
    ensures |Escaped(s, k)| == |s| + 1 + |k|
  {
    if s != [] { PlainLength(s[1..], k); }
  }

  /** An item's event fits iff its number has at most this many digits. */
  lemma ItemFits(n: nat)
    ensures Fits(WorkCompleted(Dec(n))) <==> |Digits(n)| <= MAX_PAYLOAD_CHARS - 11
  {
    var f := Field("item", Str(Digits(n)));
    assert NormFields([f]) == [f] && Sort([f]) == [f];
    assert [f][1..] == [] && Norm(Obj([f])) == Obj([f]);
    assert WriteFields([], "") == "}";
    assert Canonical(Obj([f])) == "{" + WriteField(f, "}");
    PlainLength(Digits(n), "}");
    ItemKeyLength(":" + Quoted(Digits(n), "}"));
  }

  lemma ItemKeyLength(k: string)
    ensures |Quoted("item", k)| == 6 + |k|
  {
    assert "item"[1..] == "tem" && "tem"[1..] == "em" && "em"[1..] == "m" && "m"[1..] == "";
    assert |Escaped("", k)| == 1 + |k|;
    assert |Escaped("m", k)| == 2 + |k|;
    assert |Escaped("em", k)| == 3 + |k|;
    assert |Escaped("tem", k)| == 4 + |k|;
    assert |Escaped("item", k)| == 5 + |k|;
  }

  lemma {:induction false} DigitsMonotone(m: nat, n: nat)
    requires m <= n
    ensures |Digits(m)| <= |Digits(n)|
  {
    DigitsLength(m);
    if n >= 10 && m >= 10 { DigitsMonotone(m / 10, n / 10); }
  }

  function Pow10(k: nat): nat {
    if k == 0 then 1 else 10 * Pow10(k - 1)
  }

  lemma {:induction false} DigitsBelow(n: nat, k: nat)
    requires k > 0 && n < Pow10(k)
    ensures |Digits(n)| <= k
  {
    if n >= 10 {
      assert Pow10(1) == 10 * Pow10(0);
      assert n / 10 < Pow10(k - 1);
      DigitsBelow(n / 10, k - 1);
    }
  }

  lemma TotalIsShort(n: nat)
    requires n <= MAX_TOTAL
    ensures |Digits(n)| <= 8
  {
    assert Pow10(1) == 10 && Pow10(2) == 100 && Pow10(3) == 1000 && Pow10(4) == 10000;
    assert Pow10(5) == 100000 && Pow10(6) == 1000000 && Pow10(7) == 10000000 && Pow10(8) == 100000000;
    DigitsBelow(n, 8);
  }

  lemma SmallerFits(i: nat, n: nat)
    requires i <= n && Fits(WorkCompleted(Dec(n)))
    ensures Fits(WorkCompleted(Dec(i)))
  {
    hide Fits;
    ItemFits(i);
    ItemFits(n);
    DigitsMonotone(i, n);
  }

  lemma WithinTotalFits(i: nat)
    requires i < MAX_TOTAL
    ensures Fits(WorkCompleted(Dec(i)))
  {
    hide Fits;
    TotalIsShort(i);
    ItemFits(i);
  }

  // ---- what recording an event does to a running mission ---------------------------------------

  /** The mission verifies and has completed exactly the first `n` items. */
  ghost predicate Running(h: Hash, r: MissionRows, n: nat) {
    Report(h, r.events, r.head).ok && r.mission.Some? && HasStart(r.events) && State(r.events).completed == Items(n)
  }

  lemma RecordRuns(h: Hash, mid: string, r: MissionRows, r0: MissionRows, f: Fact, now: string, n: nat)
    requires Running(h, r, n) && r0.events == r.events && r0.head == r.head && r0.mission == r.mission
    ensures var r' := Recorded(h, mid, r0, f, Deterministic, now);
      && r'.mission == r.mission && Report(h, r'.events, r'.head).ok && HasStart(r'.events)
      && State(r'.events) == Step(State(r.events), f)
  {
    hide Report, State, NewEvent, Step;
    RecordedKeeps(h, mid, r0, f, Deterministic, now);
    var e := NewEvent(h, mid, r.events, f, Deterministic, now);
    StateAppend(r.events, [e]);
    ReplayOne(State(r.events), e);
  }

  lemma ReplayOne(s: SemanticState, e: Event)
    ensures Replay(s, [e]) == Step(s, e.fact)
  {
    hide Step;
    assert [e][1..] == [];
    assert Replay(s, [e]) == Replay(Step(s, e.fact), []);
  }

  lemma DemoId()
    ensures IsMissionId(DEMO)
  {
    assert IdBody(DEMO) by {
      assert DEMO[0] == 'd' && DEMO[1] == 'e' && DEMO[2] == 'm' && DEMO[3] == 'o';
    }
  }

  lemma DemoStarts(h: Hash, total: int, now: string)
    requires 0 <= total <= MAX_TOTAL
    ensures var t := CreateMission(h, DEMO, NO_ROWS, "Process unique items", total, now);
      t.outcome.Ok? && Running(h, t.rows, 0) && t.rows.actions == []
  {
    hide NewEvent, LinkedAt, IsMissionId;
    DemoId();
    var goal := "Process unique items";
    assert !IsBlank(goal) by { assert goal[0] == 'P' && !IsSpace(goal[0]); }
    var f := MissionStarted(goal, total);
    var r := NO_ROWS.(mission := Some(Mission(DEMO, goal, total)));
    RecordedVerifies(h, DEMO, r, f, Deterministic, now);
    NewEventFact(h, DEMO, [], f, Deterministic, now);
    var r' := Recorded(h, DEMO, r, f, Deterministic, now);
    VerifiedIsOk(h, r'.events, r'.head);
    assert r'.events[1..] == [];
  }

  /** One unit of work: a line in the output file and an event. */
  method WorkOn(store: EverRunStore, out: seq<string>, n: nat, now: string) returns (out': seq<string>, ok: bool)
    requires Running(store.h, store.View(DEMO), n) && out == Items(n)
    modifies store
    ensures ok <==> Fits(WorkCompleted(Dec(n)))
    ensures ok ==> Running(store.h, store.View(DEMO), n + 1) && out' == Items(n + 1)
    ensures store.View(DEMO).actions == old(store.View(DEMO)).actions
  {
    hide NewEvent, IsMissionId, Fits, Report, State;
    DemoId();
    ItemsNext(n);
    RecordRuns(store.h, DEMO, store.View(DEMO), store.View(DEMO), WorkCompleted(Dec(n)), now, n);
    out' := out + [Dec(n)];
    var r := store.Append(DEMO, WorkCompleted(Dec(n)), Deterministic, now);
    ok := r.Ok?;
  }

  /** The claim of the demo's one effect, on a ledger without rows. */
  lemma FirstClaim(h: Hash, r: MissionRows, kind: string, args: Json, now: string, n: nat)
    requires Running(h, r, n) && r.actions == []
    ensures var t := Claim(h, RetryBudget(map[], map[]), DEMO, r, kind, args, now);
      && t.outcome == Ok(ActionClaim(ActionKey(h, kind, args), true, None, None, Started))
      && Running(h, t.rows, n)
      && t.rows.actions == [ActionRow(ActionKey(h, kind, args), kind, args, Started, None, None, 1)]
      && ActionOf(h, Query(t.rows, None, None)) == "reconcile:" + ActionKey(h, kind, args)
  {
    hide ActionKey, NewEvent, Report, State;
    var key := ActionKey(h, kind, args);
    var row := ActionRow(key, kind, args, Started, None, None, 1);
    RecordRuns(h, DEMO, r, r.(actions := [row]), ActionStarted(key, kind, args, 1), now, n);
    assert [row][1..] == [];
    assert Uncertain([row]) == [row];
  }

  lemma ReconcileRuns(h: Hash, r: MissionRows, row: ActionRow, eid: Option<string>, result: Option<Json>, now: string,
                      n: nat)
    requires Running(h, r, n) && r.actions == [row] && row.status.Started?
    ensures Running(h, Reconcile(h, DEMO, r, row.key, true, eid, result, now).rows, n)
  {
    hide NewEvent, Report, State;
    var t := Settled(r.actions, row.key, Completed, eid, OrEmpty(result));
    RecordRuns(h, DEMO, r, r.(actions := t), ActionReconciled(row.key, true, eid), now, n);
  }

  /** Every item before the crash can be recorded. */
  predicate CrashFits(crashAt: int) {
    crashAt <= 0 || Fits(WorkCompleted(Dec(crashAt - 1)))
  }

  /** The loop before the crash. */
  method WorkUntil(store: EverRunStore, crashAt: int, now: string) returns (out: seq<string>, ok: bool)
    requires Running(store.h, store.View(DEMO), 0) && store.View(DEMO).actions == []
    modifies store
    ensures ok <==> CrashFits(crashAt)
    ensures ok ==> Running(store.h, store.View(DEMO), Max(0, crashAt)) && out == Items(Max(0, crashAt))
    ensures ok ==> store.View(DEMO).actions == []
  {
    hide Fits, Dec, Running, Items, EverRunStore.View;
    out := [];
    NoItems();
    var i := 0;
    while i < crashAt
      invariant 0 <= i <= Max(0, crashAt)
      invariant Running(store.h, store.View(DEMO), i) && out == Items(i) && store.View(DEMO).actions == []
      invariant i == 0 || Fits(WorkCompleted(Dec(i - 1)))
    {
      if CrashFits(crashAt) { SmallerFits(i, crashAt - 1); }
      out, ok := WorkOn(store, out, i, now);
      if !ok {
        return;
      }
      i := i + 1;
    }
    ok := true;
  }

  /** The loop after the crash, over the items not yet done. */
  method FinishWork(store: EverRunStore, out: seq<string>, done: seq<string>, crash: nat, total: int, now: string)
    returns (out': seq<string>)
    requires 0 <= total <= MAX_TOTAL
    requires Running(store.h, store.View(DEMO), crash) && out == Items(crash) && done == Items(crash)
    modifies store
    ensures Running(store.h, store.View(DEMO), Max(crash, total)) && out' == Items(Max(crash, total))
  {
    hide Fits, Dec, Running, Items, EverRunStore.View;
    out' := out;
    var i := 0;
    while i < total
      invariant 0 <= i <= total
      invariant Running(store.h, store.View(DEMO), Max(crash, i)) && out' == Items(Max(crash, i))
    {
      ItemsHave(crash, i);
      if Dec(i) !in done {
        WithinTotalFits(i);
        var longer, _ := WorkOn(store, out', i, now);
        out' := longer;
      }
      i := i + 1;
    }
  }

  /** The claim whose completion the crash loses, and the recovery that settles it. */
  method CrashAndRecover(store: EverRunStore, ghost n: nat, now: string)
    returns (effect: seq<string>, state: SemanticState)
    requires Running(store.h, store.View(DEMO), n) && store.View(DEMO).actions == []
    modifies store
    ensures effect == ["published"] && Running(store.h, store.View(DEMO), n) && state.completed == Items(n)
  {
    hide IsMissionId, Running, Items, ActionKey, Claim, Reconcile, ModeOf, ActionOf, Signals, Sealed, Worst,
      EverRunStore.View, Report;
    var h := store.h;
    var kind, args := "publish", Obj([Field("target", Str("side-effect.txt"))]);
    var ledger := new ActionLedger(store, DEMO, RetryBudget(map[], map[]));
    FirstClaim(h, store.View(DEMO), kind, args, now, n);
    var claim := ledger.Claim(kind, args, now);
    effect := ["published"];

    // The process dies here, and another one opens the file.
    OpenRuns(h, store.View(DEMO), n);
    store.Open();
    var decision, _ := Recover(h, Query(store.View(DEMO), None, None), now);
    assert decision.nextSafeAction == "reconcile:" + claim.value.key;
    var observed := Some(Obj([Field("digest", Str("observed"))]));
    ReconcileRuns(h, store.View(DEMO), store.View(DEMO).actions[0], Some("side-effect.txt"), observed, now, n);
    ledger := new ActionLedger(store, DEMO, RetryBudget(map[], map[]));
    var _ := ledger.Reconcile(claim.value.key, effect != [], Some("side-effect.txt"), observed, now);
    RunningState(h, store.View(DEMO), n);
    ViewLog(store);
    var projected := Project(store.Log(DEMO));
    state := projected.value;
  }

  /**
   `run_crash_recovery_demo`: work up to the crash, claim and fire the effect, lose
   its completion, reopen, reconcile and finish the remaining items. It fails
   exactly for an invalid total, an item too long to record, and nothing to do
   at all, when the output file is never created.
   */
  method RunDemo(h: Hash, total: int, crashAt: int, now: string) returns (r: Outcome<DemoResult>)
    ensures r == if !(0 <= total <= MAX_TOTAL) || !CrashFits(crashAt) then Raised(ValueError)
                 else if total == 0 && crashAt <= 0 then Raised(FileNotFound)
                 else Ok(DemoResult(Max(total, crashAt), Max(total, crashAt), 0, true, 1))
  {
    hide CrashFits, Running, Items, Rows.CreateMission, EverRunStore.View, Report;
    var store := new EverRunStore(h);
    var created := store.CreateMission(DEMO, "Process unique items", total, now);
    if 0 <= total <= MAX_TOTAL { DemoStarts(h, total, now); } else { BadTotal(h, total, now); }
    if created.Raised? {
      return Raised(created.error);
    }
    var out, ok := WorkUntil(store, crashAt, now);
    if !ok {
      return Raised(ValueError);
    }
    var crash := Max(0, crashAt);
    var effect, state := CrashAndRecover(store, crash, now);
    out := FinishWork(store, out, state.completed, crash, total, now);
    var n := Max(crash, total);
    ItemsDistinct(n);
    ItemsCount(n);
    if out == [] {
      return Raised(FileNotFound);
    }
    RunningState(h, store.View(DEMO), n);
    ViewLog(store);
    var final := Project(store.Log(DEMO));
    var chain := store.Verify(DEMO);
    DistinctSize(out);
    var unique := set x | x in out;
    return Ok(DemoResult(|final.value.completed|, |unique|, |out| - |unique|, chain.ok, |effect|));
  }

  lemma BadTotal(h: Hash, total: int, now: string)
    requires !(0 <= total <= MAX_TOTAL)
    ensures Rows.CreateMission(h, DEMO, NO_ROWS, "Process unique items", total, now).outcome == Raised(ValueError)
  {
  }

  lemma NoItems()
    ensures Items(0) == []
  {
  }

  lemma ItemsCount(n: nat)
    ensures |Items(n)| == n
  {
  }

  lemma ViewLog(store: EverRunStore)
    ensures store.View(DEMO).events == store.Log(DEMO)
  {
  }

  lemma RunningState(h: Hash, r: MissionRows, n: nat)
    requires Running(h, r, n)
    ensures HasStart(r.events) && State(r.events).completed == Items(n) && Report(h, r.events, r.head).ok
  {
  }

  lemma OpenRuns(h: Hash, r: MissionRows, n: nat)
    requires Running(h, r, n)
    ensures Reopened(r) == r
  {
    ReopenKeeps(h, r);
  }

  lemma ReopenKeeps(h: Hash, r: MissionRows)
    requires Report(h, r.events, r.head).ok
    ensures Reopened(r) == r
  {
    VerifiedIsOk(h, r.events, r.head);
  }
}
