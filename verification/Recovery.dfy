/** The recovery kernel of `recovery.py`: every signal reduced to one sealed decision. */
module Recovery {
  import opened Prelude
  import opened Json
  import opened Models
  import opened Chain
  import opened Projection
  import opened Contracts
  import opened Environment
  import opened Rows
  import opened Ledger

  datatype Mode = VerifiedComplete | Continue | Wait | Repair | RequestReview | Reconciling | Abort

  function Severity(m: Mode): int {
    match m
    case VerifiedComplete => 0
    case Continue => 1
    case Wait => 2
    case Repair => 3
    case RequestReview => 4
    case Reconciling => 5
    case Abort => 6
  }

  predicate IsSafe(m: Mode) {
    m.Continue? || m.VerifiedComplete?
  }

  function ModeName(m: Mode): string {
    match m
    case VerifiedComplete => "verified_complete"
    case Continue => "continue"
    case Wait => "wait"
    case Repair => "repair"
    case RequestReview => "request_review"
    case Reconciling => "reconcile"
    case Abort => "abort"
  }

  datatype Candidate = Candidate(mode: Mode, action: string, reason: string)

  datatype RecoveryDecision = RecoveryDecision(
    mode: Mode, safe: bool, nextSafeAction: string, reasons: seq<string>, issuedAt: string, version: int,
      digest: string)

  // ---- max and sorted ---------------------------------------------------------------------

  /** `max(candidates, key=severity)`: the first of the most severe. */
  function Worst(cs: seq<Candidate>): Candidate
    requires cs != []
  {
    if |cs| == 1 then cs[0]
    else
      var w := Worst(cs[1..]);
      if Severity(w.mode) > Severity(cs[0].mode) then w else cs[0]
  }

  function InsertBySeverity(c: Candidate, cs: seq<Candidate>): seq<Candidate> {
    if cs == [] || Severity(c.mode) >= Severity(cs[0].mode) then [c] + cs
    else [cs[0]] + InsertBySeverity(c, cs[1..])
  }

  /** `sorted(candidates, key=-severity)`, which is stable. */
  function BySeverity(cs: seq<Candidate>): seq<Candidate> {
    if cs == [] then [] else InsertBySeverity(cs[0], BySeverity(cs[1..]))
  }

  function Reasons(cs: seq<Candidate>): (r: seq<string>)
    ensures |r| == |cs| && forall i :: 0 <= i < |cs| ==> r[i] == cs[i].reason
  {
    seq(|cs|, i requires 0 <= i < |cs| => cs[i].reason)
  }

  lemma {:induction false} WorstExact(cs: seq<Candidate>)
    requires cs != []
    ensures Worst(cs) in cs && forall c :: c in cs ==> Severity(c.mode) <= Severity(Worst(cs).mode)
  {
    if |cs| > 1 {
      WorstExact(cs[1..]);
      assert cs == [cs[0]] + cs[1..];
    }
  }

  lemma {:induction false} InsertCounts(c: Candidate, cs: seq<Candidate>)
    ensures multiset(InsertBySeverity(c, cs)) == multiset(cs) + multiset{c}
  {
    if cs != [] {
      InsertCounts(c, cs[1..]);
      assert cs == [cs[0]] + cs[1..];
    }
  }

  ghost predicate Falling(cs: seq<Candidate>) {
    forall i, j :: 0 <= i < j < |cs| ==> Severity(cs[i].mode) >= Severity(cs[j].mode)
  }

  lemma {:induction false} InsertFalling(c: Candidate, cs: seq<Candidate>)
    requires Falling(cs)
    ensures Falling(InsertBySeverity(c, cs))
  {
    if cs != [] && Severity(c.mode) < Severity(cs[0].mode) {
      InsertFalling(c, cs[1..]);
      InsertCounts(c, cs[1..]);
      var rest := InsertBySeverity(c, cs[1..]);
      forall j | 0 <= j < |rest| ensures Severity(rest[j].mode) <= Severity(cs[0].mode) {
        assert rest[j] in multiset(cs[1..]) + multiset{c};
        assert rest[j] in cs[1..] || rest[j] == c;
      }
    }
  }

  /** Sorting keeps every candidate, lists them by falling severity, and puts the winner first. */
  lemma {:induction false} SortedWorstFirst(cs: seq<Candidate>)
    ensures multiset(BySeverity(cs)) == multiset(cs) && Falling(BySeverity(cs))
    ensures |BySeverity(cs)| == |cs| && (cs != [] ==> BySeverity(cs)[0] == Worst(cs))
  {
    if cs != [] {
      SortedWorstFirst(cs[1..]);
      InsertCounts(cs[0], BySeverity(cs[1..]));
      InsertFalling(cs[0], BySeverity(cs[1..]));
      assert cs == [cs[0]] + cs[1..];
      assert |multiset(BySeverity(cs))| == |multiset(cs)|;
    }
  }

  lemma SeverityInjective(a: Mode, b: Mode)
    requires Severity(a) == Severity(b)
    ensures a == b
  {
  }

  /** Evaluation order cannot change the verdict. */
  lemma OrderFree(cs: seq<Candidate>, ds: seq<Candidate>)
    requires cs != [] && multiset(cs) == multiset(ds)
    ensures ds != [] && Worst(cs).mode == Worst(ds).mode && IsSafe(Worst(cs).mode) == IsSafe(Worst(ds).mode)
  {
    assert cs[0] in multiset(ds);
    WorstExact(cs);
    WorstExact(ds);
    assert Worst(cs) in multiset(ds) && Worst(ds) in multiset(cs);
    SeverityInjective(Worst(cs).mode, Worst(ds).mode);
  }

  // ---- signals --------------------------------------------------------------------------------

  /** What `recover` is asked about: the rows, and the optional environment and contract. */
  datatype Query = Query(rows: MissionRows, environment: Option<Snapshot>, contract: Option<seq<Clause>>)

  ghost predicate EnvironmentDrifted(q: Query) {
    && Pinned(q.rows.events).Some? && q.environment.Some?
    && exists k :: Drifted(Pinned(q.rows.events).value, q.environment.value, k)
  }

  predicate Terminal(es: seq<Event>) {
    exists i :: 0 <= i < |es| && es[i].fact.MissionCompleted?
  }

  predicate ContractUnmet(q: Query) {
    Terminal(q.rows.events) && q.contract.Some? && !Evaluate(q.contract.value, q.rows.events).satisfied
  }

  function TargetMet(s: SemanticState): bool {
    s.total == 0 || |s.completed| >= s.total
  }

  /** A mode is called for by the state of the mission. */
  ghost predicate Applies(h: Hash, q: Query, m: Mode) {
    var ok := Report(h, q.rows.events, q.rows.head).ok;
    match m
    case Abort => !ok
    case Reconciling => ok && exists row :: row in q.rows.actions && row.status.Started?
    case RequestReview => ok && Unconfirmed(q.rows.events)
    case Repair => ok && (EnvironmentDrifted(q) || ContractUnmet(q))
    case Wait => false
    case Continue => ok && !Terminal(q.rows.events)
    case VerifiedComplete => ok && Terminal(q.rows.events) && !ContractUnmet(q)
  }

  /** The order of precedence: the first condition that holds decides. */
  ghost function ModeOf(h: Hash, q: Query): Mode {
    if !Report(h, q.rows.events, q.rows.head).ok then Abort
    else if Uncertain(q.rows.actions) != [] then Reconciling
    else if Unconfirmed(q.rows.events) then RequestReview
    else if EnvironmentDrifted(q) || ContractUnmet(q) then Repair
    else if Terminal(q.rows.events) then VerifiedComplete
    else Continue
  }

  ghost function ActionOf(h: Hash, q: Query): string {
    match ModeOf(h, q)
    case Abort => "repair_event_chain"
    case Reconciling =>
      var u := Uncertain(q.rows.actions);
      "reconcile:" + if u == [] then "" else u[0].key
    case RequestReview => "confirm_progress"
    case Repair =>
      if EnvironmentDrifted(q) then
        var changed := Changed(Pinned(q.rows.events).value, q.environment.value);
        "revalidate:" + if changed == [] then "" else changed[0]
      else if q.contract.Some? then
        var missing := Evaluate(q.contract.value, q.rows.events).missing;
        "prove:" + if missing == [] then "" else missing[0]
      else ""
    case VerifiedComplete => "none"
    case _ =>
      if HasStart(q.rows.events) && State(q.rows.events).total != 0 && TargetMet(State(q.rows.events))
      then "close_mission" else "continue_work"
  }

  lemma ModeIsMaximum(h: Hash, q: Query)
    ensures Applies(h, q, ModeOf(h, q))
    ensures forall m :: Applies(h, q, m) ==> Severity(m) <= Severity(ModeOf(h, q))
  {
    hide Report, Unconfirmed, EnvironmentDrifted, ContractUnmet, Terminal;
    UncertainExact(q.rows.actions);
    var u := Uncertain(q.rows.actions);
    assert u != [] ==> u[0] in u;
  }

  function Join(xs: seq<string>): string {
    if xs == [] then "" else if |xs| == 1 then xs[0] else xs[0] + ", " + Join(xs[1..])
  }

  /** The candidates are exactly the applicable modes. */
  ghost predicate Signals(h: Hash, q: Query, cs: seq<Candidate>) {
    && (forall c :: c in cs ==> Applies(h, q, c.mode))
    && (forall m :: Applies(h, q, m) ==> exists c :: c in cs && c.mode == m)
  }

  // ---- the reasons given ---------------------------------------------------------------------

  /** What a candidate for drift says; without a printable changed key it names the stale ones. */
  ghost predicate SaysDrift(q: Query, c: Candidate) {
    EnvironmentDrifted(q) &&
    var changed := Changed(Pinned(q.rows.events).value, q.environment.value);
    && changed != [] && c.action == "revalidate:" + changed[0]
    && (Join(changed) != "" ==> c.reason == "environment drifted: " + Join(changed))
  }

  ghost predicate SaysUnmet(q: Query, c: Candidate) {
    ContractUnmet(q) &&
    var missing := Evaluate(q.contract.value, q.rows.events).missing;
    missing != [] && c.action == "prove:" + missing[0] && c.reason == "success contract unmet: " + Join(missing)
  }

  ghost predicate SaysProgress(q: Query, c: Candidate) {
    HasStart(q.rows.events) &&
    var s := State(q.rows.events);
    if s.total != 0 && TargetMet(s)
    then c.action == "close_mission" && c.reason == "progress target reached; close the mission explicitly"
    else c.action == "continue_work" && c.reason == "verified progress may continue"
  }

  /** A candidate's action and reason are the ones its signal calls for. */
  ghost predicate Explained(h: Hash, q: Query, c: Candidate) {
    match c.mode
    case Abort => c.action == "repair_event_chain" && c.reason == Report(h, q.rows.events, q.rows.head).error
    case Reconciling =>
      var u := Uncertain(q.rows.actions);
      u != [] && c.action == "reconcile:" + u[0].key
        && c.reason == Dec(|u|) + " external effect(s) have unknown outcomes"
    case RequestReview => c.action == "confirm_progress" && c.reason == "external agent progress is not self-certifying"
    case Repair => SaysDrift(q, c) || SaysUnmet(q, c)
    case VerifiedComplete =>
      c.action == "none"
      && c.reason == if q.contract.Some? then "terminal transition and contract proven"
        else "explicit terminal transition recorded"
    case Continue => SaysProgress(q, c)
    case Wait => false
  }

  // ---- sealing ----------------------------------------------------------------------------------

  function ContentFields(d: RecoveryDecision): seq<Field> {
    [Field("mode", Str(ModeName(d.mode))), Field("safe", Bool(d.safe)),
     Field("next_safe_action", Str(d.nextSafeAction)),
     Field("reasons", Strings(d.reasons)), Field("issued_at", Str(d.issuedAt)), Field("version", Num(d.version))]
  }

  function ContentText(d: RecoveryDecision): string {
    Canonical(Obj(ContentFields(d)))
  }

  /** `RecoveryDecision.verify`. */
  predicate Sealed(h: Hash, d: RecoveryDecision) {
    d.digest == h(ContentText(d))
  }

  function Seal(h: Hash, m: Mode, action: string, reasons: seq<string>, now: string): RecoveryDecision {
    var draft := RecoveryDecision(m, IsSafe(m), action, reasons, now, 1, "");
    draft.(digest := h(ContentText(draft)))
  }

  lemma SealHolds(h: Hash, m: Mode, action: string, reasons: seq<string>, now: string)
    ensures Sealed(h, Seal(h, m, action, reasons, now))
  {
    hide Canonical, Strings, ModeName;
  }

  /** Two sealed decisions with one digest say the same, or their texts collide. */
  lemma SealFixesContent(h: Hash, a: RecoveryDecision, b: RecoveryDecision)
    requires Sealed(h, a) && Sealed(h, b) && a.digest == b.digest
    ensures || (ContentText(a) != ContentText(b) && h(ContentText(a)) == h(ContentText(b)))
            || (a.mode == b.mode && a.safe == b.safe && a.nextSafeAction == b.nextSafeAction && a.reasons == b.reasons
                && a.issuedAt == b.issuedAt && a.version == b.version)
  {
    if ContentText(a) == ContentText(b) { ContentInjective(a, b); }
  }

  lemma ContentInjective(a: RecoveryDecision, b: RecoveryDecision)
    requires ContentText(a) == ContentText(b)
    ensures a.mode == b.mode && a.safe == b.safe && a.nextSafeAction == b.nextSafeAction && a.reasons == b.reasons
    ensures a.issuedAt == b.issuedAt && a.version == b.version
  {
    ContentFieldsAgree(a, b);
    hide ContentText, Canonical, Same, ModeName, Strings;
    var fs, gs := ContentFields(a), ContentFields(b);
    assert Norm(fs[0].value) == Norm(gs[0].value) && Norm(fs[1].value) == Norm(gs[1].value);
    assert Norm(fs[2].value) == Norm(gs[2].value) && Same(fs[3].value, gs[3].value);
    assert Norm(fs[4].value) == Norm(gs[4].value) && Norm(fs[5].value) == Norm(gs[5].value);
    ModeNameInjective(a.mode, b.mode);
    StringsInjective(a.reasons, b.reasons);
  }

  lemma ContentFieldsAgree(a: RecoveryDecision, b: RecoveryDecision)
    requires ContentText(a) == ContentText(b)
    ensures forall i :: 0 <= i < 6 ==>
      && Norm(ContentFields(a)[i].value) == Norm(ContentFields(b)[i].value)
      && Same(ContentFields(a)[i].value, ContentFields(b)[i].value)
  {
    hide Canonical, Strings, ModeName, Same, Norm;
    FieldsAgree(ContentFields(a), ContentFields(b));
  }

  lemma ModeNameInjective(a: Mode, b: Mode)
    requires ModeName(a) == ModeName(b)
    ensures a == b
  {
    var x, y := ModeName(a), ModeName(b);
    assert |x| == |y| && x[0] == y[0] && x[2] == y[2];
  }

  lemma StringsInjective(xs: seq<string>, ys: seq<string>)
    requires Same(Strings(xs), Strings(ys))
    ensures xs == ys
  {
    var p, q := Strings(xs).items, Strings(ys).items;
    assert |p| == |q|;
    forall i | 0 <= i < |xs| ensures xs[i] == ys[i] { assert Same(p[i], q[i]); }
  }

  // ---- the four places where `recover` may add a candidate -----------------------------------

  ghost predicate EffectSignal(q: Query, cs: seq<Candidate>) {
    var u := Uncertain(q.rows.actions);
    if u == [] then cs == [] else |cs| == 1 && cs[0].mode == Reconciling && cs[0].action == "reconcile:" + u[0].key
  }

  ghost predicate ReviewSignal(q: Query, cs: seq<Candidate>) {
    if Unconfirmed(q.rows.events) then |cs| == 1 && cs[0].mode == RequestReview && cs[0].action == "confirm_progress"
    else cs == []
  }

  ghost predicate DriftSignal(q: Query, cs: seq<Candidate>) {
    if EnvironmentDrifted(q) then
      var changed := Changed(Pinned(q.rows.events).value, q.environment.value);
      changed != [] && |cs| == 1 && cs[0].mode == Repair && cs[0].action == "revalidate:" + changed[0]
    else cs == []
  }

  ghost predicate ProgressSignal(q: Query, c: Candidate) {
    var es := q.rows.events;
    if Terminal(es) then
      if ContractUnmet(q) then
        var missing := Evaluate(q.contract.value, es).missing;
        missing != [] && c.mode == Repair && c.action == "prove:" + missing[0]
      else c.mode == VerifiedComplete && c.action == "none"
    else
      && c.mode == Continue && HasStart(es)
      && c.action == if State(es).total != 0 && TargetMet(State(es)) then "close_mission" else "continue_work"
  }

  method AddDrift(q: Query) returns (cs: seq<Candidate>)
    ensures DriftSignal(q, cs) && forall c :: c in cs ==> SaysDrift(q, c)
  {
    hide Changed, Drifted;
    var pinned := Pinned(q.rows.events);
    cs := [];
    if pinned.Some? && q.environment.Some? {
      GraphExact(q.rows.events);
      var graph := DependencyGraph(q.rows.events);
      var outcome := ValidateEnvironment(pinned.value, q.environment.value, graph);
      if !outcome.safe {
        NothingChangedIsSafe(graph, outcome.changed, outcome.stale);
        var detail := if Join(outcome.changed) != "" then Join(outcome.changed) else Join(outcome.stale);
        cs := [Candidate(Repair, "revalidate:" + outcome.changed[0], "environment drifted: " + detail)];
      }
    }
  }

  method AddProgress(q: Query, state: SemanticState) returns (c: Candidate)
    requires HasStart(q.rows.events) && state == State(q.rows.events)
    ensures ProgressSignal(q, c) && (c.mode.Repair? ==> SaysUnmet(q, c)) && (c.mode.Continue? ==> SaysProgress(q, c))
    ensures c.mode.VerifiedComplete? ==>
      c.reason == if q.contract.Some? then "terminal transition and contract proven"
        else "explicit terminal transition recorded"
  {
    var es := q.rows.events;
    if Terminal(es) {
      if q.contract.Some? {
        var result := Evaluate(q.contract.value, es);
        if !result.satisfied {
          c := Candidate(Repair, "prove:" + result.missing[0], "success contract unmet: " + Join(result.missing));
        } else {
          c := Candidate(VerifiedComplete, "none", "terminal transition and contract proven");
        }
      } else {
        c := Candidate(VerifiedComplete, "none", "explicit terminal transition recorded");
      }
    } else if state.total != 0 && |state.completed| >= state.total {
      c := Candidate(Continue, "close_mission", "progress target reached; close the mission explicitly");
    } else {
      c := Candidate(Continue, "continue_work", "verified progress may continue");
    }
  }

  /** `recover`. The second result lists the candidates it weighed. */
  method Recover(h: Hash, q: Query, now: string) returns (d: RecoveryDecision, ghost candidates: seq<Candidate>)
    ensures d.mode == ModeOf(h, q) && d.safe == IsSafe(d.mode) && d.nextSafeAction == ActionOf(h, q)
    ensures Signals(h, q, candidates) && candidates != []
    ensures d.mode == Worst(candidates).mode && forall c :: c in candidates ==> Explained(h, q, c)
    ensures Weighed(h, q, candidates) && |d.reasons| == |candidates|
    ensures forall i :: 0 <= i < |candidates| ==> d.reasons[i] == candidates[i].reason
    ensures Sealed(h, d) && d.issuedAt == now && d.version == 1
  {
    hide ContentText, Report, ModeOf, ActionOf, Signals, EffectSignal, ReviewSignal, DriftSignal, ProgressSignal,
      Unconfirmed, Sealed, Worst, BySeverity, Verified, Falling, Weighed,
      Explained, Join, Dec;
    var es := q.rows.events;
    var chain := VerifyChain(h, es, q.rows.head);
    if !chain.ok {
      candidates := [Candidate(Abort, "repair_event_chain", chain.error)];
      AbortWeighed(h, q, candidates);
      AbortOnly(h, q, candidates);
      AbortExplained(h, q, candidates[0]);
      SealHolds(h, Abort, "repair_event_chain", [chain.error], now);
      d := Seal(h, Abort, "repair_event_chain", [chain.error], now);
      return;
    }
    OkHasStart(h, es, q.rows.head);
    var projected := Project(es);
    var state := projected.value;
    var effects, reviews: seq<Candidate> := [], [];
    var uncertain := Uncertain(q.rows.actions);
    if uncertain != [] {
      effects := [Candidate(Reconciling, "reconcile:" + uncertain[0].key,
        Dec(|uncertain|) + " external effect(s) have unknown outcomes")];
    }
    assert EffectSignal(q, effects) by { hide Uncertain; EffectSignalIs(q, effects); }
    var unconfirmed := UnconfirmedExternalProgress(es);
    if unconfirmed {
      reviews := [Candidate(RequestReview, "confirm_progress", "external agent progress is not self-certifying")];
    }
    assert ReviewSignal(q, reviews) by { ReviewSignalIs(q, reviews); }
    var drifts := AddDrift(q);
    var progress := AddProgress(q, state);
    var cs := effects + (reviews + (drifts + [progress]));
    candidates := cs;
    AssembleWinner(h, q, effects, reviews, drifts, progress);
    AssembleSignals(h, q, effects, reviews, drifts, progress);
    AssembleExplained(h, q, effects, reviews, drifts, progress);
    AllWeighed(h, q, effects, reviews, drifts, progress);
    SignalsFall(q, effects, reviews, drifts, progress);
    FallingIsSorted(cs);
    var winner := Worst(cs);
    SealHolds(h, winner.mode, winner.action, Reasons(BySeverity(cs)), now);
    d := Seal(h, winner.mode, winner.action, Reasons(BySeverity(cs)), now);
  }

  /** The candidates as they are weighed: what is unresolved, unconfirmed, drifted, and the progress, worst first. */
  ghost predicate Weighed(h: Hash, q: Query, cs: seq<Candidate>) {
    if !Report(h, q.rows.events, q.rows.head).ok then |cs| == 1
    else
      exists effects, reviews, drifts, progress ::
        && cs == effects + (reviews + (drifts + [progress]))
        && EffectSignal(q, effects) && ReviewSignal(q, reviews) && DriftSignal(q, drifts) && ProgressSignal(q, progress)
  }

  lemma AbortWeighed(h: Hash, q: Query, cs: seq<Candidate>)
    requires !Report(h, q.rows.events, q.rows.head).ok && |cs| == 1
    ensures Weighed(h, q, cs)
  {
    hide Report;
  }

  lemma AllWeighed(h: Hash, q: Query, effects: seq<Candidate>, reviews: seq<Candidate>, drifts: seq<Candidate>,
                   progress: Candidate)
    requires Report(h, q.rows.events, q.rows.head).ok
    requires EffectSignal(q, effects) && ReviewSignal(q, reviews) && DriftSignal(q, drifts)
      && ProgressSignal(q, progress)
    ensures Weighed(h, q, effects + (reviews + (drifts + [progress])))
  {
    hide Report, EffectSignal, ReviewSignal, DriftSignal, ProgressSignal;
  }

  lemma SignalModes(q: Query, effects: seq<Candidate>, reviews: seq<Candidate>, drifts: seq<Candidate>,
                    progress: Candidate)
    requires EffectSignal(q, effects) && ReviewSignal(q, reviews) && DriftSignal(q, drifts)
      && ProgressSignal(q, progress)
    ensures |effects| <= 1 && (effects != [] ==> effects[0].mode == Reconciling)
    ensures |reviews| <= 1 && (reviews != [] ==> reviews[0].mode == RequestReview)
    ensures |drifts| <= 1 && (drifts != [] ==> drifts[0].mode == Repair)
    ensures Severity(progress.mode) <= Severity(Repair)
  {
    hide Uncertain, Unconfirmed, Drifted, EnvironmentDrifted, ContractUnmet, State, Changed, Terminal;
  }

  lemma FallingSum(cs: seq<Candidate>, rest: seq<Candidate>)
    requires |cs| <= 1 && rest != [] && Falling(rest)
    requires cs != [] ==> Severity(cs[0].mode) >= Severity(rest[0].mode)
    ensures Falling(cs + rest) && (cs + rest)[0] == if cs == [] then rest[0] else cs[0]
  {
    assert cs == [] ==> cs + rest == rest;
  }

  /** The signals are weighed by falling severity already. */
  lemma SignalsFall(q: Query, effects: seq<Candidate>, reviews: seq<Candidate>, drifts: seq<Candidate>,
                    progress: Candidate)
    requires EffectSignal(q, effects) && ReviewSignal(q, reviews) && DriftSignal(q, drifts)
      && ProgressSignal(q, progress)
    ensures Falling(effects + (reviews + (drifts + [progress])))
  {
    SignalModes(q, effects, reviews, drifts, progress);
    hide EffectSignal, ReviewSignal, DriftSignal, ProgressSignal;
    assert Falling([progress]);
    hide Falling;
    FallingSum(drifts, [progress]);
    FallingSum(reviews, drifts + [progress]);
    FallingSum(effects, reviews + (drifts + [progress]));
  }

  /** Sorting leaves a list alone that falls already. */
  lemma {:induction false} FallingIsSorted(cs: seq<Candidate>)
    requires Falling(cs)
    ensures BySeverity(cs) == cs
  {
    if cs != [] {
      FallingIsSorted(cs[1..]);
      assert cs == [cs[0]] + cs[1..];
    }
  }

  lemma OkHasStart(h: Hash, es: seq<Event>, head: Option<Head>)
    requires Report(h, es, head).ok
    ensures HasStart(es) && Numbered(es)
  {
    VerifiedIsOk(h, es, head);
    VerifiedNumbers(h, es);
  }

  lemma EffectSignalIs(q: Query, cs: seq<Candidate>)
    requires var u := Uncertain(q.rows.actions);
      if u == [] then cs == [] else |cs| == 1 && cs[0].mode == Reconciling && cs[0].action == "reconcile:" + u[0].key
    ensures EffectSignal(q, cs)
  {
  }

  lemma ReviewSignalIs(q: Query, cs: seq<Candidate>)
    requires if Unconfirmed(q.rows.events) then |cs| == 1 && cs[0].mode == RequestReview
      && cs[0].action == "confirm_progress"
      else cs == []
    ensures ReviewSignal(q, cs)
  {
  }

  lemma AbortOnly(h: Hash, q: Query, cs: seq<Candidate>)
    requires !Report(h, q.rows.events, q.rows.head).ok && |cs| == 1
    requires cs[0].mode == Abort && cs[0].action == "repair_event_chain"
    ensures Signals(h, q, cs) && ModeOf(h, q) == Abort && ActionOf(h, q) == cs[0].action && Worst(cs) == cs[0]
    ensures BySeverity(cs) == cs
  {
    hide Report;
    forall m | Applies(h, q, m) ensures exists c :: c in cs && c.mode == m {
      assert m == Abort && cs[0] in cs;
    }
  }

  lemma {:induction false} WorstOfSum(cs: seq<Candidate>, ds: seq<Candidate>)
    requires cs != [] && ds != []
    ensures Worst(cs + ds) == if Severity(Worst(ds).mode) > Severity(Worst(cs).mode) then Worst(ds) else Worst(cs)
  {
    if |cs| == 1 {
      assert (cs + ds)[1..] == ds;
    } else {
      WorstOfSum(cs[1..], ds);
      assert (cs + ds)[1..] == cs[1..] + ds;
    }
  }

  /** `a` before `b`: the winner of the two lists, when everything in `b` is at most as severe. */
  lemma FirstListWins(cs: seq<Candidate>, ds: seq<Candidate>)
    requires |cs| <= 1 && ds != [] && (cs != [] ==> Severity(Worst(ds).mode) <= Severity(cs[0].mode))
    ensures Worst(cs + ds) == if cs == [] then Worst(ds) else cs[0]
  {
    if cs == [] { assert cs + ds == ds; } else { WorstOfSum(cs, ds); }
  }

  /** The winner of the assembled list is the mode and action of the precedence order. */
  lemma AssembleWinner(h: Hash, q: Query, effects: seq<Candidate>, reviews: seq<Candidate>, drifts: seq<Candidate>,
                       progress: Candidate)
    requires Report(h, q.rows.events, q.rows.head).ok
    requires EffectSignal(q, effects) && ReviewSignal(q, reviews) && DriftSignal(q, drifts)
      && ProgressSignal(q, progress)
    ensures var w := Worst(effects + (reviews + (drifts + [progress])));
      w.mode == ModeOf(h, q) && w.action == ActionOf(h, q)
  {
    hide Report, Unconfirmed, EnvironmentDrifted, Terminal, Uncertain, Changed, Evaluate, TargetMet, State;
    var low := drifts + [progress];
    FirstListWins(drifts, [progress]);
    FirstListWins(reviews, low);
    FirstListWins(effects, reviews + low);
  }

  lemma EffectDecides(h: Hash, q: Query, cs: seq<Candidate>)
    requires Report(h, q.rows.events, q.rows.head).ok && EffectSignal(q, cs)
    ensures forall c :: c in cs ==> c.mode == Reconciling
    ensures cs != [] <==> Applies(h, q, Reconciling)
  {
    hide Report;
    UncertainExact(q.rows.actions);
    var u := Uncertain(q.rows.actions);
    assert u != [] ==> u[0] in u;
  }

  lemma ReviewDecides(h: Hash, q: Query, cs: seq<Candidate>)
    requires Report(h, q.rows.events, q.rows.head).ok && ReviewSignal(q, cs)
    ensures forall c :: c in cs ==> c.mode == RequestReview
    ensures cs != [] <==> Applies(h, q, RequestReview)
  {
    hide Report, Unconfirmed;
  }

  lemma LowDecides(h: Hash, q: Query, drifts: seq<Candidate>, progress: Candidate)
    requires Report(h, q.rows.events, q.rows.head).ok && DriftSignal(q, drifts) && ProgressSignal(q, progress)
    ensures forall c :: c in drifts ==> c.mode == Repair
    ensures drifts != [] ==> Applies(h, q, Repair)
    ensures Applies(h, q, progress.mode)
    ensures Applies(h, q, Repair) ==> drifts != [] || progress.mode == Repair
    ensures Applies(h, q, Continue) ==> progress.mode == Continue
    ensures Applies(h, q, VerifiedComplete) ==> progress.mode == VerifiedComplete
    ensures !Applies(h, q, Abort) && !Applies(h, q, Wait)
  {
    hide Report, EnvironmentDrifted, Terminal, Changed, Evaluate, HasStart, TargetMet, State;
  }

  lemma AssembleSignals(h: Hash, q: Query, effects: seq<Candidate>, reviews: seq<Candidate>, drifts: seq<Candidate>,
                        progress: Candidate)
    requires Report(h, q.rows.events, q.rows.head).ok
    requires EffectSignal(q, effects) && ReviewSignal(q, reviews) && DriftSignal(q, drifts)
      && ProgressSignal(q, progress)
    ensures Signals(h, q, effects + (reviews + (drifts + [progress])))
  {
    hide Report, EffectSignal, ReviewSignal, DriftSignal, ProgressSignal, Applies;
    var cs := effects + (reviews + (drifts + [progress]));
    EffectDecides(h, q, effects);
    ReviewDecides(h, q, reviews);
    LowDecides(h, q, drifts, progress);
    assert forall c :: c in cs <==> c in effects || c in reviews || c in drifts || c == progress;
    forall m | Applies(h, q, m) ensures exists c :: c in cs && c.mode == m {
      var c := if m == Reconciling then effects[0] else if m == RequestReview then reviews[0]
               else if m == Repair && drifts != [] then drifts[0] else progress;
      assert c in cs && c.mode == m;
    }
  }

  lemma AbortExplained(h: Hash, q: Query, c: Candidate)
    requires c == Candidate(Abort, "repair_event_chain", Report(h, q.rows.events, q.rows.head).error)
    ensures Explained(h, q, c)
  {
    hide Report;
  }

  lemma EffectExplained(h: Hash, q: Query, c: Candidate)
    requires EffectSignal(q, [c])
    requires c.reason == Dec(|Uncertain(q.rows.actions)|) + " external effect(s) have unknown outcomes"
    ensures Explained(h, q, c)
  {
    hide Dec, Uncertain;
  }

  lemma ReviewExplained(h: Hash, q: Query, c: Candidate)
    requires ReviewSignal(q, [c]) && c.reason == "external agent progress is not self-certifying"
    ensures Explained(h, q, c)
  {
    hide Unconfirmed;
  }

  lemma DriftExplained(h: Hash, q: Query, c: Candidate)
    requires DriftSignal(q, [c]) && SaysDrift(q, c)
    ensures Explained(h, q, c)
  {
    hide EnvironmentDrifted, Changed, SaysDrift;
  }

  lemma ProgressExplained(h: Hash, q: Query, c: Candidate)
    requires ProgressSignal(q, c) && (c.mode.Repair? ==> SaysUnmet(q, c)) && (c.mode.Continue? ==> SaysProgress(q, c))
    requires c.mode.VerifiedComplete? ==>
      c.reason == if q.contract.Some? then "terminal transition and contract proven"
        else "explicit terminal transition recorded"
    ensures Explained(h, q, c)
  {
    hide SaysUnmet, SaysProgress, Terminal, ContractUnmet, Evaluate, State, TargetMet;
  }

  lemma AssembleExplained(h: Hash, q: Query, effects: seq<Candidate>, reviews: seq<Candidate>, drifts: seq<Candidate>,
                          progress: Candidate)
    requires EffectSignal(q, effects) && ReviewSignal(q, reviews) && DriftSignal(q, drifts)
      && ProgressSignal(q, progress)
    requires effects != [] ==>
      effects[0].reason == Dec(|Uncertain(q.rows.actions)|) + " external effect(s) have unknown outcomes"
    requires reviews != [] ==> reviews[0].reason == "external agent progress is not self-certifying"
    requires forall c :: c in drifts ==> SaysDrift(q, c)
    requires (progress.mode.Repair? ==> SaysUnmet(q, progress))
      && (progress.mode.Continue? ==> SaysProgress(q, progress))
    requires progress.mode.VerifiedComplete? ==>
      progress.reason == if q.contract.Some? then "terminal transition and contract proven"
        else "explicit terminal transition recorded"
    ensures forall c :: c in effects + (reviews + (drifts + [progress])) ==> Explained(h, q, c)
  {
    hide Explained, EffectSignal, ReviewSignal, DriftSignal, ProgressSignal, SaysDrift, SaysUnmet, SaysProgress,
      Uncertain, Dec;
    forall c | c in effects + (reviews + (drifts + [progress])) ensures Explained(h, q, c) {
      if c in effects {
        OnlyEffect(q, effects);
        EffectExplained(h, q, c);
      } else if c in reviews {
        OnlyReview(q, reviews);
        ReviewExplained(h, q, c);
      } else if c in drifts {
        OnlyDrift(q, drifts);
        DriftExplained(h, q, c);
      } else {
        ProgressExplained(h, q, progress);
      }
    }
  }

  lemma OnlyEffect(q: Query, cs: seq<Candidate>)
    requires EffectSignal(q, cs) && cs != []
    ensures cs == [cs[0]]
  {
  }

  lemma OnlyReview(q: Query, cs: seq<Candidate>)
    requires ReviewSignal(q, cs) && cs != []
    ensures cs == [cs[0]]
  {
  }

  lemma OnlyDrift(q: Query, cs: seq<Candidate>)
    requires DriftSignal(q, cs) && cs != []
    ensures cs == [cs[0]]
  {
  }

  lemma NothingChangedIsSafe(deps: Dependencies, changed: seq<string>, stale: seq<string>)
    requires Propagated(deps, changed, stale) && !(changed == [] && stale == [])
    ensures changed != []
  {
    if changed == [] { NothingChanged(deps, stale); }
  }
}
