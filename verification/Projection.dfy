/** The folds of `projection.py` over an event log. */
module Projection {
  import opened Prelude
  import opened Models

  function Initial(e: Event): SemanticState
    requires e.fact.MissionStarted?
  {
    SemanticState(e.missionId, e.fact.goal, e.fact.total, [], [], [], [])
  }

  function Step(s: SemanticState, f: Fact): SemanticState {
    match f
    case WorkCompleted(item) => if item in s.completed then s else s.(completed := s.completed + [item])
    case WorkFailed(item) => if item in s.failed then s else s.(failed := s.failed + [item])
    case DecisionRecorded(id, text) => s.(decisions := s.decisions + [Decision(id, text)])
    case FindingRecorded(text) => s.(findings := s.findings + [text])
    case _ => s
  }

  /** Events replayed onto a state. */
  function Replay(s: SemanticState, es: seq<Event>): SemanticState
    decreases es
  {
    if es == [] then s else Replay(Step(s, es[0].fact), es[1..])
  }

  predicate HasStart(es: seq<Event>) {
    es != [] && es[0].fact.MissionStarted?
  }

  function State(es: seq<Event>): SemanticState
    requires HasStart(es)
  {
    Replay(Initial(es[0]), es[1..])
  }

  function Projected(es: seq<Event>): Outcome<SemanticState> {
    if HasStart(es) then Ok(State(es)) else Raised(ValueError)
  }

  /** `StateProjector.project`. */
  method Project(es: seq<Event>) returns (r: Outcome<SemanticState>)
    ensures r == Projected(es)
    ensures if HasStart(es) then r.Ok? && Pictures(es, r.value) else r == Raised(ValueError)
  {
    hide Pictures;
    if HasStart(es) { StatePictures(es); }
    if es == [] || !es[0].fact.MissionStarted? {
      return Raised(ValueError);
    }
    var completed, failed, decisions, findings := [], [], [], [];
    var i := 1;
    while i < |es|
      invariant 1 <= i <= |es|
      invariant State(es) == Replay(Initial(es[0]).(completed := completed, failed := failed,
                                                    decisions := decisions, findings := findings), es[i..])
    {
      var f := es[i].fact;
      if f.WorkCompleted? && f.item !in completed {
        completed := completed + [f.item];
      } else if f.WorkFailed? && f.item !in failed {
        failed := failed + [f.item];
      } else if f.DecisionRecorded? {
        decisions := decisions + [Decision(f.id, f.text)];
      } else if f.FindingRecorded? {
        findings := findings + [f.text];
      }
      i := i + 1;
    }
    return Ok(SemanticState(es[0].missionId, es[0].fact.goal, es[0].fact.total, completed, failed, decisions,
      findings));
  }

  lemma {:induction false} ReplayAppend(s: SemanticState, a: seq<Event>, b: seq<Event>)
    ensures Replay(s, a + b) == Replay(Replay(s, a), b)
    decreases a
  {
    if a == [] {
      assert a + b == b;
    } else {
      assert (a + b)[1..] == a[1..] + b;
      ReplayAppend(Step(s, a[0].fact), a[1..], b);
    }
  }

  /** A later state is the earlier one with the events in between replayed onto it. */
  lemma StateAppend(a: seq<Event>, b: seq<Event>)
    requires HasStart(a)
    ensures HasStart(a + b) && State(a + b) == Replay(State(a), b)
  {
    assert (a + b)[1..] == a[1..] + b;
    ReplayAppend(Initial(a[0]), a[1..], b);
  }

  // ---- what a projected state means -------------------------------------------------

  /** After the start, the event at `i` says that the item was completed, or that it failed. */
  ghost predicate ReportedAt(es: seq<Event>, i: int, done: bool, item: string) {
    0 < i < |es| && es[i].fact == if done then WorkCompleted(item) else WorkFailed(item)
  }

  /** `i` is where the item is first reported so. */
  ghost predicate FirstAt(es: seq<Event>, i: int, done: bool, item: string) {
    ReportedAt(es, i, done, item) && forall j :: 0 <= j < i ==> !ReportedAt(es, j, done, item)
  }

  ghost predicate Rising(at: seq<int>) {
    forall k, l :: 0 <= k < l < |at| ==> at[k] < at[l]
  }

  /** `at` gives the places where the listed items are first reported, in increasing order. */
  ghost predicate Places(es: seq<Event>, items: seq<string>, done: bool, at: seq<int>) {
    |at| == |items| && Rising(at) && forall k :: 0 <= k < |at| ==> FirstAt(es, at[k], done, items[k])
  }

  /** The list holds exactly the reported items, each once, in the order of their first events. */
  ghost predicate InFirstOrder(es: seq<Event>, items: seq<string>, done: bool) {
    && Distinct(items)
    && (forall i, item :: ReportedAt(es, i, done, item) ==> item in items)
    && exists at :: Places(es, items, done, at)
  }

  /** `at` gives the places of all decisions of the log, which are the listed ones in order. */
  ghost predicate DecidedAt(es: seq<Event>, decisions: seq<Decision>, at: seq<int>) {
    && |at| == |decisions| && Rising(at)
    && (forall i :: 0 < i < |es| && es[i].fact.DecisionRecorded? ==> i in at)
    && forall k :: 0 <= k < |at| ==>
         0 < at[k] < |es| && es[at[k]].fact == DecisionRecorded(decisions[k].decisionId, decisions[k].text)
  }

  ghost predicate FoundAt(es: seq<Event>, findings: seq<string>, at: seq<int>) {
    && |at| == |findings| && Rising(at)
    && (forall i :: 0 < i < |es| && es[i].fact.FindingRecorded? ==> i in at)
    && forall k :: 0 <= k < |at| ==> 0 < at[k] < |es| && es[at[k]].fact == FindingRecorded(findings[k])
  }

  /** The state says what the log says: what was started, done, failed, decided and found, and in which order. */
  ghost predicate Pictures(es: seq<Event>, s: SemanticState) {
    && es != [] && es[0].fact == MissionStarted(s.goal, s.total) && es[0].missionId == s.missionId
    && InFirstOrder(es, s.completed, true) && InFirstOrder(es, s.failed, false)
    && (exists at :: DecidedAt(es, s.decisions, at)) && (exists at :: FoundAt(es, s.findings, at))
  }

  lemma ReportedStays(es: seq<Event>, e: Event, done: bool)
    requires es != []
    ensures forall i, item :: ReportedAt(es + [e], i, done, item)
              <==> ReportedAt(es, i, done, item)
                   || (i == |es| && e.fact == if done then WorkCompleted(item) else WorkFailed(item))
  {
  }

  /** An item reported before `e` keeps its first place. */
  lemma FirstStays(es: seq<Event>, e: Event, i: int, done: bool, item: string)
    requires es != [] && FirstAt(es, i, done, item)
    ensures FirstAt(es + [e], i, done, item)
  {
    ReportedStays(es, e, done);
  }

  /** An item never reported before has its first place at `e`. */
  lemma FirstNow(es: seq<Event>, e: Event, done: bool, item: string)
    requires es != [] && e.fact == (if done then WorkCompleted(item) else WorkFailed(item))
    requires forall i :: !ReportedAt(es, i, done, item)
    ensures FirstAt(es + [e], |es|, done, item)
  {
    ReportedStays(es, e, done);
    assert ReportedAt(es + [e], |es|, done, item);
  }

  lemma PlacesStay(a: seq<Event>, e: Event, items: seq<string>, done: bool, at: seq<int>)
    requires a != [] && Places(a, items, done, at)
    ensures Places(a + [e], items, done, at)
  {
    forall k | 0 <= k < |at| ensures FirstAt(a + [e], at[k], done, items[k]) {
      FirstStays(a, e, at[k], done, items[k]);
    }
  }

  function After(before: seq<string>, done: bool, f: Fact): seq<string> {
    if done then if f.WorkCompleted? && f.item !in before then before + [f.item] else before
    else if f.WorkFailed? && f.item !in before then before + [f.item]
    else before
  }

  lemma FirstOrderStep(a: seq<Event>, e: Event, before: seq<string>, done: bool)
    requires a != [] && InFirstOrder(a, before, done)
    ensures InFirstOrder(a + [e], After(before, done, e.fact), done)
  {
    var at :| Places(a, before, done, at);
    PlacesStay(a, e, before, done, at);
    ReportedStays(a, e, done);
    if (if done then e.fact.WorkCompleted? else e.fact.WorkFailed?) && e.fact.item !in before {
      FirstNow(a, e, done, e.fact.item);
      assert forall k :: 0 <= k < |at| ==> ReportedAt(a, at[k], done, before[k]);
      assert Places(a + [e], before + [e.fact.item], done, at + [|a|]) by { hide FirstAt; }
    }
  }

  lemma DecidedStep(a: seq<Event>, e: Event, before: seq<Decision>, at: seq<int>)
    requires a != [] && DecidedAt(a, before, at)
    ensures match e.fact
            case DecisionRecorded(id, text) => DecidedAt(a + [e], before + [Decision(id, text)], at + [|a|])
            case _ => DecidedAt(a + [e], before, at)
  {
    assert forall k :: 0 <= k < |at| ==> at[k] in at;
    assert forall i :: 0 <= i < |a| ==> (a + [e])[i] == a[i];
  }

  lemma FoundStep(a: seq<Event>, e: Event, before: seq<string>, at: seq<int>)
    requires a != [] && FoundAt(a, before, at)
    ensures match e.fact
            case FindingRecorded(text) => FoundAt(a + [e], before + [text], at + [|a|])
            case _ => FoundAt(a + [e], before, at)
  {
    assert forall k :: 0 <= k < |at| ==> at[k] in at;
    assert forall i :: 0 <= i < |a| ==> (a + [e])[i] == a[i];
  }

  lemma StepPictures(a: seq<Event>, e: Event, s: SemanticState)
    requires Pictures(a, s)
    ensures Pictures(a + [e], Step(s, e.fact))
  {
    hide InFirstOrder, DecidedAt, FoundAt;
    FirstOrderStep(a, e, s.completed, true);
    FirstOrderStep(a, e, s.failed, false);
    var at :| DecidedAt(a, s.decisions, at);
    DecidedStep(a, e, s.decisions, at);
    var found :| FoundAt(a, s.findings, found);
    FoundStep(a, e, s.findings, found);
  }

  lemma StartPictures(e: Event)
    requires e.fact.MissionStarted?
    ensures Pictures([e], Initial(e))
  {
    assert Places([e], [], true, []) && Places([e], [], false, []);
    assert DecidedAt([e], [], []) && FoundAt([e], [], []);
  }

  /** The projected state says exactly what the log says. */
  lemma {:induction false} StatePictures(es: seq<Event>)
    requires HasStart(es)
    ensures Pictures(es, State(es))
    decreases |es|
  {
    hide Pictures;
    if |es| > 1 {
      var n := |es| - 1;
      var a, e := es[..n], es[n];
      assert es == a + [e];
      StatePictures(a);
      StateAppend(a, [e]);
      assert State(es) == Step(State(a), e.fact);
      StepPictures(a, e, State(a));
    } else {
      assert es == [es[0]];
      StartPictures(es[0]);
    }
  }

  lemma CompletedInFirstOrder(es: seq<Event>)
    requires HasStart(es)
    ensures InFirstOrder(es, State(es).completed, true)
  {
    hide State, InFirstOrder;
    StatePictures(es);
  }

  lemma RisingFront(at: seq<int>)
    requires Rising(at) && at != []
    ensures var m := |at| - 1;
      && Rising(at[..m]) && (forall i :: i in at[..m] <==> i in at && i != at[m])
      && (forall i :: i in at ==> i <= at[m]) && at[m] in at
  {
    var m := |at| - 1;
    assert at == at[..m] + [at[m]];
  }

  /** A set of places has one rising listing. */
  lemma {:induction false} RisingUnique(at: seq<int>, bt: seq<int>)
    requires Rising(at) && Rising(bt) && forall i :: i in at <==> i in bt
    ensures at == bt
  {
    assert bt != [] ==> bt[0] in bt;
    if at != [] {
      var m, n := |at| - 1, |bt| - 1;
      RisingFront(at);
      RisingFront(bt);
      assert at[m] == bt[n];
      RisingUnique(at[..m], bt[..n]);
      assert at == at[..m] + [at[m]] && bt == bt[..n] + [bt[n]];
    }
  }

  lemma PlacesAreFirsts(es: seq<Event>, items: seq<string>, done: bool, at: seq<int>)
    requires Places(es, items, done, at) && forall i, item :: ReportedAt(es, i, done, item) ==> item in items
    ensures forall i :: i in at <==> exists item :: FirstAt(es, i, done, item)
  {
    forall i ensures i in at <==> exists item :: FirstAt(es, i, done, item) {
      if i in at {
        var k :| 0 <= k < |at| && at[k] == i;
        assert FirstAt(es, i, done, items[k]);
      }
      if item :| FirstAt(es, i, done, item) {
        var k :| 0 <= k < |items| && items[k] == item;
        assert FirstAt(es, at[k], done, item);
        assert at[k] == i;
      }
    }
  }

  lemma FirstOrderUnique(es: seq<Event>, items: seq<string>, others: seq<string>, done: bool)
    requires InFirstOrder(es, items, done) && InFirstOrder(es, others, done)
    ensures items == others
  {
    var at :| Places(es, items, done, at);
    var bt :| Places(es, others, done, bt);
    PlacesAreFirsts(es, items, done, at);
    PlacesAreFirsts(es, others, done, bt);
    RisingUnique(at, bt);
    forall k | 0 <= k < |at| ensures items[k] == others[k] {
      assert FirstAt(es, at[k], done, items[k]) && FirstAt(es, at[k], done, others[k]);
    }
  }

  lemma DecisionsUnique(es: seq<Event>, ds: seq<Decision>, others: seq<Decision>, at: seq<int>, bt: seq<int>)
    requires DecidedAt(es, ds, at) && DecidedAt(es, others, bt)
    ensures ds == others
  {
    assert forall k :: 0 <= k < |at| ==> at[k] in at;
    assert forall k :: 0 <= k < |bt| ==> bt[k] in bt;
    RisingUnique(at, bt);
    assert forall k :: 0 <= k < |at| ==> ds[k] == others[k];
  }

  lemma FindingsUnique(es: seq<Event>, texts: seq<string>, others: seq<string>, at: seq<int>, bt: seq<int>)
    requires FoundAt(es, texts, at) && FoundAt(es, others, bt)
    ensures texts == others
  {
    assert forall k :: 0 <= k < |at| ==> at[k] in at;
    assert forall k :: 0 <= k < |bt| ==> bt[k] in bt;
    RisingUnique(at, bt);
    assert forall k :: 0 <= k < |at| ==> texts[k] == others[k];
  }

  lemma PictureUnique(es: seq<Event>, s: SemanticState, t: SemanticState)
    requires Pictures(es, s) && Pictures(es, t)
    ensures s == t
  {
    hide InFirstOrder, DecidedAt, FoundAt;
    FirstOrderUnique(es, s.completed, t.completed, true);
    FirstOrderUnique(es, s.failed, t.failed, false);
    var at :| DecidedAt(es, s.decisions, at);
    var bt :| DecidedAt(es, t.decisions, bt);
    DecisionsUnique(es, s.decisions, t.decisions, at, bt);
    var ft :| FoundAt(es, s.findings, ft);
    var gt :| FoundAt(es, t.findings, gt);
    FindingsUnique(es, s.findings, t.findings, ft, gt);
  }

  lemma PictureHasStart(es: seq<Event>, s: SemanticState)
    requires Pictures(es, s)
    ensures HasStart(es)
  {
  }

  /** Only one state says what the log says: the projected one. */
  lemma StateExact(es: seq<Event>, s: SemanticState)
    ensures Pictures(es, s) <==> HasStart(es) && s == State(es)
  {
    hide State, Pictures;
    if HasStart(es) { StatePictures(es); }
    if Pictures(es, s) {
      PictureHasStart(es, s);
      PictureUnique(es, s, State(es));
    }
  }

  lemma {:induction false} ReplayGrows(s: SemanticState, es: seq<Event>)
    ensures s.completed <= Replay(s, es).completed && Replay(s, es).total == s.total
    decreases es
  {
    if es != [] { ReplayGrows(Step(s, es[0].fact), es[1..]); }
  }

  // ---- agent progress that nobody confirmed ---------------------------------------

  predicate AgentWork(e: Event) {
    e.fact.WorkCompleted? && e.origin.ExternalAgent?
  }

  /** Agent-reported work at `i` with no confirmation numbered at or after it. */
  ghost predicate Uncovered(es: seq<Event>, i: int) {
    && 0 <= i < |es| && AgentWork(es[i]) && es[i].sequence > 0
    && forall j :: 0 <= j < |es| && es[j].fact.ReviewConfirmed? ==> es[j].sequence < es[i].sequence
  }

  ghost predicate Unconfirmed(es: seq<Event>) {
    exists i :: Uncovered(es, i)
  }

  /** An agent says at `i` that it completed an item, under a positive number, and no confirmation has one as high. */
  ghost predicate Unreviewed(es: seq<Event>, i: int) {
    && 0 <= i < |es| && es[i].origin == ExternalAgent && es[i].fact.WorkCompleted?
    && es[i].sequence > 0
    && !exists j :: 0 <= j < |es| && es[j].sequence >= es[i].sequence && es[j].fact.ReviewConfirmed?
  }

  lemma UnconfirmedExact(es: seq<Event>)
    ensures Unconfirmed(es) <==> exists i :: Unreviewed(es, i)
  {
    forall i ensures Uncovered(es, i) <==> Unreviewed(es, i) {}
  }

  /** `unconfirmed_external_progress`. */
  method UnconfirmedExternalProgress(es: seq<Event>) returns (r: bool)
    ensures r <==> Unconfirmed(es)
    ensures r <==> exists i :: Unreviewed(es, i)
  {
    UnconfirmedExact(es);
    var lastExternal, lastConfirmed := 0, 0;
    var i := 0;
    while i < |es|
      invariant 0 <= i <= |es| && 0 <= lastExternal && 0 <= lastConfirmed
      invariant forall k :: 0 <= k < i && AgentWork(es[k]) ==> es[k].sequence <= lastExternal
      invariant lastExternal == 0 || exists k :: 0 <= k < i && AgentWork(es[k]) && es[k].sequence == lastExternal
      invariant forall k :: 0 <= k < i && es[k].fact.ReviewConfirmed? ==> es[k].sequence <= lastConfirmed
      invariant lastConfirmed == 0
                || exists k :: 0 <= k < i && es[k].fact.ReviewConfirmed? && es[k].sequence == lastConfirmed
    {
      var e := es[i];
      if AgentWork(e) {
        lastExternal := if lastExternal < e.sequence then e.sequence else lastExternal;
      } else if e.fact.ReviewConfirmed? {
        lastConfirmed := if lastConfirmed < e.sequence then e.sequence else lastConfirmed;
      }
      i := i + 1;
    }
    r := lastExternal > lastConfirmed;
    if r {
      var k :| 0 <= k < |es| && AgentWork(es[k]) && es[k].sequence == lastExternal;
      assert Uncovered(es, k);
    }
  }

  ghost predicate Numbered(es: seq<Event>) {
    forall i :: 0 <= i < |es| ==> es[i].sequence == i + 1
  }

  lemma UncoveredStep(es: seq<Event>, e: Event, i: int)
    requires Numbered(es + [e])
    ensures Uncovered(es + [e], i) <==> (i == |es| && AgentWork(e)) || (Uncovered(es, i) && !e.fact.ReviewConfirmed?)
  {
    var all := es + [e];
    assert forall k :: 0 <= k < |es| ==> all[k] == es[k] && all[k].sequence == k + 1;
    assert all[|es|] == e && e.sequence == |es| + 1;
  }

  /** On a numbered log, one event moves the verdict in the way a reader expects. */
  lemma UnconfirmedStep(es: seq<Event>, e: Event)
    requires Numbered(es + [e])
    ensures Unconfirmed(es + [e]) <==> AgentWork(e) || (Unconfirmed(es) && !e.fact.ReviewConfirmed?)
  {
    forall i ensures Uncovered(es + [e], i)
                     <==> (i == |es| && AgentWork(e)) || (Uncovered(es, i) && !e.fact.ReviewConfirmed?)
    {
      UncoveredStep(es, e, i);
    }
    if AgentWork(e) { assert Uncovered(es + [e], |es|); }
    if Unconfirmed(es) && !e.fact.ReviewConfirmed? {
      var i :| Uncovered(es, i);
      assert Uncovered(es + [e], i);
    }
  }
}
