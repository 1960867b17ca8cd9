/** What `recover` decides, told from the rows alone. */
module Decisions {
  import opened Prelude
  import opened Json
  import opened Models
  import opened Chain
  import opened Projection
  import opened Contracts
  import opened Environment
  import opened Rows
  import opened Ledger
  import opened Recovery

  /** Some effect may have happened: a row is started. */
  ghost predicate Unresolved(q: Query) {
    exists i :: 0 <= i < |q.rows.actions| && q.rows.actions[i].status == Started
  }

  /** Agent work without a confirmation at or after it. */
  ghost predicate NeedsReview(q: Query) {
    exists i :: Unreviewed(q.rows.events, i)
  }

  /** A pinned value is not the current one, when there is a current environment to compare. */
  ghost predicate Drifting(q: Query) {
    && Pinned(q.rows.events).Some? && q.environment.Some?
    && exists k :: Drifted(Pinned(q.rows.events).value, q.environment.value, k)
  }

  ghost predicate Finished(q: Query) {
    exists i :: 0 <= i < |q.rows.events| && q.rows.events[i].fact.MissionCompleted?
  }

  /** The clause at `i` is one whose evidence id no clause of the contract proves. */
  ghost predicate Unproven(q: Query, i: int) {
    && q.contract.Some? && 0 <= i < |q.contract.value|
    && forall d :: d in q.contract.value && d.evidenceId == q.contract.value[i].evidenceId ==>
         Evidence(q.rows.events, d.evidenceId) != d.expected
  }

  ghost predicate Unmet(q: Query) {
    Finished(q) && exists i :: Unproven(q, i)
  }

  lemma UnmetExact(q: Query)
    ensures ContractUnmet(q) <==> Unmet(q)
  {
    if q.contract.Some? {
      var contract := q.contract.value;
      SatisfiedExact(contract, q.rows.events);
      hide Evaluate, Evidence;
      if !Evaluate(contract, q.rows.events).satisfied {
        var c :| c in contract && forall d :: d in contract && d.evidenceId == c.evidenceId ==> !Met(d, q.rows.events);
        var i :| 0 <= i < |contract| && contract[i] == c;
        assert Unproven(q, i);
      } else {
        forall i | 0 <= i < |contract| ensures !Unproven(q, i) {
          var d :| d in contract && d.evidenceId == contract[i].evidenceId && Met(d, q.rows.events);
        }
      }
    }
  }

  lemma UnresolvedExact(q: Query)
    ensures Unresolved(q) <==> Uncertain(q.rows.actions) != []
  {
    UncertainExact(q.rows.actions);
    var t, u := q.rows.actions, Uncertain(q.rows.actions);
    assert u != [] ==> u[0] in u;
    if Unresolved(q) {
      var i :| 0 <= i < |t| && t[i].status == Started;
      assert t[i] in t;
    }
  }

  /**
   Each mode exactly when, and safe exactly when the chain verifies, nothing is unresolved,
   unreviewed or drifting, and no contract is unmet.
   */
  lemma DecisionExact(h: Hash, q: Query)
    ensures var ok := Verified(h, q.rows.events, q.rows.head);
      && (ModeOf(h, q) == Abort <==> !ok)
      && (ModeOf(h, q) == Reconciling <==> ok && Unresolved(q))
      && (ModeOf(h, q) == RequestReview <==> ok && !Unresolved(q) && NeedsReview(q))
      && (ModeOf(h, q) == Repair <==> ok && !Unresolved(q) && !NeedsReview(q) && (Drifting(q) || Unmet(q)))
      && (ModeOf(h, q) == VerifiedComplete <==>
            ok && !Unresolved(q) && !NeedsReview(q) && !Drifting(q) && !Unmet(q) && Finished(q))
      && (ModeOf(h, q) == Continue <==>
            ok && !Unresolved(q) && !NeedsReview(q) && !Drifting(q) && !Unmet(q) && !Finished(q))
      && (IsSafe(ModeOf(h, q)) <==> ok && !Unresolved(q) && !NeedsReview(q) && !Drifting(q) && !Unmet(q))
  {
    VerifiedIsOk(h, q.rows.events, q.rows.head);
    UnmetExact(q);
    UnresolvedExact(q);
    UnconfirmedExact(q.rows.events);
    hide Report, Verified, Unresolved, ContractUnmet, Unmet, Uncovered, Unreviewed, Drifted;
  }

  lemma {:induction false} FirstUncertain(t: seq<ActionRow>)
    requires Uncertain(t) != []
    ensures exists i :: 0 <= i < |t| && t[i] == Uncertain(t)[0] && FirstStarted(t, i)
  {
    if t[0].status.Started? {
      assert FirstStarted(t, 0);
    } else {
      FirstUncertain(t[1..]);
      var i :| 0 <= i < |t[1..]| && t[1..][i] == Uncertain(t[1..])[0] && FirstStarted(t[1..], i);
      assert t[i + 1] == t[1..][i];
      assert FirstStarted(t, i + 1);
    }
  }

  ghost predicate FirstStarted(t: seq<ActionRow>, i: int) {
    0 <= i < |t| && t[i].status == Started && forall j :: 0 <= j < i ==> t[j].status != Started
  }

  /** `k` is the least drifted key. */
  ghost predicate FirstDrifted(q: Query, k: string) {
    Drifting(q) && var pinned, current := Pinned(q.rows.events).value, q.environment.value;
    Drifted(pinned, current, k) && forall x :: Drifted(pinned, current, x) ==> x == k || Less(k, x)
  }

  lemma ChangedFirst(q: Query)
    requires Drifting(q)
    ensures var changed := Changed(Pinned(q.rows.events).value, q.environment.value);
      changed != [] && FirstDrifted(q, changed[0])
  {
    var pinned, current := Pinned(q.rows.events).value, q.environment.value;
    ChangedExact(pinned, current);
    hide Changed, Drifted, Less;
    var changed := Changed(pinned, current);
    var k :| Drifted(pinned, current, k);
    assert k in changed;
    forall x | Drifted(pinned, current, x) ensures x == changed[0] || Less(changed[0], x) {
      assert x in changed;
    }
  }

  ghost predicate FirstUnproven(q: Query, i: int) {
    Unproven(q, i) && forall j :: 0 <= j < i ==> !Unproven(q, j)
  }

  lemma {:induction false} MissingFirst(contract: seq<Clause>, proven: seq<string>)
    requires Missing(contract, proven) != []
    ensures exists i :: 0 <= i < |contract| && contract[i].evidenceId == Missing(contract, proven)[0]
              && contract[i].evidenceId !in proven && forall j :: 0 <= j < i ==> contract[j].evidenceId in proven
  {
    if contract[0].evidenceId in proven {
      MissingFirst(contract[1..], proven);
      var rest := contract[1..];
      var i :| 0 <= i < |rest| && rest[i].evidenceId == Missing(rest, proven)[0] && rest[i].evidenceId !in proven
        && forall j :: 0 <= j < i ==> rest[j].evidenceId in proven;
      assert contract[i + 1] == rest[i];
      assert forall j :: 0 < j < i + 1 ==> contract[j] == rest[j - 1];
    }
  }

  lemma UnmetFirst(q: Query)
    requires Unmet(q)
    ensures var missing := Evaluate(q.contract.value, q.rows.events).missing;
      missing != [] && exists i :: FirstUnproven(q, i) && missing[0] == q.contract.value[i].evidenceId
  {
    var contract, es := q.contract.value, q.rows.events;
    var proven := Proven(contract, es);
    UnmetExact(q);
    ProvenExact(contract, es);
    MissingFirst(contract, proven);
    hide Evidence, Proven, Missing;
    forall i | 0 <= i < |contract| ensures Unproven(q, i) <==> contract[i].evidenceId !in proven {
      assert contract[i] in contract;
    }
    var i :| 0 <= i < |contract| && contract[i].evidenceId == Missing(contract, proven)[0]
      && contract[i].evidenceId !in proven && forall j :: 0 <= j < i ==> contract[j].evidenceId in proven;
    assert FirstUnproven(q, i);
  }

  /** The one next safe action each decision names. */
  lemma ActionExact(h: Hash, q: Query)
    ensures var action := ActionOf(h, q);
      && (ModeOf(h, q) == Abort ==> action == "repair_event_chain")
      && (ModeOf(h, q) == Reconciling ==>
            exists i :: FirstStarted(q.rows.actions, i) && action == "reconcile:" + q.rows.actions[i].key)
      && (ModeOf(h, q) == RequestReview ==> action == "confirm_progress")
      && (ModeOf(h, q) == Repair && Drifting(q) ==> exists k :: FirstDrifted(q, k) && action == "revalidate:" + k)
      && (ModeOf(h, q) == Repair && !Drifting(q) ==>
            exists i :: FirstUnproven(q, i) && action == "prove:" + q.contract.value[i].evidenceId)
      && (ModeOf(h, q) == VerifiedComplete ==> action == "none")
      && (ModeOf(h, q) == Continue ==>
            exists s :: Pictures(q.rows.events, s)
              && action == if s.total != 0 && |s.completed| >= s.total then "close_mission" else "continue_work")
  {
    hide Report, State, Pictures, Changed, Evaluate, Drifted, FirstUnproven, FirstDrifted, Unmet, Uncertain,
      FirstStarted, Uncovered, Unreviewed;
    DecisionExact(h, q);
    UnmetExact(q);
    var t := q.rows.actions;
    if ModeOf(h, q) == Reconciling {
      FirstUncertain(t);
    } else if ModeOf(h, q) == Repair && Drifting(q) {
      ChangedFirst(q);
    } else if ModeOf(h, q) == Repair {
      UnmetFirst(q);
    } else if ModeOf(h, q) == Continue {
      OkHasStart(h, q.rows.events, q.rows.head);
      StatePictures(q.rows.events);
    }
  }
}
