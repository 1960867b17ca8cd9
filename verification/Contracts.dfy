/** Success contracts of `contracts.py`: proven from trusted evidence only. */
module Contracts {
  import opened Prelude
  import opened Models

  /** `expected` is a bool, or Python's None. */
  datatype Clause = Clause(evidenceId: string, expected: Option<bool>)

  datatype Result = Result(satisfied: bool, proven: seq<string>, missing: seq<string>)

  predicate TrustedEvidence(e: Event) {
    e.fact.EvidenceRecorded? && !e.origin.ExternalAgent?
  }

  /** `evidence.get(id)`: the verdict of the latest trusted evidence with that id, else None. */
  function Evidence(es: seq<Event>, id: string): Option<bool> {
    if es == [] then None
    else
      var e := es[|es| - 1];
      if TrustedEvidence(e) && e.fact.evidenceId == id then Some(e.fact.ok) else Evidence(es[..|es| - 1], id)
  }

  predicate Met(c: Clause, es: seq<Event>) {
    Evidence(es, c.evidenceId) == c.expected
  }

  function Proven(contract: seq<Clause>, es: seq<Event>): seq<string> {
    if contract == [] then []
    else (if Met(contract[0], es) then [contract[0].evidenceId] else []) + Proven(contract[1..], es)
  }

  function Missing(contract: seq<Clause>, proven: seq<string>): seq<string> {
    if contract == [] then []
    else (if contract[0].evidenceId in proven then [] else [contract[0].evidenceId]) + Missing(contract[1..], proven)
  }

  /** `evaluate_contract`. */
  function Evaluate(contract: seq<Clause>, es: seq<Event>): Result {
    var proven := Proven(contract, es);
    var missing := Missing(contract, proven);
    Result(missing == [], proven, missing)
  }

  /** The event at `i` is the latest evidence about `id` that did not come from an agent. */
  ghost predicate LatestEvidence(es: seq<Event>, id: string, i: int) {
    && 0 <= i < |es| && es[i].fact.EvidenceRecorded? && es[i].fact.evidenceId == id
    && (es[i].origin == Deterministic || es[i].origin == Human)
    && forall j :: i < j < |es| && es[j].fact.EvidenceRecorded? && es[j].fact.evidenceId == id ==>
         es[j].origin == ExternalAgent
  }

  /** The verdict about an id is that of its latest evidence that no agent gave; without any, it is None. */
  lemma {:induction false} EvidenceExact(es: seq<Event>, id: string)
    ensures forall ok :: Evidence(es, id) == Some(ok) <==> exists i :: LatestEvidence(es, id, i) && es[i].fact.ok == ok
    decreases |es|
  {
    if es != [] {
      var n := |es| - 1;
      var front, e := es[..n], es[n];
      EvidenceExact(front, id);
      if TrustedEvidence(e) && e.fact.evidenceId == id {
        assert LatestEvidence(es, id, n);
        forall i | LatestEvidence(es, id, i) ensures i == n {}
      } else {
        forall i ensures LatestEvidence(es, id, i) <==> LatestEvidence(front, id, i) {}
      }
    }
  }

  lemma ListedOne(c: Clause, es: seq<Event>, proven: seq<string>)
    ensures Proven([c], es) == if Evidence(es, c.evidenceId) == c.expected then [c.evidenceId] else []
    ensures Missing([c], proven) == if c.evidenceId in proven then [] else [c.evidenceId]
  {
    hide Evidence;
    assert [c][1..] == [] && Proven([], es) == [] && Missing([], proven) == [];
  }

  /** The proven and the missing ids are listed clause by clause, in the order of the contract. */
  lemma {:induction false} ListedInOrder(a: seq<Clause>, b: seq<Clause>, es: seq<Event>, proven: seq<string>)
    ensures Proven(a + b, es) == Proven(a, es) + Proven(b, es)
    ensures Missing(a + b, proven) == Missing(a, proven) + Missing(b, proven)
  {
    hide Met;
    if a == [] {
      assert a + b == b;
    } else {
      assert (a + b)[1..] == a[1..] + b && (a + b)[0] == a[0];
      ListedInOrder(a[1..], b, es, proven);
    }
  }

  lemma {:induction false} ProvenExact(contract: seq<Clause>, es: seq<Event>)
    ensures forall id :: id in Proven(contract, es) <==> exists c :: c in contract && c.evidenceId == id && Met(c, es)
  {
    if contract != [] {
      ProvenExact(contract[1..], es);
      assert contract == [contract[0]] + contract[1..];
      forall id ensures id in Proven(contract, es) <==> exists c :: c in contract && c.evidenceId == id && Met(c, es) {
        if id == contract[0].evidenceId && Met(contract[0], es) { assert contract[0] in contract; }
      }
    }
  }

  lemma {:induction false} MissingExact(contract: seq<Clause>, proven: seq<string>)
    ensures forall id :: id in Missing(contract, proven) <==>
      id !in proven && exists c :: c in contract && c.evidenceId == id
  {
    if contract != [] {
      MissingExact(contract[1..], proven);
      assert contract == [contract[0]] + contract[1..];
    }
  }

  ghost predicate DistinctIds(contract: seq<Clause>) {
    forall i, j :: 0 <= i < j < |contract| ==> contract[i].evidenceId != contract[j].evidenceId
  }

  /**
   A contract is satisfied iff every clause shares its id with a met clause. With
   distinct ids that is: iff every clause is met. With a repeated id it need not be,
   as `RepeatedIdGap` shows and `JudgedRightIffAgreeing` settles.
   */
  lemma SatisfiedExact(contract: seq<Clause>, es: seq<Event>)
    ensures Evaluate(contract, es).satisfied
      <==> forall c :: c in contract ==> exists d :: d in contract && d.evidenceId == c.evidenceId && Met(d, es)
    ensures DistinctIds(contract) ==> (Evaluate(contract, es).satisfied <==> forall c :: c in contract ==> Met(c, es))
  {
    var proven := Proven(contract, es);
    ProvenExact(contract, es);
    MissingExact(contract, proven);
    var missing := Missing(contract, proven);
    assert missing == [] <==> forall id :: id !in missing by {
      if missing != [] { assert missing[0] in missing; }
    }
    var met := forall c :: c in contract ==> exists d :: d in contract && d.evidenceId == c.evidenceId && Met(d, es);
    if missing == [] {
      forall c | c in contract ensures exists d :: d in contract && d.evidenceId == c.evidenceId && Met(d, es) {
        assert c.evidenceId !in missing;
      }
    }
    if met {
      forall id ensures id !in missing {}
    }
    if DistinctIds(contract) {
      forall c, d | c in contract && d in contract && c.evidenceId == d.evidenceId ensures c == d {}
    }
  }

  /** One met clause hides an unmet one with the same id. */
  lemma RepeatedIdGap(es: seq<Event>)
    requires Evidence(es, "tests") == Some(true)
    ensures var contract := [Clause("tests", Some(true)), Clause("tests", Some(false))];
      Evaluate(contract, es).satisfied && !Met(contract[1], es)
  {
    var contract := [Clause("tests", Some(true)), Clause("tests", Some(false))];
    SatisfiedExact(contract, es);
    assert Met(contract[0], es) && contract[0] in contract;
  }

  // ---- which contracts are judged right on every log ---------------------------------------

  /** Clauses that share an evidence id expect the same of it. */
  ghost predicate Agreeing(contract: seq<Clause>) {
    forall c, d :: c in contract && d in contract && c.evidenceId == d.evidenceId ==> c.expected == d.expected
  }

  /** `satisfied` says exactly that every clause is met. */
  ghost predicate JudgedRight(contract: seq<Clause>, es: seq<Event>) {
    Evaluate(contract, es).satisfied <==> forall c :: c in contract ==> Met(c, es)
  }

  function Proof(id: string, ok: bool): Event {
    Event("", 0, EvidenceRecorded(id, "", "", ok, "", ""), "", None, "", Deterministic)
  }

  /** A log on which every id shows what its first clause with a bool expects. */
  function Witness(contract: seq<Clause>): seq<Event> {
    if contract == [] then []
    else
      var rest := Witness(contract[1..]);
      match contract[0].expected
      case None => rest
      case Some(ok) => rest + [Proof(contract[0].evidenceId, ok)]
  }

  function FirstExpected(contract: seq<Clause>, id: string): Option<bool> {
    if contract == [] then None
    else if contract[0].evidenceId == id && contract[0].expected.Some? then contract[0].expected
    else FirstExpected(contract[1..], id)
  }

  lemma {:induction false} WitnessShows(contract: seq<Clause>, id: string)
    ensures Evidence(Witness(contract), id) == FirstExpected(contract, id)
  {
    if contract != [] {
      WitnessShows(contract[1..], id);
      match contract[0].expected
      case None =>
      case Some(ok) => EvidenceStep(Witness(contract[1..]), Proof(contract[0].evidenceId, ok), id);
    }
  }

  lemma {:induction false} FirstExpectedExact(contract: seq<Clause>, id: string)
    ensures FirstExpected(contract, id).Some? ==> Clause(id, FirstExpected(contract, id)) in contract
    ensures FirstExpected(contract, id).None? ==> forall c :: c in contract && c.evidenceId == id ==> c.expected == None
  {
    if contract != [] {
      FirstExpectedExact(contract[1..], id);
      assert contract == [contract[0]] + contract[1..];
    }
  }

  /** On its witness log a contract is satisfied, whatever its clauses. */
  lemma WitnessSatisfies(contract: seq<Clause>)
    ensures Evaluate(contract, Witness(contract)).satisfied
  {
    var es := Witness(contract);
    forall c | c in contract ensures exists d :: d in contract && d.evidenceId == c.evidenceId && Met(d, es) {
      WitnessShows(contract, c.evidenceId);
      FirstExpectedExact(contract, c.evidenceId);
      var d := Clause(c.evidenceId, FirstExpected(contract, c.evidenceId));
      assert d in contract && Met(d, es);
    }
    SatisfiedExact(contract, es);
  }

  lemma AgreeingIsRight(contract: seq<Clause>, es: seq<Event>)
    requires Agreeing(contract)
    ensures JudgedRight(contract, es)
  {
    SatisfiedExact(contract, es);
    forall c, d | c in contract && d in contract && c.evidenceId == d.evidenceId ensures Met(c, es) == Met(d, es) {}
  }

  /**
   The contracts that are judged right on every log are exactly those whose clauses
   agree on every evidence id, which a caller can see without any log.
   */
  lemma JudgedRightIffAgreeing(contract: seq<Clause>)
    ensures (forall es :: JudgedRight(contract, es)) <==> Agreeing(contract)
  {
    if Agreeing(contract) {
      forall es ensures JudgedRight(contract, es) { AgreeingIsRight(contract, es); }
    } else {
      var c, d :| c in contract && d in contract && c.evidenceId == d.evidenceId && c.expected != d.expected;
      WitnessSatisfies(contract);
      assert !(Met(c, Witness(contract)) && Met(d, Witness(contract)));
      assert !JudgedRight(contract, Witness(contract));
    }
  }

  /** The log without what an agent said. */
  function WithoutAgents(es: seq<Event>): seq<Event> {
    if es == [] then []
    else
      var front := WithoutAgents(es[..|es| - 1]);
      if es[|es| - 1].origin.ExternalAgent? then front else front + [es[|es| - 1]]
  }

  lemma {:induction false} EvidenceIgnoresAgents(es: seq<Event>, id: string)
    ensures Evidence(es, id) == Evidence(WithoutAgents(es), id)
  {
    if es != [] {
      var front, e := es[..|es| - 1], es[|es| - 1];
      EvidenceIgnoresAgents(front, id);
      if !e.origin.ExternalAgent? {
        var w := WithoutAgents(es);
        assert w[|w| - 1] == e && w[..|w| - 1] == WithoutAgents(front);
      }
    }
  }

  /** No agent event can satisfy, or unsatisfy, a contract. */
  lemma {:induction false} AgentsProveNothing(contract: seq<Clause>, es: seq<Event>)
    ensures Evaluate(contract, es) == Evaluate(contract, WithoutAgents(es))
  {
    ProvenIgnoresAgents(contract, es);
  }

  lemma {:induction false} ProvenIgnoresAgents(contract: seq<Clause>, es: seq<Event>)
    ensures Proven(contract, es) == Proven(contract, WithoutAgents(es))
  {
    if contract != [] {
      EvidenceIgnoresAgents(es, contract[0].evidenceId);
      ProvenIgnoresAgents(contract[1..], es);
    }
  }

  lemma EvidenceStep(es: seq<Event>, e: Event, id: string)
    ensures Evidence(es + [e], id)
            == if TrustedEvidence(e) && e.fact.evidenceId == id then Some(e.fact.ok) else Evidence(es, id)
  {
    assert (es + [e])[..|es|] == es;
  }

  /** Only trusted evidence changes what a contract evaluates to. */
  lemma {:induction false} EvaluateStep(contract: seq<Clause>, es: seq<Event>, e: Event)
    requires !TrustedEvidence(e)
    ensures Evaluate(contract, es + [e]) == Evaluate(contract, es)
  {
    ProvenStep(contract, es, e);
  }

  lemma {:induction false} ProvenStep(contract: seq<Clause>, es: seq<Event>, e: Event)
    requires !TrustedEvidence(e)
    ensures Proven(contract, es + [e]) == Proven(contract, es)
  {
    if contract != [] {
      EvidenceStep(es, e, contract[0].evidenceId);
      ProvenStep(contract[1..], es, e);
    }
  }
}
