/** Carrying a mission's log from one store to another: `capsule.py`. */
module Capsule {
  import opened Prelude
  import opened Json
  import opened Models
  import opened Facts
  import opened Chain
  import opened Projection
  import opened Contracts
  import opened Environment
  import opened Rows
  import opened Ledger
  import opened Recovery
  import opened ReplayedLedger
  import opened Store

  const FORMAT := "everrun-agent-capsule-v1"

  /** An event as a capsule carries it: every column but the mission id. */
  datatype Carried = Carried(sequence: int, fact: Fact, createdAt: string, previousHash: Option<string>,
    digest: string, origin: Origin)

  datatype Body = Body(format: string, mission: Mission, redacted: bool, transferable: bool, events: seq<Carried>)

  datatype File = File(body: Body, digest: string)

  /** What is known about a capsule's signature, or whether going without one is allowed. */
  datatype Trust = Keys(valid: bool) | NoKeys(allowUnsigned: bool)

  function CarriedJson(c: Carried): Json {
    Obj([Field("sequence", Num(c.sequence)), Field("event_type", Str(TypeName(c.fact))),
         Field("payload", Payload(c.fact)), Field("created_at", Str(c.createdAt)),
         Field("previous_hash", OrNull(c.previousHash)), Field("digest", Str(c.digest)),
         Field("origin", Str(OriginName(c.origin)))])
  }

  function MissionJson(m: Mission): Json {
    Obj([Field("mission_id", Str(m.missionId)), Field("goal", Str(m.goal)), Field("total", Num(m.total))])
  }

  function AllCarriedJson(cs: seq<Carried>): Json {
    Arr(seq(|cs|, i requires 0 <= i < |cs| => CarriedJson(cs[i])))
  }

  function BodyJson(b: Body): Json {
    Obj([Field("format", Str(b.format)), Field("mission", MissionJson(b.mission)),
         Field("redacted", Bool(b.redacted)), Field("transferable", Bool(b.transferable)),
         Field("events", AllCarriedJson(b.events))])
  }

  function BodyDigest(h: Hash, b: Body): string {
    h(Canonical(BodyJson(b)))
  }

  // ---- export ------------------------------------------------------------------------------

  /** The sequences of the events whose payload the redaction would change. */
  method LeakingSequences(es: seq<Event>, redact: Fact -> Fact) returns (leaking: seq<int>)
    ensures leaking == [] <==> forall i :: 0 <= i < |es| ==> redact(es[i].fact) == es[i].fact
    ensures forall n :: n in leaking <==>
              exists i :: 0 <= i < |es| && es[i].sequence == n && redact(es[i].fact) != es[i].fact
  {
    leaking := [];
    for i := 0 to |es|
      invariant leaking == [] <==> forall j :: 0 <= j < i ==> redact(es[j].fact) == es[j].fact
      invariant forall n :: n in leaking <==>
                  exists j :: 0 <= j < i && es[j].sequence == n && redact(es[j].fact) != es[j].fact
    {
      if redact(es[i].fact) != es[i].fact {
        leaking := leaking + [es[i].sequence];
      }
    }
  }

  function Carry(e: Event, redact: Fact -> Fact, redactPayloads: bool): Carried {
    var fact := if redactPayloads then redact(e.fact) else e.fact;
    Carried(e.sequence, fact, e.createdAt, e.previousHash, e.digest, e.origin)
  }

  function CarryAll(es: seq<Event>, redact: Fact -> Fact, redactPayloads: bool): (r: seq<Carried>)
    ensures |r| == |es| && forall i :: 0 <= i < |es| ==> r[i] == Carry(es[i], redact, redactPayloads)
  {
    seq(|es|, i requires 0 <= i < |es| => Carry(es[i], redact, redactPayloads))
  }

  ghost function Exported(h: Hash, r: MissionRows, redact: Fact -> Fact, redactPayloads: bool): Outcome<File> {
    if r.mission.None? then Raised(KeyError)
    else if !Report(h, r.events, r.head).ok then Raised(ValueError)
    else if !redactPayloads && (exists i :: 0 <= i < |r.events| && redact(r.events[i].fact) != r.events[i].fact)
    then Raised(CapsuleWouldLeak)
    else
      var body := Body(FORMAT, r.mission.value, redactPayloads, !redactPayloads,
        CarryAll(r.events, redact, redactPayloads));
      Ok(File(body, BodyDigest(h, body)))
  }

  /** What an exported file carries, and what the redaction did to it. */
  ghost predicate Exports(h: Hash, r: MissionRows, redact: Fact -> Fact, redactPayloads: bool, f: File) {
    && f.body.format == FORMAT && Some(f.body.mission) == r.mission
    && f.body.redacted == redactPayloads && f.body.transferable != redactPayloads
    && f.digest == h(Canonical(BodyJson(f.body)))
    && |f.body.events| == |r.events|
    && forall i :: 0 <= i < |r.events| ==>
         var c, e := f.body.events[i], r.events[i];
         && c.sequence == e.sequence && c.createdAt == e.createdAt && c.previousHash == e.previousHash
         && c.digest == e.digest && c.origin == e.origin
         && (redactPayloads ==> c.fact == redact(e.fact))
         && (!redactPayloads ==> c.fact == e.fact && redact(e.fact) == e.fact)
  }

  /** No event of the log says anything the redaction would take out. */
  ghost predicate Clean(es: seq<Event>, redact: Fact -> Fact) {
    forall e :: e in es ==> redact(e.fact) == e.fact
  }

  /**
   An export succeeds iff the mission exists and verifies and, unless its payloads are
   redacted, has nothing to redact; it then carries every event of the log, redacted or
   as it is. Each refusal has its own cause, the first that applies.
   */
  lemma ExportExact(h: Hash, r: MissionRows, redact: Fact -> Fact, redactPayloads: bool)
    ensures var x := Exported(h, r, redact, redactPayloads);
      var ok := Report(h, r.events, r.head).ok;
      && (x.Ok? <==> r.mission.Some? && ok && (redactPayloads || Clean(r.events, redact)))
      && (x == Raised(KeyError) <==> r.mission.None?)
      && (x == Raised(ValueError) <==> r.mission.Some? && !ok)
      && (x == Raised(CapsuleWouldLeak) <==>
            r.mission.Some? && ok && !redactPayloads && !Clean(r.events, redact))
      && (x.Ok? ==> Exports(h, r, redact, redactPayloads, x.value))
  {
    hide Report, Canonical, BodyJson;
    if !redactPayloads && !Clean(r.events, redact) {
      var e :| e in r.events && redact(e.fact) != e.fact;
      var i :| 0 <= i < |r.events| && r.events[i] == e;
    }
  }

  method ExportCapsule(store: EverRunStore, mid: string, redact: Fact -> Fact, redactPayloads: bool)
    returns (r: Outcome<File>)
    ensures r == Exported(store.h, store.View(mid), redact, redactPayloads)
    ensures r.Ok? ==> Exports(store.h, store.View(mid), redact, redactPayloads, r.value)
  {
    hide Report, BodyDigest, Exports;
    ExportExact(store.h, store.View(mid), redact, redactPayloads);
    if mid !in store.missions {
      return Raised(KeyError);
    }
    var es := store.Log(mid);
    var chain := store.Verify(mid);
    if !chain.ok {
      return Raised(ValueError);
    }
    var leaking := LeakingSequences(es, redact);
    if leaking != [] && !redactPayloads {
      return Raised(CapsuleWouldLeak);
    }
    var body := Body(FORMAT, store.missions[mid], redactPayloads, !redactPayloads,
      CarryAll(es, redact, redactPayloads));
    return Ok(File(body, BodyDigest(store.h, body)));
  }

  // ---- import --------------------------------------------------------------------------------

  function Landed(mid: string, c: Carried): Event {
    Event(mid, c.sequence, c.fact, c.createdAt, c.previousHash, c.digest, c.origin)
  }

  /** One row into a table read in sequence order; None when the sequence is taken. */
  function Place(es: seq<Event>, e: Event): Option<seq<Event>> {
    if es == [] || e.sequence < es[0].sequence then Some([e] + es)
    else if e.sequence == es[0].sequence then None
    else
      match Place(es[1..], e)
      case None => None
      case Some(rest) => Some([es[0]] + rest)
  }

  function PlaceAll(mid: string, es: seq<Event>, cs: seq<Carried>): Option<seq<Event>>
    decreases cs
  {
    if cs == [] then Some(es)
    else
      match Place(es, Landed(mid, cs[0]))
      case None => None
      case Some(es') => PlaceAll(mid, es', cs[1..])
  }

  predicate Acceptable(h: Hash, f: File) {
    f.body.format == FORMAT && BodyDigest(h, f.body) == f.digest && !f.body.redacted && f.body.events != []
  }

  /** The rows the transaction's statements lead to, or the exception that ends it. */
  function Written(h: Hash, r: MissionRows, m: Mission, cs: seq<Carried>): Outcome<MissionRows>
    requires cs != []
  {
    if r.mission.Some? || PlaceAll(m.missionId, r.events, cs).None? || r.head.Some? then Raised(IntegrityError)
    else
      var es := PlaceAll(m.missionId, r.events, cs).value;
      var head := Chain.Head(|cs|, cs[|cs| - 1].digest);
      if !Report(h, es, Some(head)).ok then Raised(ValueError)
      else Ok(r.(mission := Some(m), events := es, head := Some(head)))
  }

  /** The rows after the import, or the old ones with the exception it ends with. */
  function Imported(h: Hash, r: MissionRows, f: File, trust: Trust): (t: Txn<string>)
    ensures t.outcome.Raised? ==> t.rows == r
  {
    if trust == Keys(false) then Txn(r, Raised(AttestationError))
    else if trust == NoKeys(false) || !Acceptable(h, f) then Txn(r, Raised(ValueError))
    else
      var t := Written(h, r, f.body.mission, f.body.events);
      if t.Raised? then Txn(r, Raised(t.error)) else Txn(t.value, Ok(f.body.mission.missionId))
  }

  /** The row-by-row inserts; false when one of them hits a taken sequence. */
  method LandRows(store: EverRunStore, mid: string, cs: seq<Carried>) returns (landed: bool)
    modifies store`events
    ensures landed <==> PlaceAll(mid, old(store.Log(mid)), cs).Some?
    ensures landed ==> store.View(mid) == old(store.View(mid)).(events := PlaceAll(mid, old(store.Log(mid)), cs).value)
    ensures store.Only(mid)
  {
    hide Place, Landed;
    var i := 0;
    while i < |cs|
      invariant 0 <= i <= |cs|
      invariant PlaceAll(mid, old(store.Log(mid)), cs) == PlaceAll(mid, store.Log(mid), cs[i..])
      invariant forall k :: k != mid ==> store.Log(k) == old(store.Log(k))
    {
      assert cs[i..][0] == cs[i] && cs[i..][1..] == cs[i + 1..];
      var placed := Place(store.Log(mid), Landed(mid, cs[i]));
      if placed.None? {
        return false;
      }
      store.events := store.events[mid := placed.value];
      i := i + 1;
    }
    return true;
  }

  method LandMission(store: EverRunStore, m: Mission)
    modifies store`missions
    ensures store.View(m.missionId) == old(store.View(m.missionId)).(mission := Some(m))
    ensures store.Only(m.missionId)
  {
    store.missions := store.missions[m.missionId := m];
  }

  method LandHead(store: EverRunStore, mid: string, head: Head)
    modifies store`chainHeads
    ensures store.View(mid) == old(store.View(mid)).(head := Some(head))
    ensures store.Only(mid)
  {
    store.chainHeads := store.chainHeads[mid := head];
  }

  /** The statements inside the transaction: mission, rows and anchor, one after the other, and the check at the end. */
  method WriteCapsule(store: EverRunStore, m: Mission, cs: seq<Carried>) returns (r: Outcome<()>)
    requires cs != []
    modifies store`missions, store`events, store`chainHeads
    ensures var t := Written(store.h, old(store.View(m.missionId)), m, cs);
      if t.Ok? then r == Ok(()) && store.View(m.missionId) == t.value else r == Raised(t.error)
    ensures store.Only(m.missionId)
  {
    hide Report, PlaceAll;
    var mid := m.missionId;
    if store.Mission(mid).Some? {
      return Raised(IntegrityError);
    }
    LandMission(store, m);
    var landed := LandRows(store, mid, cs);
    if !landed || store.Head(mid).Some? {
      return Raised(IntegrityError);
    }
    LandHead(store, mid, Chain.Head(|cs|, cs[|cs| - 1].digest));
    var chain := store.Verify(mid);
    return if chain.ok then Ok(()) else Raised(ValueError);
  }

  /** `import_capsule`: everything the transaction wrote comes out again when it raises. */
  method ImportCapsule(store: EverRunStore, f: File, trust: Trust) returns (r: Outcome<string>)
    modifies store`missions, store`events, store`chainHeads
    ensures var mid := f.body.mission.missionId;
      var t := Imported(store.h, old(store.View(mid)), f, trust);
      store.View(mid) == t.rows && r == t.outcome
    ensures store.Only(f.body.mission.missionId)
  {
    hide Acceptable, Intact;
    if trust == Keys(false) {
      return Raised(AttestationError);
    }
    if trust == NoKeys(false) || !Acceptable(store.h, f) {
      return Raised(ValueError);
    }
    AcceptableIsIntact(store.h, f);
    IntactHasEvents(store.h, f);
    hide Written;
    var missions, events, chainHeads := store.missions, store.events, store.chainHeads;
    var written := WriteCapsule(store, f.body.mission, f.body.events);
    if written.Raised? {
      store.missions, store.events, store.chainHeads := missions, events, chainHeads;
      return Raised(written.error);
    }
    return Ok(f.body.mission.missionId);
  }

  // ---- the round trip ----------------------------------------------------------------------------

  lemma {:induction false} PlaceLast(es: seq<Event>, e: Event)
    requires forall i :: 0 <= i < |es| ==> es[i].sequence < e.sequence
    ensures Place(es, e) == Some(es + [e])
  {
    if es == [] {
      assert es + [e] == [e] + es;
    } else {
      PlaceLast(es[1..], e);
      assert Place(es, e) == Some([es[0]] + (es[1..] + [e]));
      assert es + [e] == [es[0]] + (es[1..] + [e]);
    }
  }

  /** Rows arriving in order land as they were. */
  lemma {:induction false} PlaceInOrder(mid: string, es: seq<Event>, n: nat, redact: Fact -> Fact)
    requires n <= |es| && Numbered(es) && forall i :: 0 <= i < |es| ==> es[i].missionId == mid
    ensures PlaceAll(mid, es[..n], CarryAll(es, redact, false)[n..]) == Some(es)
    decreases |es| - n
  {
    var cs := CarryAll(es, redact, false);
    if n == |es| {
      assert es[..n] == es;
    } else {
      assert cs[n..][0] == cs[n] && cs[n..][1..] == cs[n + 1..];
      assert Landed(mid, cs[n]) == es[n];
      PlaceLast(es[..n], es[n]);
      assert es[..n] + [es[n]] == es[..n + 1];
      PlaceInOrder(mid, es, n + 1, redact);
    }
  }

  /**
   A capsule exported unredacted from a verified mission imports into a store
   without that mission as the identical log, mission row and anchor; so its state,
   pinned environment and dependency graph are equal, and `recover` gives the same
   mode and next action for every environment and contract when the source has no
   started action.
   */
  lemma RoundTrip(h: Hash, mid: string, r: MissionRows, redact: Fact -> Fact, trust: Trust,
                  environment: Option<Snapshot>, contract: Option<seq<Clause>>)
    requires Exported(h, r, redact, false).Ok? && trust != Keys(false) && trust != NoKeys(false)
    requires r.mission.value.missionId == mid && forall i :: 0 <= i < |r.events| ==> r.events[i].missionId == mid
    ensures var t := Imported(h, NO_ROWS, Exported(h, r, redact, false).value, trust);
      && t.outcome == Ok(mid)
      && t.rows == NO_ROWS.(mission := r.mission, events := r.events, head := r.head)
      && HasStart(r.events) && State(t.rows.events) == State(r.events)
      && Pinned(t.rows.events) == Pinned(r.events) && Graph(t.rows.events) == Graph(r.events)
      && (Uncertain(r.actions) == [] ==>
            && ModeOf(h, Query(t.rows, environment, contract)) == ModeOf(h, Query(r, environment, contract))
            && ActionOf(h, Query(t.rows, environment, contract)) == ActionOf(h, Query(r, environment, contract)))
  {
    hide Report, BodyDigest, State, Graph, Pinned, Verified;
    OkHasStart(h, r.events, r.head);
    OkAnchor(h, r.events, r.head);
    var cs := CarryAll(r.events, redact, false);
    assert r.events[..0] == [] && cs[0..] == cs;
    PlaceInOrder(mid, r.events, 0, redact);
    var t := Imported(h, NO_ROWS, Exported(h, r, redact, false).value, trust);
    assert t.rows == NO_ROWS.(mission := r.mission, events := r.events, head := r.head);
    if Uncertain(r.actions) == [] { SameAnswers(h, r, t.rows, environment, contract); }
  }

  lemma OkAnchor(h: Hash, es: seq<Event>, head: Option<Head>)
    requires Report(h, es, head).ok
    ensures es != [] && head == Some(Head(|es|, es[|es| - 1].digest))
  {
    VerifiedIsOk(h, es, head);
  }

  lemma SameAnswers(h: Hash, a: MissionRows, b: MissionRows, environment: Option<Snapshot>,
                    contract: Option<seq<Clause>>)
    requires a.events == b.events && a.head == b.head && Uncertain(a.actions) == Uncertain(b.actions) == []
    ensures ModeOf(h, Query(b, environment, contract)) == ModeOf(h, Query(a, environment, contract))
    ensures ActionOf(h, Query(b, environment, contract)) == ActionOf(h, Query(a, environment, contract))
  {
    hide Report, Unconfirmed, Terminal, Drifted, Evaluate, State, HasStart, TargetMet;
  }

  /** A redacted capsule is never taken as state. */
  lemma RedactedNeverImports(h: Hash, r: MissionRows, redact: Fact -> Fact, target: MissionRows, trust: Trust)
    requires Exported(h, r, redact, true).Ok?
    ensures Imported(h, target, Exported(h, r, redact, true).value, trust).outcome.Raised?
    ensures Imported(h, target, Exported(h, r, redact, true).value, trust).rows == target
  {
    hide Report, BodyDigest;
  }

  // ---- which capsules are taken -------------------------------------------------------------

  /** The order a table read by sequence has. */
  ghost predicate BySequence(es: seq<Event>) {
    forall i, j :: 0 <= i < j < |es| ==> es[i].sequence < es[j].sequence
  }

  function LandAll(mid: string, cs: seq<Carried>): seq<Event> {
    seq(|cs|, i requires 0 <= i < |cs| => Landed(mid, cs[i]))
  }

  lemma {:induction false} PlaceElements(es: seq<Event>, e: Event)
    ensures Place(es, e).Some? ==> multiset(Place(es, e).value) == multiset(es) + multiset{e}
  {
    if es != [] && e.sequence > es[0].sequence {
      PlaceElements(es[1..], e);
      assert es == [es[0]] + es[1..];
    }
  }

  lemma {:induction false} PlaceClash(es: seq<Event>, e: Event)
    ensures Place(es, e).None? ==> exists i :: 0 <= i < |es| && es[i].sequence == e.sequence
  {
    if es != [] && e.sequence > es[0].sequence && Place(es, e).None? {
      PlaceClash(es[1..], e);
      var i :| 0 <= i < |es[1..]| && es[1..][i].sequence == e.sequence;
      assert es[i + 1].sequence == e.sequence;
    }
  }

  lemma OrderedCons(e: Event, rest: seq<Event>)
    requires BySequence(rest) && forall x :: x in rest ==> e.sequence < x.sequence
    ensures BySequence([e] + rest)
  {
  }

  lemma {:induction false} PlaceOrdered(es: seq<Event>, e: Event)
    requires BySequence(es) && Place(es, e).Some?
    ensures BySequence(Place(es, e).value)
  {
    if es != [] && e.sequence > es[0].sequence {
      PlaceOrdered(es[1..], e);
      PlaceElements(es[1..], e);
      var rest := Place(es[1..], e).value;
      forall x | x in rest ensures es[0].sequence < x.sequence {
        assert x in multiset(es[1..]) + multiset{e};
        assert x in es[1..] || x == e;
      }
      OrderedCons(es[0], rest);
    }
  }

  /** In a list ordered by sequence one event, and one sequence, occurs once. */
  lemma {:induction false} OnceEach(es: seq<Event>, a: Event, b: Event)
    requires BySequence(es) && a.sequence == b.sequence
    ensures multiset(es)[a] + multiset(es)[b] <= if a == b then 2 else 1
    decreases |es|
  {
    if es != [] {
      var front, e := es[..|es| - 1], es[|es| - 1];
      assert es == front + [e];
      OnceEach(front, a, b);
      if e.sequence == a.sequence {
        assert a !in front && b !in front;
        assert multiset(front)[a] == 0 && multiset(front)[b] == 0;
      } else {
        assert e != a && e != b;
      }
    }
  }

  /** Rows that can be ordered by sequence land without a clash, in whatever order they come. */
  lemma {:induction false} OrderableLands(mid: string, es: seq<Event>, cs: seq<Carried>, target: seq<Event>)
    requires BySequence(es) && BySequence(target) && multiset(target) == multiset(es) + multiset(LandAll(mid, cs))
    ensures PlaceAll(mid, es, cs) == Some(target)
    decreases cs
  {
    hide Place, Landed;
    if cs == [] {
      assert LandAll(mid, cs) == [];
      OneOrder(es, target);
    } else {
      var e := Landed(mid, cs[0]);
      assert LandAll(mid, cs) == [e] + LandAll(mid, cs[1..]);
      PlaceElements(es, e);
      if Place(es, e).None? {
        PlaceClash(es, e);
        var i :| 0 <= i < |es| && es[i].sequence == e.sequence;
        assert es[i] in es && multiset(es)[es[i]] >= 1;
        OnceEach(target, es[i], e);
        assert false;
      }
      PlaceOrdered(es, e);
      OrderableLands(mid, Place(es, e).value, cs[1..], target);
    }
  }

  /** The least sequence comes first. */
  lemma SameFirst(es: seq<Event>, fs: seq<Event>)
    requires BySequence(es) && BySequence(fs) && es != [] && es[0] in fs && fs != [] && fs[0] in es
    ensures es[0] == fs[0]
  {
    var i :| 0 <= i < |fs| && fs[i] == es[0];
    var j :| 0 <= j < |es| && es[j] == fs[0];
    assert fs[0].sequence <= es[0].sequence <= fs[0].sequence;
  }

  lemma RestElements(es: seq<Event>)
    requires es != []
    ensures multiset(es[1..]) == multiset(es) - multiset{es[0]}
  {
    assert es == [es[0]] + es[1..];
  }

  /** A bag of events has one order by sequence. */
  lemma {:induction false} OneOrder(es: seq<Event>, fs: seq<Event>)
    requires BySequence(es) && BySequence(fs) && multiset(es) == multiset(fs)
    ensures es == fs
  {
    assert |multiset(es)| == |es| && |multiset(fs)| == |fs|;
    if es != [] {
      assert es[0] in multiset(fs) && fs[0] in multiset(es);
      SameFirst(es, fs);
      RestElements(es);
      RestElements(fs);
      OneOrder(es[1..], fs[1..]);
      assert es == [es[0]] + es[1..] && fs == [fs[0]] + fs[1..];
    }
  }

  lemma {:induction false} LandedRows(mid: string, es: seq<Event>, cs: seq<Carried>)
    requires BySequence(es) && PlaceAll(mid, es, cs).Some?
    ensures multiset(PlaceAll(mid, es, cs).value) == multiset(es) + multiset(LandAll(mid, cs))
    decreases cs
  {
    hide Place, Landed;
    if cs == [] {
      assert LandAll(mid, cs) == [];
    } else {
      var e := Landed(mid, cs[0]);
      assert LandAll(mid, cs) == [e] + LandAll(mid, cs[1..]);
      PlaceElements(es, e);
      PlaceOrdered(es, e);
      LandedRows(mid, Place(es, e).value, cs[1..]);
    }
  }

  /** The carried events are, in some order, a log that verifies against the last one carried. */
  ghost predicate CarriesLog(h: Hash, mid: string, cs: seq<Carried>, es: seq<Event>) {
    && cs != [] && multiset(es) == multiset(LandAll(mid, cs))
    && Report(h, es, Some(Chain.Head(|cs|, cs[|cs| - 1].digest))).ok
  }

  lemma VerifiedIsOrdered(h: Hash, es: seq<Event>, head: Option<Head>)
    requires Report(h, es, head).ok
    ensures BySequence(es)
  {
    OkHasStart(h, es, head);
  }

  lemma {:induction false} PlaceIff(es: seq<Event>, e: Event)
    requires BySequence(es)
    ensures Place(es, e).Some? <==> forall i :: 0 <= i < |es| ==> es[i].sequence != e.sequence
  {
    if es != [] && e.sequence > es[0].sequence {
      PlaceIff(es[1..], e);
      assert forall i :: 0 < i < |es| ==> es[i] == es[1..][i - 1];
    }
  }

  /** Every carried sequence is free, and carried once. */
  ghost predicate NoClash(es: seq<Event>, cs: seq<Carried>) {
    && (forall i, j :: 0 <= i < |es| && 0 <= j < |cs| ==> es[i].sequence != cs[j].sequence)
    && forall i, j :: 0 <= i < j < |cs| ==> cs[i].sequence != cs[j].sequence
  }

  lemma {:induction false} NoClashStep(es: seq<Event>, cs: seq<Carried>, e: Event, placed: seq<Event>)
    requires cs != [] && e.sequence == cs[0].sequence && multiset(placed) == multiset(es) + multiset{e}
    requires forall i :: 0 <= i < |es| ==> es[i].sequence != e.sequence
    ensures NoClash(placed, cs[1..]) <==> NoClash(es, cs)
  {
    forall x ensures x in placed <==> x in es || x == e { assert x in placed <==> x in multiset(placed); }
    if NoClash(placed, cs[1..]) {
      assert e in placed;
      forall i, j | 0 <= i < |es| && 0 <= j < |cs| ensures es[i].sequence != cs[j].sequence {
        assert es[i] in placed;
        if j > 0 { assert cs[j] == cs[1..][j - 1]; }
      }
      forall i, j | 0 <= i < j < |cs| ensures cs[i].sequence != cs[j].sequence {
        assert cs[j] == cs[1..][j - 1];
        if i > 0 { assert cs[i] == cs[1..][i - 1]; }
      }
    }
    if NoClash(es, cs) {
      forall i, j | 0 <= i < |placed| && 0 <= j < |cs[1..]| ensures placed[i].sequence != cs[1..][j].sequence {
        assert placed[i] in es || placed[i] == e;
        assert cs[1..][j] == cs[j + 1];
      }
    }
  }

  /** The inserts go through iff no sequence clashes. */
  lemma {:induction false} PlaceAllIff(mid: string, es: seq<Event>, cs: seq<Carried>)
    requires BySequence(es)
    ensures PlaceAll(mid, es, cs).Some? <==> NoClash(es, cs)
    decreases cs
  {
    hide BySequence, NoClash;
    if cs == [] {
      NothingClashes(es, cs);
    } else {
      var e := Landed(mid, cs[0]);
      PlaceIff(es, e);
      if Place(es, e).Some? {
        PlaceOrdered(es, e);
        PlaceElements(es, e);
        PlaceAllIff(mid, Place(es, e).value, cs[1..]);
        NoClashStep(es, cs, e, Place(es, e).value);
      } else {
        var i :| 0 <= i < |es| && es[i].sequence == e.sequence;
        FirstClashes(es, cs, i);
      }
    }
  }

  lemma NothingClashes(es: seq<Event>, cs: seq<Carried>)
    requires cs == []
    ensures NoClash(es, cs)
  {
  }

  lemma FirstClashes(es: seq<Event>, cs: seq<Carried>, i: nat)
    requires cs != [] && i < |es| && es[i].sequence == cs[0].sequence
    ensures !NoClash(es, cs)
  {
  }

  /** A capsule in the right format, with the digest of its own body, not redacted and with events. */
  ghost predicate Intact(h: Hash, f: File) {
    && f.body.format == FORMAT && f.digest == h(Canonical(BodyJson(f.body)))
    && !f.body.redacted && f.body.events != []
  }

  lemma AcceptableIsIntact(h: Hash, f: File)
    ensures Acceptable(h, f) <==> Intact(h, f)
  {
    hide Canonical, BodyJson;
  }

  lemma IntactHasEvents(h: Hash, f: File)
    ensures Intact(h, f) ==> f.body.events != []
  {
  }

  /** Which import ends with which exception, whatever the store holds in order. */
  lemma ImportRefusals(h: Hash, r: MissionRows, f: File, trust: Trust)
    requires BySequence(r.events)
    ensures var t := Imported(h, r, f, trust).outcome;
      var taken := r.mission.Some? || r.head.Some? || !NoClash(r.events, f.body.events);
      && (t == Raised(AttestationError) <==> trust == Keys(false))
      && (trust == NoKeys(false) || (trust != Keys(false) && !Intact(h, f)) ==> t == Raised(ValueError))
      && (t == Raised(IntegrityError) <==> trust != Keys(false) && trust != NoKeys(false) && Intact(h, f) && taken)
      && (t.Raised? ==> t.error in {AttestationError, ValueError, IntegrityError})
  {
    hide Report, Canonical, BodyJson, PlaceAll, NoClash;
    PlaceAllIff(f.body.mission.missionId, r.events, f.body.events);
  }

  /**
   An import into a store without that mission succeeds iff its signature is trusted or
   waived, it is intact and unredacted, and its events are, in any order, a log that
   verifies against the last one listed; the mission then has exactly that log.
   */
  lemma ImportedExact(h: Hash, f: File, trust: Trust)
    ensures var mid := f.body.mission.missionId;
      var t := Imported(h, NO_ROWS, f, trust);
      && (t.outcome.Ok? <==>
            trust != Keys(false) && trust != NoKeys(false) && Intact(h, f)
              && exists es :: CarriesLog(h, mid, f.body.events, es))
      && (t.outcome.Ok? ==>
            && CarriesLog(h, mid, f.body.events, t.rows.events)
            && t.rows.mission == Some(f.body.mission) && t.rows.head == Some(Anchor(t.rows.events))
            && t.rows == NO_ROWS.(mission := t.rows.mission, events := t.rows.events, head := t.rows.head))
  {
    hide Report, Landed, Place, Acceptable, Intact;
    AcceptableIsIntact(h, f);
    IntactHasEvents(h, f);
    var mid, cs := f.body.mission.missionId, f.body.events;
    var t := Imported(h, NO_ROWS, f, trust);
    if t.outcome.Ok? {
      LandedRows(mid, [], cs);
      OkAnchor(h, t.rows.events, t.rows.head);
      assert CarriesLog(h, mid, cs, t.rows.events);
    }
    if trust != Keys(false) && trust != NoKeys(false) && Intact(h, f) && exists es :: CarriesLog(h, mid, cs, es) {
      var es :| CarriesLog(h, mid, cs, es);
      VerifiedIsOrdered(h, es, Some(Chain.Head(|cs|, cs[|cs| - 1].digest)));
      OrderableLands(mid, [], cs, es);
    }
  }

  /** A mission whose rows exist is never imported over. */
  lemma NeverImportedOver(h: Hash, r: MissionRows, f: File, trust: Trust)
    requires r.mission.Some? || r.head.Some?
    ensures Imported(h, r, f, trust).outcome.Raised? && Imported(h, r, f, trust).rows == r
  {
    hide Report, BodyDigest, PlaceAll;
  }

  // ---- what a capsule's digest covers ----------------------------------------------------------

  ghost predicate SameCarried(a: Carried, b: Carried) {
    && a.sequence == b.sequence && SameFact(a.fact, b.fact) && a.createdAt == b.createdAt
    && a.previousHash == b.previousHash && a.digest == b.digest && a.origin == b.origin
  }

  lemma CarriedFixed(a: Carried, b: Carried)
    requires Norm(CarriedJson(a)) == Norm(CarriedJson(b))
    ensures SameCarried(a, b)
  {
    Leaves();
    hide Norm, Same, Payload, TypeName, OriginName, SameFact;
    var fs, gs := CarriedJson(a).fields, CarriedJson(b).fields;
    NormsAgree(fs, gs);
    assert Agree(fs[0], gs[0]) && Agree(fs[1], gs[1]) && Agree(fs[2], gs[2]) && Agree(fs[3], gs[3]);
    assert Agree(fs[4], gs[4]) && Agree(fs[5], gs[5]) && Agree(fs[6], gs[6]);
    FactFixed(a.fact, b.fact);
    OriginNames(a.origin, b.origin);
  }

  lemma AllCarriedFixed(cs: seq<Carried>, ds: seq<Carried>)
    requires Norm(AllCarriedJson(cs)) == Norm(AllCarriedJson(ds))
    ensures |cs| == |ds| && forall i :: 0 <= i < |cs| ==> SameCarried(cs[i], ds[i])
  {
    hide CarriedJson, SameCarried;
    var p, q := AllCarriedJson(cs).items, AllCarriedJson(ds).items;
    assert NormItems(p) == NormItems(q);
    forall i | 0 <= i < |cs| ensures |ds| == |cs| && SameCarried(cs[i], ds[i]) {
      assert NormItems(p)[i] == Norm(CarriedJson(cs[i])) && NormItems(q)[i] == Norm(CarriedJson(ds[i]));
      CarriedFixed(cs[i], ds[i]);
    }
  }

  lemma MissionFixed(m: Mission, n: Mission)
    requires Norm(MissionJson(m)) == Norm(MissionJson(n))
    ensures m == n
  {
    Leaves();
    hide Norm, Same;
    var fs, gs := MissionJson(m).fields, MissionJson(n).fields;
    NormsAgree(fs, gs);
    assert Agree(fs[0], gs[0]) && Agree(fs[1], gs[1]) && Agree(fs[2], gs[2]);
  }

  /** One capsule digest means one capsule, or two different texts with one digest. */
  lemma BodyDigestFixes(h: Hash, b: Body, c: Body)
    requires BodyDigest(h, b) == BodyDigest(h, c)
    ensures (&& b.format == c.format && b.mission == c.mission && b.redacted == c.redacted
             && b.transferable == c.transferable && |b.events| == |c.events|
             && forall i :: 0 <= i < |b.events| ==> SameCarried(b.events[i], c.events[i]))
            || (Canonical(BodyJson(b)) != Canonical(BodyJson(c))
                && h(Canonical(BodyJson(b))) == h(Canonical(BodyJson(c))))
  {
    Leaves();
    hide Canonical, Norm, Same, MissionJson, AllCarriedJson, SameCarried;
    if Canonical(BodyJson(b)) == Canonical(BodyJson(c)) {
      var fs, gs := BodyJson(b).fields, BodyJson(c).fields;
      FieldsAgree(fs, gs);
      assert Agree(fs[0], gs[0]) && Agree(fs[1], gs[1]) && Agree(fs[2], gs[2]) && Agree(fs[3], gs[3]);
      assert Agree(fs[4], gs[4]);
      MissionFixed(b.mission, c.mission);
      AllCarriedFixed(b.events, c.events);
    }
  }

  // ---- what a capsule does not carry -----------------------------------------------------------

  lemma {:induction false} NoStartsNoKeys(es: seq<Event>)
    ensures StartedKeys(es) == [] <==> forall i :: 0 <= i < |es| ==> !es[i].fact.ActionStarted?
  {
    if es != [] {
      var front, e := es[..|es| - 1], es[|es| - 1];
      NoStartsNoKeys(front);
      if e.fact.ActionStarted? {
        assert StartedKeys(es) != [];
      } else {
        assert forall i :: 0 <= i < |front| ==> es[i] == front[i];
      }
    }
  }

  /** The imported table is the replay of the imported log iff the log starts no action. */
  lemma ImportReplaysIff(es: seq<Event>)
    ensures TableReplays(es, []) <==> forall i :: 0 <= i < |es| ==> !es[i].fact.ActionStarted?
  {
    NoStartsNoKeys(es);
  }

  /** Whatever the source's rows say, its actions can be claimed afresh where the capsule lands. */
  lemma ImportForgetsActions(h: Hash, mid: string, r: MissionRows, redact: Fact -> Fact, trust: Trust,
                             kind: string, args: Json, budget: RetryBudget, now: string)
    requires Exported(h, r, redact, false).Ok? && trust != Keys(false) && trust != NoKeys(false)
    requires r.mission.value.missionId == mid && forall i :: 0 <= i < |r.events| ==> r.events[i].missionId == mid
    ensures var t := Imported(h, NO_ROWS, Exported(h, r, redact, false).value, trust);
      var c := Claim(h, budget, mid, t.rows, kind, args, now).outcome;
      (c.Ok? && c.value.isFresh <==> budget.Allows(kind, 0, 0)) && (c.Raised? <==> c == Raised(BudgetExceeded))
  {
    RoundTrip(h, mid, r, redact, trust, None, None);
    hide Exported, Imported, ActionKey, Recorded;
  }
}
