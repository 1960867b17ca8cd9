/** The hash chain of `store.py` and `crypto.py`: linking, verifying, anchoring. */
module Chain {
  import opened Prelude
  import opened Json
  import opened Models
  import opened Facts
  import opened JsonReader

  /** The row of `chain_heads` for one mission. */
  datatype Head = Head(eventCount: int, headDigest: string)

  datatype ChainReport = ChainReport(ok: bool, trustedThrough: int, error: string)

  /** The entries an event's digest covers, when `previous` is the digest before it. */
  function PreimageFields(e: Event, previous: Option<string>): (fs: seq<Field>)
    ensures |fs| == 7
  {
    [Field("mission_id", Str(e.missionId)), Field("sequence", Num(e.sequence)),
     Field("event_type", Str(TypeName(e.fact))),
     Field("payload", Payload(e.fact)), Field("created_at", Str(e.createdAt)), Field("previous_hash", OrNull(previous)),
     Field("origin", Str(OriginName(e.origin)))]
  }

  function Preimage(e: Event, previous: Option<string>): string {
    Canonical(Obj(PreimageFields(e, previous)))
  }

  /** `event_digest`, for the hash function `h`. */
  function EventDigest(h: Hash, e: Event, previous: Option<string>): string {
    h(Preimage(e, previous))
  }

  function Previous(es: seq<Event>, i: nat): Option<string>
    requires i <= |es|
  {
    if i == 0 then None else Some(es[i - 1].digest)
  }

  /** Event `i` sits at its place: number, back link and digest are the ones expected there. */
  predicate LinkedAt(h: Hash, es: seq<Event>, i: nat)
    requires i < |es|
  {
    && es[i].sequence == i + 1
    && es[i].previousHash == Previous(es, i)
    && es[i].digest == EventDigest(h, es[i], Previous(es, i))
  }

  /** The first `n` events form a valid chain. */
  ghost predicate Linked(h: Hash, es: seq<Event>, n: nat) {
    n <= |es| && forall i :: 0 <= i < n ==> LinkedAt(h, es, i)
  }

  predicate Opens(es: seq<Event>) {
    es != [] && es[0].sequence == 1 && es[0].fact.MissionStarted?
  }

  /** What the anchor row must be for the list. */
  function Anchor(es: seq<Event>): Head
    requires es != []
  {
    Head(|es|, es[|es| - 1].digest)
  }

  const NO_START := "missing mission start"
  const HEAD_MISMATCH := "chain head mismatch or truncated tail"

  function Trusted(h: Hash, es: seq<Event>, i: nat): nat
    requires i <= |es|
    decreases |es| - i
  {
    if i < |es| && LinkedAt(h, es, i) then Trusted(h, es, i + 1) else i
  }

  function Report(h: Hash, es: seq<Event>, head: Option<Head>): ChainReport {
    if !Opens(es) then ChainReport(false, 0, NO_START)
    else
      var t := Trusted(h, es, 0);
      if t < |es| then ChainReport(false, t, "invalid event " + Dec(es[t].sequence))
      else if head != Some(Anchor(es)) then ChainReport(false, t, HEAD_MISMATCH)
      else ChainReport(true, t, "")
  }

  /** `EverRunStore.verify_chain` on the rows it reads. */
  method VerifyChain(h: Hash, es: seq<Event>, head: Option<Head>) returns (r: ChainReport)
    ensures r == Report(h, es, head)
  {
    hide EventDigest, Dec;
    if es == [] || es[0].sequence != 1 || !es[0].fact.MissionStarted? {
      return ChainReport(false, 0, NO_START);
    }
    var previous: Option<string> := None;
    var trusted := 0;
    var i := 0;
    while i < |es|
      invariant 0 <= i <= |es| && trusted == i && previous == Previous(es, i)
      invariant Trusted(h, es, 0) == Trusted(h, es, i)
    {
      var e := es[i];
      var expected := EventDigest(h, e, previous);
      if e.sequence != i + 1 || e.previousHash != previous || e.digest != expected {
        assert !LinkedAt(h, es, i);
        return ChainReport(false, trusted, "invalid event " + Dec(e.sequence));
      }
      assert LinkedAt(h, es, i);
      trusted := e.sequence;
      previous := Some(e.digest);
      i := i + 1;
    }
    if head == None || head.value.eventCount != |es| || Some(head.value.headDigest) != previous {
      return ChainReport(false, trusted, HEAD_MISMATCH);
    }
    return ChainReport(true, trusted, "");
  }

  lemma {:induction false} TrustedIsLongest(h: Hash, es: seq<Event>, i: nat)
    requires Linked(h, es, i)
    ensures var t := Trusted(h, es, i); Linked(h, es, t) && forall n: nat :: Linked(h, es, n) ==> n <= t
    decreases |es| - i
  {
    hide EventDigest;
    if i < |es| && LinkedAt(h, es, i) { TrustedIsLongest(h, es, i + 1); }
  }

  /** `ok` and `trusted_through` are exact for every stored list and anchor. */
  lemma VerifyExact(h: Hash, es: seq<Event>, head: Option<Head>)
    ensures var r := Report(h, es, head);
      && (r.ok <==> Opens(es) && Linked(h, es, |es|) && head == Some(Anchor(es)))
      && (Opens(es) ==> 0 <= r.trustedThrough && Linked(h, es, r.trustedThrough)
                        && forall n: nat :: Linked(h, es, n) ==> n <= r.trustedThrough)
      && (!Opens(es) ==> r.trustedThrough == 0)
  {
    TrustedIsLongest(h, es, 0);
  }

  /** What it complains of: the start, the first event out of its place, by its own number, or the anchor. */
  lemma ComplaintExact(h: Hash, es: seq<Event>, head: Option<Head>)
    ensures var error := Report(h, es, head).error;
      && (!Opens(es) ==> error == "missing mission start")
      && (forall i: nat :: Opens(es) && i < |es| && Linked(h, es, i) && !LinkedAt(h, es, i) ==>
            error == "invalid event " + Dec(es[i].sequence))
      && (Opens(es) && Linked(h, es, |es|) ==>
            error == if head == Some(Anchor(es)) then "" else "chain head mismatch or truncated tail")
  {
    TrustedIsLongest(h, es, 0);
    hide LinkedAt, Dec;
    var t := Trusted(h, es, 0);
    assert forall i: nat :: i < t ==> LinkedAt(h, es, i);
    forall i: nat | i < |es| && Linked(h, es, i) && !LinkedAt(h, es, i) ensures t == i {}
  }

  ghost predicate Verified(h: Hash, es: seq<Event>, head: Option<Head>) {
    Opens(es) && Linked(h, es, |es|) && head == Some(Anchor(es))
  }

  lemma VerifiedIsOk(h: Hash, es: seq<Event>, head: Option<Head>)
    ensures Verified(h, es, head) <==> Report(h, es, head).ok
    ensures Verified(h, es, head) ==> Report(h, es, head) == ChainReport(true, |es|, "")
  {
    VerifyExact(h, es, head);
  }

  // ---- one anchor, one history ------------------------------------------------------

  /** Equal in every stored field, and in every argument of the fact. */
  ghost predicate SameEvent(a: Event, b: Event) {
    && a.missionId == b.missionId && a.sequence == b.sequence && SameFact(a.fact, b.fact)
    && a.createdAt == b.createdAt && a.previousHash == b.previousHash
    && a.digest == b.digest && a.origin == b.origin
  }

  /** The two lists hold, at one position, different texts with one digest. */
  ghost predicate CollidesAt(h: Hash, a: seq<Event>, b: seq<Event>, i: nat) {
    && i < |a| && i < |b|
    && Preimage(a[i], a[i].previousHash) != Preimage(b[i], b[i].previousHash)
    && h(Preimage(a[i], a[i].previousHash)) == h(Preimage(b[i], b[i].previousHash))
  }

  lemma PreimageFieldsAgree(a: Event, b: Event, p: Option<string>, q: Option<string>)
    requires Preimage(a, p) == Preimage(b, q)
    ensures forall i :: 0 <= i < 7 ==>
      && Norm(PreimageFields(a, p)[i].value) == Norm(PreimageFields(b, q)[i].value)
      && Same(PreimageFields(a, p)[i].value, PreimageFields(b, q)[i].value)
  {
    hide Canonical, Payload, TypeName, OriginName, OrNull, Same, Norm;
    FieldsAgree(PreimageFields(a, p), PreimageFields(b, q));
  }

  lemma PreimageInjective(a: Event, b: Event, p: Option<string>, q: Option<string>)
    requires Preimage(a, p) == Preimage(b, q)
    ensures a.missionId == b.missionId && a.sequence == b.sequence && SameFact(a.fact, b.fact)
    ensures a.createdAt == b.createdAt && p == q && a.origin == b.origin
  {
    PreimageFieldsAgree(a, b, p, q);
    hide Preimage, Canonical, Same, Payload, TypeName, OriginName, SameFact;
    var fs, gs := PreimageFields(a, p), PreimageFields(b, q);
    assert Norm(fs[0].value) == Norm(gs[0].value) && Norm(fs[1].value) == Norm(gs[1].value);
    assert Norm(fs[2].value) == Norm(gs[2].value) && Norm(fs[3].value) == Norm(gs[3].value);
    assert Norm(fs[4].value) == Norm(gs[4].value) && Norm(fs[5].value) == Norm(gs[5].value);
    assert Norm(fs[6].value) == Norm(gs[6].value);
    OriginNames(a.origin, b.origin);
    FactFixed(a.fact, b.fact);
  }

  lemma OriginNames(a: Origin, b: Origin)
    requires OriginName(a) == OriginName(b)
    ensures a == b
  {
    assert |"deterministic"| == 13 && |"human"| == 5 && |"external_agent"| == 14;
  }

  lemma OneStepBack(h: Hash, a: seq<Event>, b: seq<Event>, i: nat)
    requires i < |a| && i < |b| && LinkedAt(h, a, i) && LinkedAt(h, b, i) && a[i].digest == b[i].digest
    ensures CollidesAt(h, a, b, i) || (SameEvent(a[i], b[i]) && Previous(a, i) == Previous(b, i))
  {
    hide Preimage;
    if Preimage(a[i], a[i].previousHash) == Preimage(b[i], b[i].previousHash) {
      PreimageInjective(a[i], b[i], a[i].previousHash, b[i].previousHash);
    }
  }

  /** From equal digests at `n`, equality runs back to the first event. */
  lemma {:induction false} BackToStart(h: Hash, a: seq<Event>, b: seq<Event>, n: nat)
    requires Linked(h, a, n) && Linked(h, b, n) && Previous(a, n) == Previous(b, n)
    ensures (forall i :: 0 <= i < n ==> SameEvent(a[i], b[i])) || (exists i :: 0 <= i < n && CollidesAt(h, a, b, i))
  {
    hide SameEvent, CollidesAt, EventDigest;
    if n > 0 {
      OneStepBack(h, a, b, n - 1);
      if !CollidesAt(h, a, b, n - 1) { BackToStart(h, a, b, n - 1); }
    }
  }

  /** Two histories verified against one anchor are the same history, or show a digest collision. */
  lemma AnchorFixesHistory(h: Hash, a: seq<Event>, b: seq<Event>, head: Option<Head>)
    requires Report(h, a, head).ok && Report(h, b, head).ok
    ensures |a| == |b|
    ensures (forall i :: 0 <= i < |a| ==> SameEvent(a[i], b[i])) || (exists i :: 0 <= i < |a| && CollidesAt(h, a, b, i))
  {
    VerifiedIsOk(h, a, head);
    VerifiedIsOk(h, b, head);
    hide Report, LinkedAt, SameEvent, CollidesAt;
    BackToStart(h, a, b, |a|);
  }

  // ---- the text a digest is taken of -------------------------------------------------------

  /** The three values the origin column can have. */
  function OriginText(o: Origin): string {
    if o == Deterministic then "deterministic" else if o == Human then "human" else "external_agent"
  }

  lemma OriginTexts(o: Origin)
    ensures OriginName(o) == OriginText(o)
  {
  }

  /** What the text says: the seven columns an event is hashed with, in the order of their names. */
  function PreimageColumns(e: Event, previous: Option<string>): (cs: seq<Field>)
    ensures |cs| == 7
  {
    [Field("created_at", Str(e.createdAt)), Field("event_type", Str(TypeName(e.fact))),
     Field("mission_id", Str(e.missionId)), Field("origin", Str(OriginText(e.origin))),
     Field("payload", Norm(Payload(e.fact))), Field("previous_hash", OrNull(previous)),
     Field("sequence", Num(e.sequence))]
  }

  lemma ColumnsAscend(e: Event, previous: Option<string>)
    ensures Ascending(PreimageColumns(e, previous))
  {
    hide OrNull, TypeName, OriginText, Payload, Norm;
    var cs := PreimageColumns(e, previous);
    assert Less("ayload", "revious_hash");
    assert Less("payload", "previous_hash");
    forall i, j | 0 <= i < j < 7 ensures Less(cs[i].name, cs[j].name) {
      assert cs[i].name[0] < cs[j].name[0] || (cs[i].name == "payload" && cs[j].name == "previous_hash");
    }
  }

  lemma FieldsDistinct(e: Event, previous: Option<string>)
    ensures DistinctNames(PreimageFields(e, previous))
  {
    hide TypeName, OriginName, Payload, OrNull;
  }

  lemma ColumnsPermuted(e: Event, previous: Option<string>)
    ensures var ns, cs := NormFields(PreimageFields(e, previous)), PreimageColumns(e, previous);
      Permuted(ns, cs)
  {
    Leaves();
    OriginTexts(e.origin);
    NormOrNull(previous);
    hide TypeName, OriginName, OriginText, Payload, OrNull, Norm, NormFields;
    var fs, cs := PreimageFields(e, previous), PreimageColumns(e, previous);
    var ns := NormFields(fs);
    assert forall i :: 0 <= i < 7 ==> ns[i] == Field(fs[i].name, Norm(fs[i].value));
    assert ns[0] == cs[2];
    assert ns[1] == cs[6];
    assert ns[2] == cs[1];
    assert ns[3] == cs[4];
    assert ns[4] == cs[0];
    assert ns[5] == cs[5];
    assert ns[6] == cs[3];
  }

  lemma NormOrNull(s: Option<string>)
    ensures Norm(OrNull(s)) == OrNull(s)
  {
  }

  ghost predicate Permuted(ns: seq<Field>, cs: seq<Field>) {
    && |ns| == 7 && |cs| == 7 && ns[0] == cs[2] && ns[1] == cs[6] && ns[2] == cs[1] && ns[3] == cs[4]
    && ns[4] == cs[0] && ns[5] == cs[5] && ns[6] == cs[3]
  }

  lemma PermutedElements(ns: seq<Field>, cs: seq<Field>)
    requires Permuted(ns, cs)
    ensures forall f :: f in ns <==> f in cs
  {
    forall f | f in ns ensures f in cs {
      var i :| 0 <= i < 7 && ns[i] == f;
    }
    forall f | f in cs ensures f in ns {
      var i :| 0 <= i < 7 && cs[i] == f;
    }
  }

  /** The text whose digest an event carries is JSON, and says exactly the event's columns and the digest before it. */
  lemma PreimageReads(e: Event, previous: Option<string>)
    ensures ReadValue(Preimage(e, previous)) == Some((Obj(PreimageColumns(e, previous)), ""))
  {
    var fs, cs := PreimageFields(e, previous), PreimageColumns(e, previous);
    var ns := NormFields(fs);
    FieldsDistinct(e, previous);
    ColumnsPermuted(e, previous);
    PermutedElements(ns, cs);
    ColumnsAscend(e, previous);
    hide PreimageFields, PreimageColumns, NormFields, ReadValue, Write;
    SortKeeps(ns);
    SortAscending(ns);
    ReadBack(Norm(Obj(fs)), "");
    hide Sort, Less;
    AscendingUnique(Sort(ns), cs);
  }
}
