/** Closing a mission and approving agent work: the two operator transitions of `store.py`. */
module Closing {
  import opened Prelude
  import opened Json
  import opened Models
  import opened Chain
  import opened Projection
  import opened Contracts
  import opened Environment
  import opened Rows
  import opened Ledger
  import opened Recovery

  // ---- what one more event changes --------------------------------------------------------

  lemma TerminalStep(es: seq<Event>, e: Event)
    ensures Terminal(es + [e]) <==> Terminal(es) || e.fact.MissionCompleted?
  {
    if Terminal(es) {
      var i :| 0 <= i < |es| && es[i].fact.MissionCompleted?;
      assert (es + [e])[i].fact.MissionCompleted?;
    }
    if e.fact.MissionCompleted? { assert (es + [e])[|es|].fact.MissionCompleted?; }
  }

  lemma PinnedStep(es: seq<Event>, e: Event)
    ensures Pinned(es + [e]) == if e.fact.EnvironmentPinned? then Some(e.fact.values) else Pinned(es)
  {
    assert (es + [e])[..|es|] == es;
  }

  /** A verified log stays verified and numbered when an event is recorded. */
  lemma RecordedKeeps(h: Hash, mid: string, r: MissionRows, f: Fact, o: Origin, now: string)
    requires Report(h, r.events, r.head).ok
    ensures var r' := Recorded(h, mid, r, f, o, now);
      && Report(h, r'.events, r'.head).ok && Numbered(r'.events)
      && r'.events == r.events + [NewEvent(h, mid, r.events, f, o, now)]
      && NewEvent(h, mid, r.events, f, o, now).fact == f && NewEvent(h, mid, r.events, f, o, now).origin == o
  {
    hide Report, NewEvent, LinkedAt;
    VerifiedIsOk(h, r.events, r.head);
    RecordedVerifies(h, mid, r, f, o, now);
    NewEventFact(h, mid, r.events, f, o, now);
    var r' := Recorded(h, mid, r, f, o, now);
    VerifiedIsOk(h, r'.events, r'.head);
    VerifiedNumbers(h, r'.events);
  }

  /** On a verified log no work or evidence reported by an agent makes the verdict less cautious. */
  lemma AgentNeverLowers(h: Hash, mid: string, q: Query, f: Fact, now: string)
    requires Report(h, q.rows.events, q.rows.head).ok
    requires f.WorkCompleted? || f.EvidenceRecorded?
    ensures var q' := q.(rows := Recorded(h, mid, q.rows, f, ExternalAgent, now));
      && Severity(ModeOf(h, q')) >= Severity(ModeOf(h, q))
      && (f.EvidenceRecorded? ==> ModeOf(h, q') == ModeOf(h, q))
      && (f.WorkCompleted? ==> !IsSafe(ModeOf(h, q')))
  {
    hide Report, NewEvent, Unconfirmed, Terminal, Drifted;
    RecordedKeeps(h, mid, q.rows, f, ExternalAgent, now);
    var e := NewEvent(h, mid, q.rows.events, f, ExternalAgent, now);
    TerminalStep(q.rows.events, e);
    PinnedStep(q.rows.events, e);
    UnconfirmedStep(q.rows.events, e);
    if q.contract.Some? { EvaluateStep(q.contract.value, q.rows.events, e); }
  }

  // ---- complete_mission ----------------------------------------------------------------------

  /** The checks of `complete_mission`, and the two numbers they read. */
  ghost function CloseRead(h: Hash, r: MissionRows, contract: Option<seq<Clause>>): Outcome<(int, int)> {
    if !Report(h, r.events, r.head).ok then Raised(ValueError)
    else if Uncertain(r.actions) != [] then Raised(ValueError)
    else if Unconfirmed(r.events) then Raised(ValueError)
    else if !HasStart(r.events) then Raised(ValueError)
    else
      var s := State(r.events);
      if s.total != 0 && |s.completed| < s.total then Raised(ValueError)
      else if contract.Some? && !Evaluate(contract.value, r.events).satisfied then Raised(ValueError)
      else Ok((|s.completed|, s.total))
  }

  function CloseWrite(h: Hash, mid: string, r: MissionRows, completed: int, total: int, now: string): Txn<Event> {
    Append(h, mid, r, MissionCompleted(completed, total), Deterministic, now)
  }

  ghost function CompleteMission(h: Hash, mid: string, r: MissionRows, contract: Option<seq<Clause>>, now: string)
    : (t: Txn<Event>)
    ensures t.outcome.Raised? ==> t.rows == r
  {
    match CloseRead(h, r, contract)
    case Raised(x) => Txn(r, Raised(x))
    case Ok(pair) => CloseWrite(h, mid, r, pair.0, pair.1, now)
  }

  /**
   With nobody else writing, and neither environment nor contract: closing works
   iff `recover` is safe, the target is met and the row can be written; and then
   `recover` answers verified_complete.
   */
  lemma CloseIffSafe(h: Hash, mid: string, r: MissionRows, now: string)
    ensures var t := CompleteMission(h, mid, r, None, now);
      && (t.outcome.Ok? <==>
            && IsSafe(ModeOf(h, Query(r, None, None))) && HasStart(r.events) && TargetMet(State(r.events))
            && CanAppend(mid, r, MissionCompleted(|State(r.events).completed|, State(r.events).total)))
      && (t.outcome.Ok? ==> ModeOf(h, Query(t.rows, None, None)) == VerifiedComplete)
      && (t.outcome.Raised? ==> t.rows == r)
  {
    hide Report, NewEvent, Unconfirmed, Terminal, Fits, IsMissionId, State, HasStart;
    var t := CompleteMission(h, mid, r, None, now);
    if Report(h, r.events, r.head).ok { OkHasStart(h, r.events, r.head); }
    if t.outcome.Ok? {
      var f := MissionCompleted(|State(r.events).completed|, State(r.events).total);
      RecordedKeeps(h, mid, r, f, Deterministic, now);
      var e := NewEvent(h, mid, r.events, f, Deterministic, now);
      TerminalStep(r.events, e);
      UnconfirmedStep(r.events, e);
    }
  }

  /** What `complete_mission` asks of a mission. */
  ghost predicate Closable(h: Hash, mid: string, r: MissionRows, contract: Option<seq<Clause>>) {
    && Verified(h, r.events, r.head)
    && (forall row :: row in r.actions ==> row.status != Started)
    && (forall i :: !Unreviewed(r.events, i))
    && exists s :: Pictures(r.events, s)
         && (s.total == 0 || s.total <= |s.completed|)
         && (contract.Some? ==> Evaluate(contract.value, r.events).satisfied)
         && CanAppend(mid, r, MissionCompleted(|s.completed|, s.total))
  }

  /**
   Closing works iff the chain verifies, nothing is unresolved or unconfirmed, the target is
   met, the contract satisfied and the row can be written; it then records the two numbers
   of the progress and nothing else.
   */
  lemma CloseExact(h: Hash, mid: string, r: MissionRows, contract: Option<seq<Clause>>, now: string)
    ensures var t := CompleteMission(h, mid, r, contract, now);
      && (t.outcome.Ok? <==> Closable(h, mid, r, contract))
      && (t.outcome.Ok? ==>
            exists s :: Pictures(r.events, s)
              && OneMore(mid, r, t.rows, MissionCompleted(|s.completed|, s.total), Deterministic, now)
              && Beside(t.rows) == Beside(r) && t.outcome.value == t.rows.events[|r.events|])
      && (t.outcome.Raised? ==> t.rows == r && t.outcome.error in {ValueError, KeyError})
  {
    UnconfirmedExact(r.events);
    hide Report, Pictures, Evaluate, Fits, IsMissionId, State, Verified, NewEvent, Uncovered, Unreviewed, OneMore;
    VerifiedIsOk(h, r.events, r.head);
    UncertainExact(r.actions);
    var u := Uncertain(r.actions);
    assert u != [] ==> u[0] in u;
    if HasStart(r.events) {
      var s := State(r.events);
      StatePictures(r.events);
      AppendExact(h, mid, r, MissionCompleted(|s.completed|, s.total), Deterministic, now);
    }
    forall s | Pictures(r.events, s) ensures HasStart(r.events) && s == State(r.events) { StateExact(r.events, s); }
  }

  // ---- approval tickets ---------------------------------------------------------------------------

  function ProgressFields(completed: int, total: int): seq<Field> {
    [Field("completed", Num(completed)), Field("total", Num(total))]
  }

  function ApprovalFields(mid: string, completed: int, total: int, count: int, head: int): seq<Field> {
    [Field("mission_id", Str(mid)),
     Field("progress", Obj(ProgressFields(completed, total))),
     Field("event_count", Num(count)), Field("head", Num(head))]
  }

  /** The text `request_approval_digest` hashes. */
  function ApprovalText(h: Hash, mid: string, r: MissionRows): string
    requires HasStart(r.events)
  {
    var s := State(r.events);
    Canonical(Obj(ApprovalFields(mid, |s.completed|, s.total, |r.events|, Report(h, r.events, r.head).trustedThrough)))
  }

  function ApprovalDigest(h: Hash, mid: string, r: MissionRows): string
    requires HasStart(r.events)
  {
    h(ApprovalText(h, mid, r))
  }

  /** What `request_approval` returns, besides the mission id and its constant mode. */
  datatype ApprovalRequest = ApprovalRequest(completed: int, total: int, pendingRisks: int, digest: string,
                                             expiresAt: int, ticket: string)

  /** What `request_approval` reads before its transaction, given the fresh token and the clock. */
  ghost function RequestRead(h: Hash, mid: string, r: MissionRows, ttl: int, ticket: string, clock: int)
    : Outcome<ApprovalRequest>
  {
    if !(1 <= ttl <= 3600) || !HasStart(r.events) then Raised(ValueError)
    else if ModeOf(h, Query(r, None, None)) != RequestReview then Raised(ValueError)
    else
      var s := State(r.events);
      Ok(ApprovalRequest(|s.completed|, s.total, |Uncertain(r.actions)|, ApprovalDigest(h, mid, r), clock + ttl,
                         ticket))
  }

  /** Its transaction. */
  function RequestWrite(h: Hash, r: MissionRows, q: ApprovalRequest): (t: Txn<ApprovalRequest>)
    ensures t.outcome.Raised? ==> t.rows == r
  {
    if h(q.ticket) in r.approvals then Txn(r, Raised(IntegrityError))
    else Txn(r.(approvals := r.approvals[h(q.ticket) := ApprovalRow(q.digest, q.expiresAt, false)]), Ok(q))
  }

  /** `request_approval` with nobody else writing. */
  ghost function RequestApproval(h: Hash, mid: string, r: MissionRows, ttl: int, ticket: string, clock: int)
    : (t: Txn<ApprovalRequest>)
    ensures t.outcome.Raised? ==> t.rows == r
  {
    match RequestRead(h, mid, r, ttl, ticket, clock)
    case Raised(x) => Txn(r, Raised(x))
    case Ok(q) => RequestWrite(h, r, q)
  }

  /** What `approve_with_ticket` checks before its transaction. */
  predicate ApproveRead(h: Hash, mid: string, r: MissionRows, ticket: string, digest: string, clock: int) {
    var k := h(ticket);
    && k in r.approvals && !r.approvals[k].used && clock < r.approvals[k].expiresAt
    && HasStart(r.events) && digest == r.approvals[k].digest && ApprovalDigest(h, mid, r) == digest
  }

  /** Its transaction: the ticket is marked used if it still can be, and the confirmation recorded. */
  function ApproveWrite(h: Hash, mid: string, r: MissionRows, ticket: string, operator: string, now: string)
    : (t: Txn<()>)
    ensures t.outcome.Raised? ==> t.rows == r
  {
    var k := h(ticket);
    if k !in r.approvals || r.approvals[k].used then Txn(r, Raised(ValueError))
    else
      Txn(Recorded(h, mid, r.(approvals := r.approvals[k := r.approvals[k].(used := true)]),
        ReviewConfirmed(operator), Human, now), Ok(()))
  }

  /** `approve_with_ticket` with nobody else writing. */
  function Approve(h: Hash, mid: string, r: MissionRows, ticket: string, digest: string, operator: string, clock: int,
                   now: string)
    : (t: Txn<()>)
    ensures t.outcome.Raised? ==> t.rows == r
  {
    if ApproveRead(h, mid, r, ticket, digest, clock) then ApproveWrite(h, mid, r, ticket, operator, now)
    else Txn(r, Raised(ValueError))
  }

  /**
   An approval can be requested iff the time to live is in range, the chain verifies, no
   effect is unresolved and agent work is unconfirmed. The request shows the mission's own
   progress, no pending risk, and when it expires.
   */
  lemma RequestExact(h: Hash, mid: string, r: MissionRows, ttl: int, ticket: string, clock: int)
    ensures var q := RequestRead(h, mid, r, ttl, ticket, clock);
      && (q.Ok? <==>
            && 1 <= ttl <= 3600 && Verified(h, r.events, r.head)
            && (forall row :: row in r.actions ==> row.status != Started) && exists i :: Unreviewed(r.events, i))
      && (q.Raised? ==> q.error == ValueError)
      && (q.Ok? ==>
            && HasStart(r.events) && q.value.digest == h(ApprovalText(h, mid, r))
            && q.value.pendingRisks == 0 && q.value.expiresAt == clock + ttl && q.value.ticket == ticket
            && exists s :: Pictures(r.events, s) && q.value.completed == |s.completed| && q.value.total == s.total)
  {
    UnconfirmedExact(r.events);
    hide Report, Pictures, State, Verified, Uncovered, Unreviewed, EnvironmentDrifted, ContractUnmet, Terminal,
      ApprovalText;
    VerifiedIsOk(h, r.events, r.head);
    UncertainExact(r.actions);
    var u := Uncertain(r.actions);
    assert u != [] ==> u[0] in u;
    if Report(h, r.events, r.head).ok { OkHasStart(h, r.events, r.head); }
    if HasStart(r.events) { StatePictures(r.events); }
  }

  /** What is stored is the request's digest and expiry, unused, under the hash of its ticket. */
  lemma RequestWriteExact(h: Hash, r: MissionRows, q: ApprovalRequest)
    ensures var t := RequestWrite(h, r, q);
      && (t.outcome.Ok? <==> h(q.ticket) !in r.approvals)
      && (t.outcome.Raised? ==> t.outcome.error == IntegrityError && t.rows == r)
      && (t.outcome.Ok? ==>
            && t.outcome.value == q && t.rows.(approvals := r.approvals) == r
            && t.rows.approvals.Keys == r.approvals.Keys + {h(q.ticket)}
            && t.rows.approvals[h(q.ticket)] == ApprovalRow(q.digest, q.expiresAt, false)
            && forall k :: k in r.approvals ==> t.rows.approvals[k] == r.approvals[k])
  {
  }

  /** Both together: a request is granted iff it may be made and its ticket's hash is new. */
  lemma RequestApprovalExact(h: Hash, mid: string, r: MissionRows, ttl: int, ticket: string, clock: int)
    ensures var t := RequestApproval(h, mid, r, ttl, ticket, clock);
      var asked := 1 <= ttl <= 3600 && Verified(h, r.events, r.head)
        && (forall row :: row in r.actions ==> row.status != Started) && exists i :: Unreviewed(r.events, i);
      && (t.outcome.Ok? <==> asked && h(ticket) !in r.approvals)
      && (t.outcome == Raised(IntegrityError) <==> asked && h(ticket) in r.approvals)
      && (t.outcome == Raised(ValueError) <==> !asked)
      && (t.outcome.Raised? ==> t.rows == r)
      && (t.outcome.Ok? ==>
            && HasStart(r.events) && t.outcome.value.digest == h(ApprovalText(h, mid, r))
            && t.rows.(approvals := r.approvals) == r
            && t.rows.approvals
               == r.approvals[h(ticket) := ApprovalRow(h(ApprovalText(h, mid, r)), clock + ttl, false)])
  {
    RequestExact(h, mid, r, ttl, ticket, clock);
    hide RequestRead, Verified, Unreviewed, ApprovalText;
  }

  /**
   A ticket is redeemed iff it is stored, unused and not expired, the digest given is its
   own, and the mission's is still the same; it is then used, and the confirmation recorded.
   */
  lemma ApproveExact(h: Hash, mid: string, r: MissionRows, ticket: string, digest: string, operator: string,
                     clock: int, now: string)
    ensures var t := Approve(h, mid, r, ticket, digest, operator, clock, now);
      var k := h(ticket);
      && (t.outcome.Ok? <==>
            && k in r.approvals && !r.approvals[k].used && clock < r.approvals[k].expiresAt
            && digest == r.approvals[k].digest && HasStart(r.events) && digest == h(ApprovalText(h, mid, r)))
      && (t.outcome.Raised? ==> t.outcome.error == ValueError && t.rows == r)
      && (t.outcome.Ok? ==>
            && OneMore(mid, r, t.rows, ReviewConfirmed(operator), Human, now)
            && Beside(t.rows).(approvals := r.approvals) == Beside(r)
            && t.rows.approvals.Keys == r.approvals.Keys
            && forall x :: x in r.approvals ==>
                 t.rows.approvals[x] == r.approvals[x].(used := x == k || r.approvals[x].used))
  {
    hide ApprovalText, Recorded, OneMore;
    var k := h(ticket);
    if k in r.approvals {
      RecordedAdds(h, mid, r.(approvals := r.approvals[k := r.approvals[k].(used := true)]),
                   ReviewConfirmed(operator), Human, now);
    }
    OneMoreIgnoresApprovals(mid, r, Approve(h, mid, r, ticket, digest, operator, clock, now).rows,
                            ReviewConfirmed(operator), now);
  }

  lemma OneMoreIgnoresApprovals(mid: string, r: MissionRows, r': MissionRows, f: Fact, now: string)
    ensures forall a :: OneMore(mid, r.(approvals := a), r', f, Human, now) <==> OneMore(mid, r, r', f, Human, now)
  {
  }

  lemma ProgressFixes(completed: int, total: int, completed': int, total': int)
    requires Norm(Obj(ProgressFields(completed, total))) == Norm(Obj(ProgressFields(completed', total')))
    ensures completed == completed' && total == total'
  {
    hide Sort;
    var p, p' := NormFields(ProgressFields(completed, total)), NormFields(ProgressFields(completed', total'));
    SortCancels(p, p');
    assert p[0].value == p'[0].value && p[1].value == p'[1].value;
  }

  /** One approval text means one mission, progress, event count and verified length. */
  lemma ApprovalTextFixes(h: Hash, mid: string, r: MissionRows, mid': string, r': MissionRows)
    requires HasStart(r.events) && HasStart(r'.events) && ApprovalText(h, mid, r) == ApprovalText(h, mid', r')
    ensures mid == mid' && |r.events| == |r'.events|
    ensures |State(r.events).completed| == |State(r'.events).completed|
      && State(r.events).total == State(r'.events).total
    ensures Report(h, r.events, r.head).trustedThrough == Report(h, r'.events, r'.head).trustedThrough
  {
    hide Report, Canonical, State;
    var s, s' := State(r.events), State(r'.events);
    var fs := ApprovalFields(mid, |s.completed|, s.total, |r.events|, Report(h, r.events, r.head).trustedThrough);
    var gs := ApprovalFields(mid', |s'.completed|, s'.total, |r'.events|, Report(h, r'.events, r'.head).trustedThrough);
    assert SameNames(fs, gs);
    FieldsAgree(fs, gs);
    assert Norm(fs[0].value) == Norm(gs[0].value) && Norm(fs[2].value) == Norm(gs[2].value)
      && Norm(fs[3].value) == Norm(gs[3].value);
    assert Norm(fs[1].value) == Norm(gs[1].value);
    ProgressFixes(|s.completed|, s.total, |s'.completed|, s'.total);
  }
}
