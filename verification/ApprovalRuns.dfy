/** An approval vouches for one exact log, and redeems its ticket once. */
module ApprovalRuns {
  import opened Prelude
  import opened Json
  import opened Models
  import opened Chain
  import opened Projection
  import opened Rows
  import opened Ledger
  import opened Recovery
  import opened Closing
  import opened Runs

  ghost predicate RowStays(a: map<string, ApprovalRow>, b: map<string, ApprovalRow>, k: string) {
    k in a ==> k in b && b[k].digest == a[k].digest && b[k].expiresAt == a[k].expiresAt && (a[k].used ==> b[k].used)
  }

  lemma ApplyRowStays(h: Hash, mid: string, s: Sys, op: Op, k: string)
    ensures RowStays(s.rows.approvals, Apply(h, mid, s, op).rows.approvals, k)
  {
    hide NewEvent, Report, ModeOf, ApprovalDigest, Fits, IsMissionId, CheckpointRead, CloseRead, HasStart, Claimed,
      Settled, MayClaim, ActionKey;
    if op.ClaimAction? || op.CompleteAction? || op.ReconcileAction? {
      hide RequestApproval, Approve;
    } else {
      hide Claim, Complete, Reconcile;
    }
  }

  lemma {:induction false} ExecRowStays(h: Hash, mid: string, s: Sys, ops: seq<Op>, k: string)
    ensures RowStays(s.rows.approvals, Exec(h, mid, s, ops).rows.approvals, k)
    decreases ops
  {
    hide Apply;
    if ops != [] {
      ApplyRowStays(h, mid, s, ops[0], k);
      ExecRowStays(h, mid, Apply(h, mid, s, ops[0]), ops[1..], k);
    }
  }

  ghost predicate ApprovalsCollide(h: Hash, mid: string, a: MissionRows, b: MissionRows) {
    && HasStart(a.events) && HasStart(b.events)
    && ApprovalText(h, mid, a) != ApprovalText(h, mid, b) && h(ApprovalText(h, mid, a)) == h(ApprovalText(h, mid, b))
  }

  /** What a granted request leaves behind, and that it read an unconfirmed log. */
  lemma RequestGranted(h: Hash, mid: string, s: Sys, ttl: int, ticket: string, clock: int)
    requires RequestApproval(h, mid, s.rows, ttl, ticket, clock).outcome.Ok?
    ensures var s1 := Apply(h, mid, s, Request(ttl, ticket, clock));
      && s1.rows.events == s.rows.events && s1.rows.mission == s.rows.mission && s1.rows.head == s.rows.head
      && HasStart(s.rows.events) && h(ticket) in s1.rows.approvals
      && s1.rows.approvals[h(ticket)] == ApprovalRow(ApprovalDigest(h, mid, s.rows), clock + ttl, false)
      && Unconfirmed(s.rows.events)
  {
    hide Report, ApprovalDigest, Unconfirmed;
  }

  /** Same text, same length; same length along one run, same log. */
  lemma SameDigestSameLog(h: Hash, mid: string, a: MissionRows, b: MissionRows)
    requires HasStart(a.events) && HasStart(b.events) && a.events <= b.events
    requires ApprovalDigest(h, mid, a) == ApprovalDigest(h, mid, b)
    ensures a.events == b.events || ApprovalsCollide(h, mid, a, b)
  {
    hide ApprovalText;
    if ApprovalText(h, mid, a) == ApprovalText(h, mid, b) { ApprovalTextFixes(h, mid, a, mid, b); }
  }

  /**
   A ticket requested in state `s` and redeemed after any further steps: the log at
   redemption is the log at request, or two different approval texts share a
   digest; the redemption adds the one event that confirms it, in time, and
   leaves no agent work unconfirmed.
   */
  lemma ApprovalVouches(h: Hash, mid: string, s: Sys, ttl: int, ticket: string, clock: int, ops: seq<Op>,
                        digest: string, operator: string, later: int, now: string)
    requires Live(h, mid, s)
    requires RequestApproval(h, mid, s.rows, ttl, ticket, clock).outcome.Ok?
    requires var s2 := Exec(h, mid, Apply(h, mid, s, Request(ttl, ticket, clock)), ops);
      Approve(h, mid, s2.rows, ticket, digest, operator, later, now).outcome.Ok?
    ensures var s2 := Exec(h, mid, Apply(h, mid, s, Request(ttl, ticket, clock)), ops);
      var s3 := Apply(h, mid, s2, ApproveTicket(ticket, digest, operator, later, now));
      && (s2.rows.events == s.rows.events || ApprovalsCollide(h, mid, s.rows, s2.rows))
      && later < clock + ttl
      && |s3.rows.events| == |s2.rows.events| + 1 && s2.rows.events <= s3.rows.events
      && s3.rows.events[|s2.rows.events|].fact == ReviewConfirmed(operator)
      && !Unconfirmed(s3.rows.events)
  {
    var s1 := Apply(h, mid, s, Request(ttl, ticket, clock));
    RequestGranted(h, mid, s, ttl, ticket, clock);
    ApplyLive(h, mid, s, Request(ttl, ticket, clock));
    ExecLive(h, mid, s1, ops);
    ExecRowStays(h, mid, s1, ops, h(ticket));
    var s2 := Exec(h, mid, s1, ops);
    Redeemed(h, mid, s2, ticket, digest, operator, later, now);
    hide Apply, ApprovalDigest, Unconfirmed, ApprovalsCollide, Approve;
    SameDigestSameLog(h, mid, s.rows, s2.rows);
  }

  lemma SameLogSameText(h: Hash, mid: string, a: MissionRows, b: MissionRows)
    requires HasStart(a.events) && a.events == b.events
    ensures ApprovalText(h, mid, a) == ApprovalText(h, mid, b)
  {
    hide Canonical, State, Trusted;
  }

  /**
   The other direction: with the digest its request returned, a ticket is redeemed after any
   further steps iff it is unused and in time and the log is still the requested one, unless
   two texts collide.
   */
  lemma ApprovalGrantedIff(h: Hash, mid: string, s: Sys, ttl: int, ticket: string, clock: int, ops: seq<Op>,
                           operator: string, later: int, now: string)
    requires Live(h, mid, s)
    requires RequestApproval(h, mid, s.rows, ttl, ticket, clock).outcome.Ok?
    ensures var asked := RequestApproval(h, mid, s.rows, ttl, ticket, clock).outcome.value;
      var s2 := Exec(h, mid, Apply(h, mid, s, Request(ttl, ticket, clock)), ops);
      && h(ticket) in s2.rows.approvals
      && (Approve(h, mid, s2.rows, ticket, asked.digest, operator, later, now).outcome.Ok? <==>
            && !s2.rows.approvals[h(ticket)].used && later < clock + ttl
            && (s2.rows.events == s.rows.events || ApprovalsCollide(h, mid, s.rows, s2.rows)))
  {
    var s1 := Apply(h, mid, s, Request(ttl, ticket, clock));
    RequestGranted(h, mid, s, ttl, ticket, clock);
    RequestExact(h, mid, s.rows, ttl, ticket, clock);
    ApplyLive(h, mid, s, Request(ttl, ticket, clock));
    ExecLive(h, mid, s1, ops);
    ExecRowStays(h, mid, s1, ops, h(ticket));
    var s2 := Exec(h, mid, s1, ops);
    hide Apply, ApprovalText, Unconfirmed, RequestRead, RequestWrite, Live;
    ApproveExact(h, mid, s2.rows, ticket, ApprovalDigest(h, mid, s.rows), operator, later, now);
    if HasStart(s2.rows.events) && s.rows.events == s2.rows.events { SameLogSameText(h, mid, s.rows, s2.rows); }
    if HasStart(s2.rows.events) && ApprovalDigest(h, mid, s.rows) == ApprovalDigest(h, mid, s2.rows) {
      SameDigestSameLog(h, mid, s.rows, s2.rows);
    }
  }

  /** A redemption in a live state. */
  lemma Redeemed(h: Hash, mid: string, s: Sys, ticket: string, digest: string, operator: string, clock: int,
                 now: string)
    requires Live(h, mid, s) && Approve(h, mid, s.rows, ticket, digest, operator, clock, now).outcome.Ok?
    ensures var op := ApproveTicket(ticket, digest, operator, clock, now);
      var s' := Apply(h, mid, s, op);
      && h(ticket) in s.rows.approvals && !s.rows.approvals[h(ticket)].used
        && clock < s.rows.approvals[h(ticket)].expiresAt
      && HasStart(s.rows.events) && s.rows.approvals[h(ticket)].digest == ApprovalDigest(h, mid, s.rows)
      && Live(h, mid, s')
      && h(ticket) in s'.rows.approvals && s'.rows.approvals[h(ticket)].used
      && |s'.rows.events| == |s.rows.events| + 1 && s.rows.events <= s'.rows.events
      && s'.rows.events[|s.rows.events|].fact == ReviewConfirmed(operator)
      && !Unconfirmed(s'.rows.events)
  {
    var op := ApproveTicket(ticket, digest, operator, clock, now);
    hide ApprovalDigest, Unconfirmed, Report, NewEvent;
    assert EventOf(h, mid, s, op) == Some(Draft(ReviewConfirmed(operator), Human, now));
    ApplyGrows(h, mid, s, op);
    var s' := Apply(h, mid, s, op);
    UnconfirmedStep(s.rows.events, s'.rows.events[|s.rows.events|]);
  }

  /** A redeemed ticket is refused for ever after. */
  lemma TicketRedeemsOnce(h: Hash, mid: string, s: Sys, ticket: string, digest: string, operator: string, clock: int,
                          now: string,
                          ops: seq<Op>, digest': string, operator': string, clock': int, now': string)
    requires Live(h, mid, s) && Approve(h, mid, s.rows, ticket, digest, operator, clock, now).outcome.Ok?
    ensures var s2 := Exec(h, mid, Apply(h, mid, s, ApproveTicket(ticket, digest, operator, clock, now)), ops);
      Approve(h, mid, s2.rows, ticket, digest', operator', clock', now') == Txn(s2.rows, Raised(ValueError))
  {
    Redeemed(h, mid, s, ticket, digest, operator, clock, now);
    var s1 := Apply(h, mid, s, ApproveTicket(ticket, digest, operator, clock, now));
    ExecRowStays(h, mid, s1, ops, h(ticket));
    hide Apply;
  }

  /** The run in which a second ticket is minted, then one of the two is redeemed, then the other may be. */
  ghost function MintedTwice(h: Hash, mid: string, s: Sys, req: Op, between: seq<Op>, req': Op, ops: seq<Op>, app: Op,
                             ops': seq<Op>)
    : (Sys, Sys, Sys)
  {
    var s1 := Exec(h, mid, Apply(h, mid, s, req), between);
    var s2 := Exec(h, mid, Apply(h, mid, s1, req'), ops);
    (s1, s2, Exec(h, mid, Apply(h, mid, s2, app), ops'))
  }

  /** The whole run as one list of steps after the first request, and after the second. */
  lemma MintedTwiceIsARun(h: Hash, mid: string, s: Sys, req: Op, between: seq<Op>, req': Op, ops: seq<Op>, app: Op,
                          ops': seq<Op>)
    ensures var m := MintedTwice(h, mid, s, req, between, req', ops, app, ops');
      && m.2 == Exec(h, mid, Apply(h, mid, m.0, req'), ops + ([app] + ops'))
      && m.2 == Exec(h, mid, Apply(h, mid, s, req), between + ([req'] + (ops + ([app] + ops'))))
  {
    hide Apply;
    var m := MintedTwice(h, mid, s, req, between, req', ops, app, ops');
    var t1 := Apply(h, mid, m.0, req');
    ExecCons(h, mid, m.1, app, ops');
    ExecAppend(h, mid, t1, ops, [app] + ops');
    ExecCons(h, mid, m.0, req', ops + ([app] + ops'));
    ExecAppend(h, mid, Apply(h, mid, s, req), between, [req'] + (ops + ([app] + ops')));
  }

  lemma ExecCons(h: Hash, mid: string, s: Sys, op: Op, ops: seq<Op>)
    ensures Exec(h, mid, s, [op] + ops) == Exec(h, mid, Apply(h, mid, s, op), ops)
  {
    hide Apply;
    assert ([op] + ops)[0] == op && ([op] + ops)[1..] == ops;
  }

  /**
   Two tickets minted in one log state, whatever happened in between that left the
   log alone, and redeemed in either order: once one is redeemed, a redemption of
   the other shows that the text approved at its request and the text of the log at
   its redemption, which is longer, collide.
   */
  lemma OneTicketPerLogState(h: Hash, mid: string, s: Sys, ttl: int, ticket: string, clock: int, between: seq<Op>,
                             ttl': int, ticket': string, clock': int, laterFirst: bool, ops: seq<Op>,
                             digest: string, operator: string, at: int, now: string, ops': seq<Op>,
                             digest': string, operator': string, at': int, now': string)
    requires Live(h, mid, s)
    requires RequestApproval(h, mid, s.rows, ttl, ticket, clock).outcome.Ok?
    requires var x := if laterFirst then ticket' else ticket;
      var y := if laterFirst then ticket else ticket';
      var m := MintedTwice(h, mid, s, Request(ttl, ticket, clock), between, Request(ttl', ticket', clock'), ops,
                           ApproveTicket(x, digest, operator, at, now), ops');
      && m.0.rows.events == s.rows.events && RequestApproval(h, mid, m.0.rows, ttl', ticket', clock').outcome.Ok?
      && Approve(h, mid, m.1.rows, x, digest, operator, at, now).outcome.Ok?
      && Approve(h, mid, m.2.rows, y, digest', operator', at', now').outcome.Ok?
    ensures var x := if laterFirst then ticket' else ticket;
      var m := MintedTwice(h, mid, s, Request(ttl, ticket, clock), between, Request(ttl', ticket', clock'), ops,
                           ApproveTicket(x, digest, operator, at, now), ops');
      && s.rows.events < m.2.rows.events
      && ApprovalsCollide(h, mid, if laterFirst then s.rows else m.0.rows, m.2.rows)
  {
    hide Apply, ApprovalsCollide, RequestApproval, Approve, Live;
    var x := if laterFirst then ticket' else ticket;
    var req, req', app := Request(ttl, ticket, clock), Request(ttl', ticket', clock'),
      ApproveTicket(x, digest, operator, at, now);
    var m := MintedTwice(h, mid, s, req, between, req', ops, app, ops');
    MintedTwiceIsARun(h, mid, s, req, between, req', ops, app, ops');
    ApplyLive(h, mid, s, req);
    ExecLive(h, mid, Apply(h, mid, s, req), between);
    ApplyLive(h, mid, m.0, req');
    ExecLive(h, mid, Apply(h, mid, m.0, req'), ops);
    Redeemed(h, mid, m.1, x, digest, operator, at, now);
    ExecLive(h, mid, Apply(h, mid, m.1, app), ops');
    if laterFirst {
      ApprovalVouches(h, mid, s, ttl, ticket, clock, between + ([req'] + (ops + ([app] + ops'))), digest', operator',
        at', now');
      assert ApprovalsCollide(h, mid, s.rows, m.2.rows);
    } else {
      ApprovalVouches(h, mid, m.0, ttl', ticket', clock', ops + ([app] + ops'), digest', operator', at', now');
      assert ApprovalsCollide(h, mid, m.0.rows, m.2.rows);
    }
  }

  // ---- between the checks and the redemption ---------------------------------------------------

  /**
   Others may act between the checks of `approve_with_ticket` and its transaction. The
   transaction then succeeds iff nobody redeemed the ticket in the gap. It records its
   confirmation after whatever the gap recorded, and leaves no agent work unconfirmed:
   not that of the approved log, and not that of the gap.
   */
  lemma RedeemedAcrossGap(h: Hash, mid: string, s: Sys, ticket: string, digest: string, operator: string, clock: int,
                          gap: seq<Op>, now: string)
    requires Live(h, mid, s) && ApproveRead(h, mid, s.rows, ticket, digest, clock)
    ensures var s' := Exec(h, mid, s, gap);
      var w := ApproveWrite(h, mid, s'.rows, ticket, operator, now);
      var es, es' := s.rows.events, s'.rows.events;
      && h(ticket) in s'.rows.approvals && s'.rows.approvals[h(ticket)].digest == digest
      && (w.outcome.Ok? <==> !s'.rows.approvals[h(ticket)].used)
      && es <= es'
      && (w.outcome.Ok? ==>
            && |w.rows.events| == |es'| + 1 && es' <= w.rows.events
            && w.rows.events[|es'|].fact == ReviewConfirmed(operator) && !Unconfirmed(w.rows.events))
  {
    hide Apply, ApprovalDigest, Report, Unconfirmed, Live, NewEvent;
    var s' := Exec(h, mid, s, gap);
    ExecLive(h, mid, s, gap);
    ExecRowStays(h, mid, s, gap, h(ticket));
    var w := ApproveWrite(h, mid, s'.rows, ticket, operator, now);
    LiveVerifies(h, mid, s);
    LiveVerifies(h, mid, s');
    if w.outcome.Ok? { ConfirmedLog(h, mid, s'.rows, ticket, operator, now); }
  }

  lemma ConfirmedLog(h: Hash, mid: string, r: MissionRows, ticket: string, operator: string, now: string)
    requires ApproveWrite(h, mid, r, ticket, operator, now).outcome.Ok? && Report(h, r.events, r.head).ok
    ensures var w := ApproveWrite(h, mid, r, ticket, operator, now);
      && |w.rows.events| == |r.events| + 1 && r.events <= w.rows.events
      && w.rows.events[|r.events|].fact == ReviewConfirmed(operator) && !Unconfirmed(w.rows.events)
  {
    hide Report, Unconfirmed, NewEvent;
    var k := h(ticket);
    var marked := r.(approvals := r.approvals[k := r.approvals[k].(used := true)]);
    RecordedKeeps(h, mid, marked, ReviewConfirmed(operator), Human, now);
    UnconfirmedStep(r.events, NewEvent(h, mid, r.events, ReviewConfirmed(operator), Human, now));
  }

  /**
   Two tickets whose checks both passed on one log are both redeemed, one transaction
   after the other: one redemption per log state needs the checks of the second to
   come after the first's transaction, as in `OneTicketPerLogState`.
   */
  lemma BothRedeemedAfterChecks(h: Hash, mid: string, r: MissionRows, ticket: string, ticket': string, digest: string,
                                digest': string, operator: string, operator': string, clock: int, now: string)
    requires h(ticket) != h(ticket')
    requires ApproveRead(h, mid, r, ticket, digest, clock) && ApproveRead(h, mid, r, ticket', digest', clock)
    ensures var w := ApproveWrite(h, mid, r, ticket, operator, now);
      && w.outcome.Ok? && ApproveWrite(h, mid, w.rows, ticket', operator', now).outcome.Ok?
      && (ApproveRead(h, mid, w.rows, ticket', digest', clock) ==>
            ApprovalsCollide(h, mid, r, w.rows))
  {
    hide ApprovalText, NewEvent, HasStart;
    var w := ApproveWrite(h, mid, r, ticket, operator, now);
    if ApproveRead(h, mid, w.rows, ticket', digest', clock) {
      assert |w.rows.events| == |r.events| + 1;
      if ApprovalText(h, mid, r) == ApprovalText(h, mid, w.rows) { ApprovalTextFixes(h, mid, r, mid, w.rows); }
    }
  }
}
