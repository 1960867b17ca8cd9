/**
 `EverRunStore`: the tables as fields, updated in place. Every method is proved
 to move exactly one mission's rows, and to move them as the transaction
 functions say; what those functions guarantee is proved about them elsewhere.
 */
module Store {
  import opened Prelude
  import opened Json
  import opened Models
  import opened Chain
  import opened Projection
  import opened Contracts
  import opened Rows
  import opened Ledger
  import opened Recovery
  import opened Closing

  /** `h` stands for SHA-256 of a text. Clock readings and fresh tokens are arguments. */
  class EverRunStore {
    const h: Hash
    var missions: map<string, Mission>
    var events: map<string, seq<Event>>
    var chainHeads: map<string, Head>
    var checkpoints: map<string, seq<CheckpointRow>>
    var actions: map<string, seq<ActionRow>>
    var confirmTickets: map<string, map<string, bool>>
    var approvalRequests: map<string, map<string, ApprovalRow>>

    constructor (h: Hash)
      ensures this.h == h && forall m :: View(m) == NO_ROWS
    {
      this.h := h;
      missions, events, chainHeads, checkpoints := map[], map[], map[], map[];
      actions, confirmTickets, approvalRequests := map[], map[], map[];
    }

    // ---- reading ----------------------------------------------------------------------

    function Log(mid: string): seq<Event> reads this {
      if mid in events then events[mid] else []
    }

    function ActionTable(mid: string): seq<ActionRow> reads this {
      if mid in actions then actions[mid] else []
    }

    function Checkpoints(mid: string): seq<CheckpointRow> reads this {
      if mid in checkpoints then checkpoints[mid] else []
    }

    function Tickets(mid: string): map<string, bool> reads this {
      if mid in confirmTickets then confirmTickets[mid] else map[]
    }

    function Approvals(mid: string): map<string, ApprovalRow> reads this {
      if mid in approvalRequests then approvalRequests[mid] else map[]
    }

    function Mission(mid: string): Option<Mission> reads this {
      if mid in missions then Some(missions[mid]) else None
    }

    function Head(mid: string): Option<Head> reads this {
      if mid in chainHeads then Some(chainHeads[mid]) else None
    }

    /** The rows that carry the mission's id. */
    function View(mid: string): MissionRows reads this {
      MissionRows(Mission(mid), Log(mid), Head(mid), ActionTable(mid), Checkpoints(mid), Tickets(mid), Approvals(mid))
    }

    /** No row of any other mission moved. */
    twostate predicate Only(mid: string) reads this {
      forall m :: m != mid ==> View(m) == old(View(m))
    }

    method Verify(mid: string) returns (r: ChainReport)
      ensures r == Report(h, View(mid).events, View(mid).head)
    {
      r := VerifyChain(h, Log(mid), Head(mid));
    }

    // ---- writing ----------------------------------------------------------------------

    /** `_insert_event`. */
    method InsertEvent(mid: string, f: Fact, o: Origin, now: string) returns (e: Event)
      modifies this
      ensures View(mid) == Recorded(h, mid, old(View(mid)), f, o, now) && Only(mid)
      ensures e == NewEvent(h, mid, old(Log(mid)), f, o, now)
    {
      hide EventDigest;
      var log := Log(mid);
      var sequence, previous: Option<string> := 1, None;
      if log != [] {
        sequence, previous := log[|log| - 1].sequence + 1, Some(log[|log| - 1].digest);
      }
      var draft := Event(mid, sequence, f, now, previous, "", o);
      e := draft.(digest := EventDigest(h, draft, previous));
      events := events[mid := log + [e]];
      chainHeads := chainHeads[mid := Chain.Head(sequence, e.digest)];
    }

    method CreateMission(mid: string, goal: string, total: int, now: string) returns (r: Outcome<()>)
      modifies this
      ensures var t := Rows.CreateMission(h, mid, old(View(mid)), goal, total, now);
        View(mid) == t.rows && r == t.outcome
      ensures Only(mid)
    {
      hide IsMissionId, IsBlank, NewEvent;
      if !IsMissionId(mid) || IsBlank(goal) || |goal| > MAX_GOAL_CHARS || total < 0 || total > MAX_TOTAL {
        return Raised(ValueError);
      }
      if mid in missions {
        return Raised(IntegrityError);
      }
      missions := missions[mid := Models.Mission(mid, goal, total)];
      var _ := InsertEvent(mid, MissionStarted(goal, total), Deterministic, now);
      return Ok(());
    }

    method Append(mid: string, f: Fact, o: Origin, now: string) returns (r: Outcome<Event>)
      modifies this
      ensures var t := Rows.Append(h, mid, old(View(mid)), f, o, now); View(mid) == t.rows && r == t.outcome
      ensures Only(mid)
    {
      hide IsMissionId, Fits, NewEvent;
      if !IsMissionId(mid) || !Fits(f) {
        return Raised(ValueError);
      }
      if !f.MissionStarted? && mid !in missions {
        return Raised(KeyError);
      }
      var e := InsertEvent(mid, f, o, now);
      return Ok(e);
    }

    /** The anchor backfill of `_schema`, over every mission that has events. */
    method Open()
      modifies this`chainHeads
      ensures forall m :: View(m) == Reopened(old(View(m)))
    {
      var todo := events.Keys;
      while todo != {}
        invariant todo <= events.Keys
        invariant forall m :: Head(m) == if m in todo then old(Head(m)) else Reopened(old(View(m))).head
        decreases todo
      {
        var mid :| mid in todo;
        var log := events[mid];
        if log != [] && mid !in chainHeads {
          chainHeads := chainHeads[mid := Chain.Head(|log|, log[|log| - 1].digest)];
        }
        todo := todo - {mid};
      }
    }

    /** The transaction of `checkpoint`: its row and its event. */
    method WriteCheckpoint(mid: string, sequence: int, payload: string, reason: string, now: string)
      returns (r: Outcome<CheckpointRow>)
      modifies this
      ensures var t := CheckpointWrite(h, mid, old(View(mid)), sequence, payload, reason, now);
        View(mid) == t.rows && r == t.outcome
      ensures Only(mid)
    {
      hide NewEvent;
      var rows := Checkpoints(mid);
      if exists i :: 0 <= i < |rows| && rows[i].sequence == sequence {
        return Raised(IntegrityError);
      }
      var c := CheckpointRow(sequence, payload, h(payload), reason);
      checkpoints := checkpoints[mid := rows + [c]];
      assert Only(mid);
      var _ := InsertEvent(mid, CheckpointCreated(sequence, c.digest, reason), Deterministic, now);
      return Ok(c);
    }

    /** `create_checkpoint`: the state is read first and written in a transaction after. */
    method CreateCheckpoint(mid: string, reason: string, now: string) returns (r: Outcome<CheckpointRow>)
      modifies this
      ensures match CheckpointRead(old(Log(mid)))
              case Raised(x) => r == Raised(x) && View(mid) == old(View(mid))
              case Ok(pair) =>
                var t := CheckpointWrite(h, mid, old(View(mid)), pair.0, pair.1, reason, now);
                View(mid) == t.rows && r == t.outcome
      ensures Only(mid)
    {
      hide Canonical, StateJson, CheckpointWrite, State;
      var log := Log(mid);
      var projected := Project(log);
      if projected.Raised? {
        return Raised(projected.error);
      }
      r := WriteCheckpoint(mid, log[|log| - 1].sequence, Canonical(StateJson(projected.value)), reason, now);
    }

    method IssueConfirmTicket(mid: string, token: string) returns (r: Outcome<string>)
      modifies this
      ensures var t := IssueTicket(h, mid, old(View(mid)), token); View(mid) == t.rows && r == t.outcome
      ensures Only(mid)
    {
      hide IsMissionId;
      if !IsMissionId(mid) {
        return Raised(ValueError);
      }
      if mid !in missions {
        return Raised(KeyError);
      }
      if h(token) in Tickets(mid) {
        return Raised(IntegrityError);
      }
      confirmTickets := confirmTickets[mid := Tickets(mid)[h(token) := false]];
      return Ok(token);
    }

    method ConsumeConfirmTicket(mid: string, ticket: string) returns (redeemed: bool)
      modifies this
      ensures var t := ConsumeTicket(h, old(View(mid)), ticket); View(mid) == t.rows && Ok(redeemed) == t.outcome
      ensures Only(mid)
    {
      var rows := Tickets(mid);
      redeemed := h(ticket) in rows && !rows[h(ticket)];
      if redeemed {
        confirmTickets := confirmTickets[mid := rows[h(ticket) := true]];
      }
    }

    /** `request_approval_digest`. */
    method ApprovalDigestOf(mid: string) returns (digest: string)
      requires HasStart(Log(mid))
      ensures digest == ApprovalDigest(h, mid, View(mid))
    {
      hide Canonical, Report;
      var projected := Project(Log(mid));
      var s := projected.value;
      var chain := Verify(mid);
      digest := h(Canonical(Obj(ApprovalFields(mid, |s.completed|, s.total, |Log(mid)|, chain.trustedThrough))));
    }

    /** The transaction of `request_approval`. */
    method StoreRequest(mid: string, q: ApprovalRequest) returns (r: Outcome<ApprovalRequest>)
      modifies this
      ensures var t := RequestWrite(h, old(View(mid)), q); View(mid) == t.rows && r == t.outcome
      ensures Only(mid)
    {
      var rows := Approvals(mid);
      if h(q.ticket) in rows {
        return Raised(IntegrityError);
      }
      approvalRequests := approvalRequests[mid := rows[h(q.ticket) := ApprovalRow(q.digest, q.expiresAt, false)]];
      return Ok(q);
    }

    /** `request_approval`: it reads first and writes in a transaction after. */
    method RequestApproval(mid: string, ttl: int, token: string, clock: int, now: string)
      returns (r: Outcome<ApprovalRequest>)
      modifies this
      ensures var t := Closing.RequestApproval(h, mid, old(View(mid)), ttl, token, clock);
        View(mid) == t.rows && r == t.outcome
      ensures Only(mid)
    {
      hide ApprovalDigest, ModeOf, ActionOf, Signals, Sealed, Worst, Explained, RequestWrite, State;
      if ttl < 1 || ttl > 3600 {
        return Raised(ValueError);
      }
      var projected := Project(Log(mid));
      if projected.Raised? {
        return Raised(ValueError);
      }
      var decision, _ := Recover(h, Query(View(mid), None, None), now);
      if decision.mode != RequestReview {
        return Raised(ValueError);
      }
      var s := projected.value;
      var digest := ApprovalDigestOf(mid);
      var risks := |Uncertain(ActionTable(mid))|;
      r := StoreRequest(mid, ApprovalRequest(|s.completed|, s.total, risks, digest, clock + ttl, token));
    }

    /** The transaction of `approve_with_ticket`. */
    method RedeemApproval(mid: string, ticket: string, operator: string, now: string) returns (r: Outcome<()>)
      modifies this
      ensures var t := ApproveWrite(h, mid, old(View(mid)), ticket, operator, now);
        View(mid) == t.rows && r == t.outcome
      ensures Only(mid)
    {
      hide NewEvent;
      var rows := Approvals(mid);
      var k := h(ticket);
      if k !in rows || rows[k].used {
        return Raised(ValueError);
      }
      approvalRequests := approvalRequests[mid := rows[k := rows[k].(used := true)]];
      assert Only(mid);
      var _ := InsertEvent(mid, ReviewConfirmed(operator), Human, now);
      return Ok(());
    }

    /** `approve_with_ticket`: it checks, redeems in a transaction after, and returns what `recover` says then. */
    method ApproveWithTicket(mid: string, ticket: string, digest: string, operator: string, clock: int, now: string)
      returns (r: Outcome<string>)
      modifies this
      ensures var t := Approve(h, mid, old(View(mid)), ticket, digest, operator, clock, now);
        && View(mid) == t.rows
        && (if t.outcome.Ok? then r == Ok(ActionOf(h, Query(View(mid), None, None))) else r == Raised(t.outcome.error))
      ensures Only(mid)
    {
      hide ApprovalDigest, ApproveWrite, ModeOf, ActionOf, Signals, Sealed, Worst, Explained;
      var rows := Approvals(mid);
      var k := h(ticket);
      if k !in rows || rows[k].used || rows[k].expiresAt <= clock {
        return Raised(ValueError);
      }
      if !HasStart(Log(mid)) || digest != rows[k].digest {
        return Raised(ValueError);
      }
      var current := ApprovalDigestOf(mid);
      if current != digest {
        return Raised(ValueError);
      }
      var redeemed := RedeemApproval(mid, ticket, operator, now);
      if redeemed.Raised? {
        return Raised(redeemed.error);
      }
      var decision, _ := Recover(h, Query(View(mid), None, None), now);
      return Ok(decision.nextSafeAction);
    }

    /** `complete_mission`: its checks, then its append. */
    method CompleteMission(mid: string, contract: Option<seq<Clause>>, now: string) returns (r: Outcome<Event>)
      modifies this
      ensures var t := Closing.CompleteMission(h, mid, old(View(mid)), contract, now);
        View(mid) == t.rows && r == t.outcome
      ensures Only(mid)
    {
      hide Report, Evaluate, Fits, IsMissionId, NewEvent, State, Unconfirmed;
      var chain := Verify(mid);
      if !chain.ok {
        return Raised(ValueError);
      }
      if Uncertain(ActionTable(mid)) != [] {
        return Raised(ValueError);
      }
      var unconfirmed := UnconfirmedExternalProgress(Log(mid));
      if unconfirmed {
        return Raised(ValueError);
      }
      var projected := Project(Log(mid));
      if projected.Raised? {
        return Raised(ValueError);
      }
      var s := projected.value;
      if s.total != 0 && |s.completed| < s.total {
        return Raised(ValueError);
      }
      if contract.Some? && !Evaluate(contract.value, Log(mid)).satisfied {
        return Raised(ValueError);
      }
      r := Append(mid, MissionCompleted(|s.completed|, s.total), Deterministic, now);
    }
  }
}
