/**
 What the database holds for one mission, and what each transaction of
 `store.py` and `checkpoint.py` does to it. Every function here is one
 transaction: it returns the new rows, or the old ones with the exception.
 */
module Rows {
  import opened Prelude
  import opened Json
  import opened Models
  import opened Chain
  import opened Projection

  const MAX_GOAL_CHARS := 8192
  const MAX_TOTAL := 10_000_000
  const MAX_PAYLOAD_CHARS := 65536

  /** A row of `actions`; rows are kept in rowid order. */
  datatype ActionRow = ActionRow(
    key: string,
    kind: string,
    args: Json,
    status: ActionStatus,
    externalId: Option<string>,
    result: Option<Json>,
    attempts: int)

  datatype CheckpointRow = CheckpointRow(sequence: int, payload: string, digest: string, reason: string)

  datatype ApprovalRow = ApprovalRow(digest: string, expiresAt: int, used: bool)

  /** The rows of every table that carry one mission's id. Tickets are keyed by their hash. */
  datatype MissionRows = MissionRows(
    mission: Option<Mission>,
    events: seq<Event>,
    head: Option<Head>,
    actions: seq<ActionRow>,
    checkpoints: seq<CheckpointRow>,
    tickets: map<string, bool>,
    approvals: map<string, ApprovalRow>)

  const NO_ROWS := MissionRows(None, [], None, [], [], map[], map[])

  /** The rows after a transaction, with its return value or exception. */
  datatype Txn<+T> = Txn(rows: MissionRows, outcome: Outcome<T>)

  // ---- argument checks -------------------------------------------------------------

  predicate IdChar(c: char) {
    'A' <= c <= 'Z' || 'a' <= c <= 'z' || '0' <= c <= '9' || c == '.' || c == '_' || c == '-'
  }

  predicate IdBody(s: string) {
    1 <= |s| <= 128 && forall i :: 0 <= i < |s| ==> IdChar(s[i])
  }

  /** `MISSION_ID_PATTERN`: its `$` also matches before one final newline. */
  predicate IsMissionId(s: string) {
    IdBody(s) || (s != [] && s[|s| - 1] == '\n' && IdBody(s[..|s| - 1]))
  }

  /** The characters `str.strip` removes. */
  predicate IsSpace(c: char) {
    var n := c as int;
    || 9 <= n <= 13 || 0x1c <= n <= 0x20 || n == 0x85 || n == 0xa0 || n == 0x1680 || 0x2000 <= n <= 0x200a
    || n == 0x2028 || n == 0x2029 || n == 0x202f || n == 0x205f || n == 0x3000
  }

  predicate IsBlank(s: string) {
    forall i :: 0 <= i < |s| ==> IsSpace(s[i])
  }

  predicate Fits(f: Fact) {
    |Canonical(Payload(f))| <= MAX_PAYLOAD_CHARS
  }

  // ---- events -------------------------------------------------------------------------

  function NewEvent(h: Hash, mid: string, es: seq<Event>, f: Fact, o: Origin, now: string): Event {
    var sequence := if es == [] then 1 else es[|es| - 1].sequence + 1;
    var draft := Event(mid, sequence, f, now, Previous(es, |es|), "", o);
    draft.(digest := EventDigest(h, draft, Previous(es, |es|)))
  }

  /** `_insert_event`: the new event, and the anchor moved onto it. */
  function Recorded(h: Hash, mid: string, r: MissionRows, f: Fact, o: Origin, now: string): MissionRows {
    var e := NewEvent(h, mid, r.events, f, o, now);
    r.(events := r.events + [e], head := Some(Head(e.sequence, e.digest)))
  }

  function CreateMission(h: Hash, mid: string, r: MissionRows, goal: string, total: int, now: string): (t: Txn<()>)
    ensures t.outcome.Raised? ==> t.rows == r
  {
    if !IsMissionId(mid) || IsBlank(goal) || |goal| > MAX_GOAL_CHARS || !(0 <= total <= MAX_TOTAL) then
      Txn(r, Raised(ValueError))
    else if r.mission.Some? then Txn(r, Raised(IntegrityError))
    else
      Txn(Recorded(h, mid, r.(mission := Some(Mission(mid, goal, total))), MissionStarted(goal, total), Deterministic,
        now), Ok(()))
  }

  predicate CanAppend(mid: string, r: MissionRows, f: Fact) {
    IsMissionId(mid) && Fits(f) && (f.MissionStarted? || r.mission.Some?)
  }

  function Append(h: Hash, mid: string, r: MissionRows, f: Fact, o: Origin, now: string): (t: Txn<Event>)
    ensures t.outcome.Ok? <==> CanAppend(mid, r, f)
    ensures t.outcome.Raised? ==> t.rows == r
  {
    if !IsMissionId(mid) || !Fits(f) then Txn(r, Raised(ValueError))
    else if !f.MissionStarted? && r.mission.None? then Txn(r, Raised(KeyError))
    else Txn(Recorded(h, mid, r, f, o, now), Ok(NewEvent(h, mid, r.events, f, o, now)))
  }

  /** The anchor backfill of `_schema`, which runs whenever the file is opened. */
  function Reopened(r: MissionRows): MissionRows {
    if r.events != [] && r.head.None? then r.(head := Some(Anchor(r.events))) else r
  }

  // ---- checkpoints -----------------------------------------------------------------------

  /** What `checkpoint` reads before its transaction: the last sequence and the projected state. */
  function CheckpointRead(es: seq<Event>): Outcome<(int, string)> {
    match Projected(es)
    case Ok(s) => if es == [] then Raised(ValueError) else Ok((es[|es| - 1].sequence, Canonical(StateJson(s))))
    case Raised(x) => Raised(x)
  }

  function CheckpointWrite(h: Hash, mid: string, r: MissionRows, sequence: int, payload: string, reason: string,
                           now: string)
    : (t: Txn<CheckpointRow>)
    ensures t.outcome.Raised? ==> t.rows == r
  {
    if exists i :: 0 <= i < |r.checkpoints| && r.checkpoints[i].sequence == sequence then Txn(r, Raised(IntegrityError))
    else
      var c := CheckpointRow(sequence, payload, h(payload), reason);
      Txn(Recorded(h, mid, r.(checkpoints := r.checkpoints + [c]), CheckpointCreated(sequence, c.digest, reason),
        Deterministic, now), Ok(c))
  }

  datatype Restored = Restored(checkpoint: CheckpointRow, state: SemanticState, replayedEvents: nat,
    currentState: SemanticState)

  /** The events numbered up to `n`, and the ones after. */
  function UpTo(es: seq<Event>, n: int): seq<Event> {
    if es == [] then [] else (if es[0].sequence <= n then [es[0]] else []) + UpTo(es[1..], n)
  }

  function Beyond(es: seq<Event>, n: int): seq<Event> {
    if es == [] then [] else (if es[0].sequence > n then [es[0]] else []) + Beyond(es[1..], n)
  }

  /** `ORDER BY sequence DESC LIMIT 1`. */
  function Latest(cs: seq<CheckpointRow>): Option<CheckpointRow> {
    if cs == [] then None
    else
      match Latest(cs[1..])
      case None => Some(cs[0])
      case Some(c) => if cs[0].sequence > c.sequence then Some(cs[0]) else Some(c)
  }

  function CheckpointAt(cs: seq<CheckpointRow>, sequence: int): Option<CheckpointRow> {
    if cs == [] then None else if cs[0].sequence == sequence then Some(cs[0]) else CheckpointAt(cs[1..], sequence)
  }

  /** The row `restore` reads. */
  function Chosen(cs: seq<CheckpointRow>, sequence: Option<int>): Option<CheckpointRow> {
    match sequence case None => Latest(cs) case Some(n) => CheckpointAt(cs, n)
  }

  /** `restore`, of the latest checkpoint or of the one asked for. */
  function Restore(h: Hash, r: MissionRows, sequence: Option<int>): Outcome<Restored> {
    var row := Chosen(r.checkpoints, sequence);
    if row.None? then Raised(KeyError)
    else if h(row.value.payload) != row.value.digest then Raised(RuntimeError)
    else
      var asOf := UpTo(r.events, row.value.sequence);
      if !HasStart(asOf) || !HasStart(r.events) then Raised(ValueError)
      else Ok(Restored(row.value, State(asOf), |Beyond(r.events, row.value.sequence)|, State(r.events)))
  }

  // ---- confirmation tickets ----------------------------------------------------------------

  function IssueTicket(h: Hash, mid: string, r: MissionRows, ticket: string): (t: Txn<string>)
    ensures t.outcome.Raised? ==> t.rows == r
  {
    if !IsMissionId(mid) then Txn(r, Raised(ValueError))
    else if r.mission.None? then Txn(r, Raised(KeyError))
    else if h(ticket) in r.tickets then Txn(r, Raised(IntegrityError))
    else Txn(r.(tickets := r.tickets[h(ticket) := false]), Ok(ticket))
  }

  /** True iff this call is the one that redeems the ticket. */
  function ConsumeTicket(h: Hash, r: MissionRows, ticket: string): Txn<bool> {
    var k := h(ticket);
    if k in r.tickets && !r.tickets[k] then Txn(r.(tickets := r.tickets[k := true]), Ok(true)) else Txn(r, Ok(false))
  }

  // ---- what each transaction does ------------------------------------------------------------

  /** The log grew by one event that says so, and the anchor stands on it. */
  ghost predicate OneMore(mid: string, r: MissionRows, r': MissionRows, f: Fact, o: Origin, now: string) {
    && |r'.events| == |r.events| + 1 && r'.events[..|r.events|] == r.events
    && var e := r'.events[|r.events|];
    && e.missionId == mid && e.fact == f && e.origin == o && e.createdAt == now
    && e.sequence == (if r.events == [] then 1 else r.events[|r.events| - 1].sequence + 1)
    && e.previousHash == (if r.events == [] then None else Some(r.events[|r.events| - 1].digest))
    && r'.head == Some(Head(e.sequence, e.digest))
  }

  /** The rows of every table but the log and its anchor. */
  function Beside(r: MissionRows): MissionRows {
    r.(events := [], head := None)
  }

  lemma RecordedAdds(h: Hash, mid: string, r: MissionRows, f: Fact, o: Origin, now: string)
    ensures var r' := Recorded(h, mid, r, f, o, now); OneMore(mid, r, r', f, o, now) && Beside(r') == Beside(r)
  {
    hide EventDigest;
  }

  predicate CanCreate(mid: string, r: MissionRows, goal: string, total: int) {
    IsMissionId(mid) && !IsBlank(goal) && |goal| <= MAX_GOAL_CHARS && 0 <= total <= MAX_TOTAL && r.mission.None?
  }

  /**
   A mission is created iff its id, goal and total are valid and its id is free; it then
   has its row and its start.
   */
  lemma CreateExact(h: Hash, mid: string, r: MissionRows, goal: string, total: int, now: string)
    ensures var t := CreateMission(h, mid, r, goal, total, now);
      && (t.outcome.Ok? <==> CanCreate(mid, r, goal, total))
      && (t.outcome == Raised(IntegrityError) <==> r.mission.Some? && CanCreate(mid, r.(mission := None), goal, total))
      && (t.outcome.Ok? ==>
            && OneMore(mid, r, t.rows, MissionStarted(goal, total), Deterministic, now)
            && Beside(t.rows) == Beside(r).(mission := Some(Mission(mid, goal, total))))
  {
    hide IsMissionId, IsBlank, Recorded;
    RecordedAdds(h, mid, r.(mission := Some(Mission(mid, goal, total))), MissionStarted(goal, total), Deterministic,
      now);
  }

  /** An append records exactly the event it was given, and returns it. */
  lemma AppendExact(h: Hash, mid: string, r: MissionRows, f: Fact, o: Origin, now: string)
    ensures var t := Append(h, mid, r, f, o, now);
      && (t.outcome.Ok? <==> CanAppend(mid, r, f))
      && (t.outcome == Raised(KeyError) <==> r.mission.None? && !f.MissionStarted? && IsMissionId(mid) && Fits(f))
      && (t.outcome.Ok? ==>
            && OneMore(mid, r, t.rows, f, o, now) && Beside(t.rows) == Beside(r)
            && t.outcome.value == t.rows.events[|r.events|])
  {
    hide IsMissionId, Fits, NewEvent;
    RecordedAdds(h, mid, r, f, o, now);
  }

  /** A checkpoint is written iff its sequence is free: one row, one event that names it. */
  lemma CheckpointExact(h: Hash, mid: string, r: MissionRows, sequence: int, payload: string, reason: string,
                        now: string)
    ensures var t := CheckpointWrite(h, mid, r, sequence, payload, reason, now);
      && (t.outcome.Ok? <==> forall c :: c in r.checkpoints ==> c.sequence != sequence)
      && (t.outcome.Ok? ==>
            var c := t.outcome.value;
            && c.sequence == sequence && c.payload == payload && c.digest == h(payload) && c.reason == reason
            && OneMore(mid, r, t.rows, CheckpointCreated(sequence, c.digest, reason), Deterministic, now)
            && Beside(t.rows) == Beside(r).(checkpoints := r.checkpoints + [c]))
  {
    hide Recorded;
    var c := CheckpointRow(sequence, payload, h(payload), reason);
    RecordedAdds(h, mid, r.(checkpoints := r.checkpoints + [c]), CheckpointCreated(sequence, c.digest, reason),
      Deterministic, now);
  }

  /** A ticket is issued iff the mission exists and its hash is new; exactly that hash becomes redeemable. */
  lemma IssueExact(h: Hash, mid: string, r: MissionRows, ticket: string)
    ensures var t := IssueTicket(h, mid, r, ticket);
      && (t.outcome.Ok? <==> IsMissionId(mid) && r.mission.Some? && h(ticket) !in r.tickets)
      && (t.outcome.Ok? ==>
            && t.outcome.value == ticket && t.rows.(tickets := r.tickets) == r
            && forall x :: ConsumeTicket(h, t.rows, x).outcome == Ok(true) <==>
                 h(x) == h(ticket) || ConsumeTicket(h, r, x).outcome == Ok(true))
  {
    hide IsMissionId;
  }

  /** A ticket is redeemed iff it is there and unused; then it alone is used up, and nothing else moves. */
  lemma ConsumeExact(h: Hash, r: MissionRows, ticket: string)
    ensures var t := ConsumeTicket(h, r, ticket);
      && t.outcome == Ok(h(ticket) in r.tickets && !r.tickets[h(ticket)])
      && (t.outcome == Ok(false) ==> t.rows == r)
      && (t.outcome == Ok(true) ==>
            && t.rows.(tickets := r.tickets) == r && t.rows.tickets.Keys == r.tickets.Keys
            && forall k :: k in r.tickets ==> t.rows.tickets[k] == (k == h(ticket) || r.tickets[k]))
  {
  }

  /**
   Reopening gives a log without an anchor the anchor of its last event, and moves nothing
   else; afterwards the log verifies iff it is linked from its start and no anchor disagreed.
   */
  lemma ReopenExact(h: Hash, r: MissionRows)
    ensures var r' := Reopened(r);
      && r'.(head := r.head) == r && (r.head.Some? || r.events == [] ==> r' == r)
      && (r.head.None? && r.events != [] ==>
            r'.head == Some(Head(|r.events|, r.events[|r.events| - 1].digest)))
      && (Report(h, r'.events, r'.head).ok <==>
            && Opens(r.events) && Linked(h, r.events, |r.events|)
            && (r.head.None? || r.head == Some(Head(|r.events|, r.events[|r.events| - 1].digest))))
  {
    hide LinkedAt;
    VerifiedIsOk(h, r.events, Reopened(r).head);
  }

  /** The first `n` characters are letters, digits, dots, underscores or hyphens. */
  ghost predicate IdUpTo(s: string, n: int) {
    && 1 <= n <= 128 && n <= |s|
    && forall i :: 0 <= i < n ==>
         'A' <= s[i] <= 'Z' || 'a' <= s[i] <= 'z' || '0' <= s[i] <= '9' || s[i] in "._-"
  }

  /** One to 128 such characters, and perhaps one newline after them. */
  lemma MissionIdExact(s: string)
    ensures IsMissionId(s) <==> IdUpTo(s, |s|) || (s != [] && s[|s| - 1] == '\n' && IdUpTo(s, |s| - 1))
  {
    forall c ensures IdChar(c) <==> 'A' <= c <= 'Z' || 'a' <= c <= 'z' || '0' <= c <= '9' || c in "._-" {
      assert c in "._-" <==> c == '.' || c == '_' || c == '-';
    }
    if s != [] {
      var front := s[..|s| - 1];
      assert forall i :: 0 <= i < |front| ==> front[i] == s[i];
      assert IdBody(front) <==> IdUpTo(s, |s| - 1);
    }
  }

  // ---- the chain is kept ---------------------------------------------------------------------

  lemma VerifiedNumbers(h: Hash, es: seq<Event>)
    requires Linked(h, es, |es|)
    ensures Numbered(es)
  {
    hide EventDigest;
    forall i | 0 <= i < |es| ensures es[i].sequence == i + 1 { assert LinkedAt(h, es, i); }
  }

  lemma NewEventLinks(h: Hash, mid: string, es: seq<Event>, f: Fact, o: Origin, now: string)
    requires Linked(h, es, |es|)
    ensures var e := NewEvent(h, mid, es, f, o, now); Linked(h, es + [e], |es| + 1) && e.sequence == |es| + 1
  {
    var e := NewEvent(h, mid, es, f, o, now);
    assert e.digest == EventDigest(h, e, Previous(es, |es|)) by { hide Canonical; }
    hide EventDigest;
    VerifiedNumbers(h, es);
    hide NewEvent;
    forall i | 0 <= i < |es| + 1 ensures LinkedAt(h, es + [e], i) {
      if i < |es| { assert LinkedAt(h, es, i); }
    }
  }

  /** Recording an event keeps a linked chain linked, starts one on no rows, and anchors the result. */
  lemma RecordedVerifies(h: Hash, mid: string, r: MissionRows, f: Fact, o: Origin, now: string)
    requires if r.events == [] then f.MissionStarted? else Opens(r.events) && Linked(h, r.events, |r.events|)
    ensures var r' := Recorded(h, mid, r, f, o, now); Verified(h, r'.events, r'.head)
  {
    hide NewEvent, LinkedAt;
    NewEventLinks(h, mid, r.events, f, o, now);
    NewEventFact(h, mid, r.events, f, o, now);
  }

  lemma NewEventFact(h: Hash, mid: string, es: seq<Event>, f: Fact, o: Origin, now: string)
    ensures var e := NewEvent(h, mid, es, f, o, now);
      e.fact == f && e.origin == o && e.missionId == mid
        && e.sequence == if es == [] then 1 else es[|es| - 1].sequence + 1
  {
    hide EventDigest;
  }

  /** The anchor a whole log leaves behind. */
  function LastAnchor(es: seq<Event>): Head {
    if es == [] then Head(0, "") else Anchor(es)
  }

  /**
   Recording never looks at the anchor it replaces: the result verifies iff the
   events before it were linked, or it starts the first log.
   */
  lemma RecordedVerifiesIff(h: Hash, mid: string, r: MissionRows, f: Fact, o: Origin, now: string)
    ensures var r' := Recorded(h, mid, r, f, o, now);
      Report(h, r'.events, r'.head).ok
      <==> if r.events == [] then f.MissionStarted? else Opens(r.events) && Linked(h, r.events, |r.events|)
  {
    hide NewEvent, LinkedAt;
    var r' := Recorded(h, mid, r, f, o, now);
    VerifiedIsOk(h, r'.events, r'.head);
    NewEventFact(h, mid, r.events, f, o, now);
    if Report(h, r'.events, r'.head).ok && r.events != [] {
      PrefixLinked(h, r'.events, |r.events|);
      assert r'.events[..|r.events|] == r.events;
    } else if if r.events == [] then f.MissionStarted? else Opens(r.events) && Linked(h, r.events, |r.events|) {
      RecordedVerifies(h, mid, r, f, o, now);
    }
  }

  /**
   When a refused log verifies again after the next event: exactly when only its
   anchor disagreed, which `verify_chain` says by its error before the append.
   A lost tail and a rewritten history are both of that kind.
   */
  lemma RefusalForgottenIff(h: Hash, mid: string, r: MissionRows, f: Fact, o: Origin, now: string)
    requires r.events != []
    ensures var before := Report(h, r.events, r.head);
      var r' := Recorded(h, mid, r, f, o, now);
      && (!before.ok && Report(h, r'.events, r'.head).ok <==> before.error == HEAD_MISMATCH)
      && (before.error == HEAD_MISMATCH <==>
            Opens(r.events) && Linked(h, r.events, |r.events|) && r.head != Some(Anchor(r.events)))
  {
    RecordedVerifiesIff(h, mid, r, f, o, now);
    hide NewEvent, LinkedAt, EventDigest, Recorded;
    VerifyExact(h, r.events, r.head);
    TrustedIsLongest(h, r.events, 0);
    var before := Report(h, r.events, r.head);
    assert before.error != [] && before.error[0] == HEAD_MISMATCH[0] ==> before.error == HEAD_MISMATCH;
  }

  /**
   A log that lost its tail is refused against the anchor that remembers it; but
   the next recorded event moves the anchor, and the shortened log verifies again.
   */
  lemma TruncationForgottenByNextEvent(h: Hash, mid: string, es: seq<Event>, n: nat, f: Fact, o: Origin, now: string)
    requires Report(h, es, Some(LastAnchor(es))).ok && 0 < n < |es|
    ensures var cut := NO_ROWS.(events := es[..n], head := Some(LastAnchor(es)));
      var next := Recorded(h, mid, cut, f, o, now);
      !Report(h, cut.events, cut.head).ok && Report(h, next.events, next.head).ok
  {
    hide NewEvent, LinkedAt;
    var head := Some(LastAnchor(es));
    VerifiedIsOk(h, es, head);
    var cut := NO_ROWS.(events := es[..n], head := head);
    VerifiedIsOk(h, cut.events, cut.head);
    assert Linked(h, es[..n], n) by { PrefixLinked(h, es, n); }
    RecordedVerifies(h, mid, cut, f, o, now);
    var next := Recorded(h, mid, cut, f, o, now);
    VerifiedIsOk(h, next.events, next.head);
  }

  lemma PrefixLinked(h: Hash, es: seq<Event>, n: nat)
    requires Linked(h, es, |es|) && n <= |es|
    ensures Linked(h, es[..n], n)
  {
    hide EventDigest;
    forall i | 0 <= i < n ensures LinkedAt(h, es[..n], i) { assert LinkedAt(h, es, i); }
  }
}
