/**
 `reconcile_pending` among other writers: it lists the uncertain rows once and
 settles them one transaction at a time, while anybody may act in between.
 */
module PendingRuns {
  import opened Prelude
  import opened Models
  import opened Rows
  import opened Ledger
  import opened Runs
  import opened ReplayedLedger
  import opened Reconcilers

  /** What the loop listed and asks, when it settles, and what others do before settlement `i`. */
  datatype Loop = Loop(todo: seq<ActionRow>, probes: Probes, clock: nat -> string, between: nat -> seq<Op>) {
    predicate Probed(k: nat)
      requires k < |todo|
    {
      todo[k].kind in probes
    }

    function Answer(k: nat): bool
      requires k < |todo| && Probed(k)
    {
      probes[todo[k].kind](todo[k].args)
    }
  }

  /** The transaction that settles row `k`. */
  function Settlement(h: Hash, mid: string, s: Sys, l: Loop, k: nat): Txn<()>
    requires k < |l.todo| && l.Probed(k)
  {
    Reconcile(h, mid, s.rows, l.todo[k].key, l.Answer(k), None, None, l.clock(k))
  }

  /** The loop from row `k` on, with others acting before each settlement. */
  ghost function SettleFrom(h: Hash, mid: string, s: Sys, l: Loop, k: nat): (Sys, Outcome<nat>)
    requires k <= |l.todo|
    decreases |l.todo| - k
  {
    if k == |l.todo| then (s, Ok(k))
    else if !l.Probed(k) then (s, Raised(UnresolvedAction))
    else
      var s1 := Exec(h, mid, s, l.between(k));
      var t := Settlement(h, mid, s1, l, k);
      var s2 := s1.(rows := t.rows);
      if t.outcome.Raised? then (s2, Raised(t.outcome.error)) else SettleFrom(h, mid, s2, l, k + 1)
  }

  /** When nobody else acts it is the loop of `Reconcilers`. */
  lemma {:induction false} AloneItIsSettleEach(h: Hash, mid: string, s: Sys, l: Loop, k: nat)
    requires k <= |l.todo| && forall i :: l.between(i) == []
    ensures var t := SettleEach(h, mid, s.rows, l.todo[k..], l.probes, l.clock, k);
      SettleFrom(h, mid, s, l, k) == (s.(rows := t.rows), t.outcome)
    decreases |l.todo| - k
  {
    hide Reconcile;
    if k < |l.todo| && l.Probed(k) {
      assert l.todo[k..][0] == l.todo[k] && l.todo[k..][1..] == l.todo[k + 1..];
      assert Exec(h, mid, s, l.between(k)) == s;
      var t := Settlement(h, mid, s, l, k);
      if t.outcome.Ok? { AloneItIsSettleEach(h, mid, s.(rows := t.rows), l, k + 1); }
    }
  }

  /** The state in which the loop comes to row `k`, if it settled the rows before. */
  ghost function Entering(h: Hash, mid: string, s: Sys, l: Loop, k: nat): Sys
    requires k <= |l.todo|
    decreases k, 0
  {
    if k == 0 then s
    else if !l.Probed(k - 1) then Entering(h, mid, s, l, k - 1)
    else
      var s1 := Turn(h, mid, s, l, k - 1);
      s1.(rows := Settlement(h, mid, s1, l, k - 1).rows)
  }

  /** The state in which row `k` is settled: others acted since the loop came to it. */
  ghost function Turn(h: Hash, mid: string, s: Sys, l: Loop, k: nat): Sys
    requires k < |l.todo|
    decreases k, 1
  {
    Exec(h, mid, Entering(h, mid, s, l, k), l.between(k))
  }

  /** Row `k` has a probe and is started at its turn. */
  ghost predicate Passes(h: Hash, mid: string, s: Sys, l: Loop, k: nat)
    requires k < |l.todo|
  {
    l.Probed(k) && IsStarted(Turn(h, mid, s, l, k).rows.actions, l.todo[k].key)
  }

  // ---- what the log says afterwards ----------------------------------------------------------

  /** The event at `i` is the loop's own settlement of row `k`. */
  predicate SettledAt(es: seq<Event>, i: nat, l: Loop, k: nat)
    requires k < |l.todo| && l.Probed(k)
  {
    i < |es| && es[i].fact == ActionReconciled(l.todo[k].key, l.Answer(k), None)
  }

  /** After the first `n` events the log records that somebody completed or reconciled the action. */
  ghost predicate TakenSince(es: seq<Event>, n: nat, key: string) {
    exists i :: n <= i < |es| && MarkOf(es[i].fact, key) !in {None, Some(Begun)}
  }

  predicate BegunLast(es: seq<Event>, key: string) {
    var ms := Marks(es, key);
    ms != [] && ms[|ms| - 1] == Begun
  }

  lemma {:induction false} StillBegunOrTaken(es: seq<Event>, n: nat, key: string)
    requires n <= |es| && BegunLast(es[..n], key)
    ensures Marks(es, key) != [] && (BegunLast(es, key) || TakenSince(es, n, key))
    decreases |es|
  {
    if n == |es| {
      assert es[..n] == es;
    } else {
      var front, e := es[..|es| - 1], es[|es| - 1];
      assert front[..n] == es[..n] && es == front + [e];
      StillBegunOrTaken(front, n, key);
      Snoc(front, e, key);
      if MarkOf(e.fact, key) !in {None, Some(Begun)} {
        assert TakenSince(es, n, key);
      } else if TakenSince(front, n, key) {
        var i :| n <= i < |front| && MarkOf(front[i].fact, key) !in {None, Some(Begun)};
        assert es[i] == front[i];
      }
    }
  }

  /** A started row's history ends with its start. */
  lemma StartedIsBegun(es: seq<Event>, t: seq<ActionRow>, row: ActionRow)
    requires TableReplays(es, t) && row in t && row.status.Started?
    ensures BegunLast(es, row.key)
  {
    var i :| 0 <= i < |t| && t[i] == row;
    assert RowReplays(es, t[i]);
  }

  /** A row that is no longer started was taken by somebody since it was. */
  lemma NotStartedIsTaken(s: Sys, n: nat, key: string)
    requires Replays(s) && n <= |s.rows.events| && BegunLast(s.rows.events[..n], key) && !IsStarted(s.rows.actions, key)
    ensures TakenSince(s.rows.events, n, key)
  {
    hide TableReplays, HistoriesKept, AttemptsNumbered;
    StillBegunOrTaken(s.rows.events, n, key);
    KeyHistory(s.rows.events, s.rows.actions, key);
  }

  // ---- one settlement --------------------------------------------------------------------------

  /** What every state of the loop has: it is live, its table is the log's replay, and the listed log is behind it. */
  ghost predicate Loops(h: Hash, mid: string, es: seq<Event>, s: Sys) {
    Live(h, mid, s) && Replays(s) && es <= s.rows.events
  }

  lemma {:induction false} OthersKeepLooping(h: Hash, mid: string, es: seq<Event>, s: Sys, ops: seq<Op>)
    requires Loops(h, mid, es, s)
    ensures Loops(h, mid, es, Exec(h, mid, s, ops)) && s.rows.events <= Exec(h, mid, s, ops).rows.events
    decreases ops
  {
    hide Apply, Live, Replays;
    if ops != [] {
      ApplyLive(h, mid, s, ops[0]);
      ApplyReplays(h, mid, s, ops[0]);
      OthersKeepLooping(h, mid, es, Apply(h, mid, s, ops[0]), ops[1..]);
    }
  }

  lemma SettlementKeepsLooping(h: Hash, mid: string, es: seq<Event>, s: Sys, l: Loop, k: nat)
    requires Loops(h, mid, es, s) && k < |l.todo| && l.Probed(k)
    ensures var t := Settlement(h, mid, s, l, k);
      var s' := s.(rows := t.rows);
      && Loops(h, mid, es, s') && s.rows.events <= s'.rows.events
      && (if IsStarted(s.rows.actions, l.todo[k].key)
          then t.outcome.Ok? && SettledAt(s'.rows.events, |s.rows.events|, l, k)
          else t.outcome == Raised(KeyError) && s' == s)
  {
    hide Apply, Live, Replays, Reconcile, IsStarted, OnlyRow, RowSettled;
    var key, now := l.todo[k].key, l.clock(k);
    ApplyLive(h, mid, s, ReconcileAction(key, l.Answer(k), None, None, now));
    ApplyReplays(h, mid, s, ReconcileAction(key, l.Answer(k), None, None, now));
    ApplyReconcile(h, mid, s, key, l.Answer(k), now);
    ReconcileExact(h, mid, s.rows, key, l.Answer(k), None, None, now);
    if IsStarted(s.rows.actions, key) {
      SettledRecorded(h, mid, s.rows, key, l.Answer(k), now);
    }
  }

  lemma SettledRecorded(h: Hash, mid: string, r: MissionRows, key: string, occurred: bool, now: string)
    requires IsStarted(r.actions, key)
    ensures var t := Reconcile(h, mid, r, key, occurred, None, None, now);
      && t.outcome.Ok? && |t.rows.events| == |r.events| + 1
      && t.rows.events[|r.events|].fact == ActionReconciled(key, occurred, None)
  {
    hide Reconcile, IsStarted, OnlyRow;
    ReconcileExact(h, mid, r, key, occurred, None, None, now);
  }

  lemma ApplyReconcile(h: Hash, mid: string, s: Sys, key: string, occurred: bool, now: string)
    ensures Apply(h, mid, s, ReconcileAction(key, occurred, None, None, now))
      == s.(rows := Reconcile(h, mid, s.rows, key, occurred, None, None, now).rows)
  {
    hide Reconcile;
  }

  // ---- the loop --------------------------------------------------------------------------------

  /** While rows pass, the loop's states keep what a run keeps, and their logs only grow. */
  lemma {:induction false} EnteringLoops(h: Hash, mid: string, s: Sys, l: Loop, k: nat)
    requires Loops(h, mid, s.rows.events, s) && k <= |l.todo| && forall i :: 0 <= i < k ==> Passes(h, mid, s, l, i)
    ensures Loops(h, mid, s.rows.events, Entering(h, mid, s, l, k))
    ensures k < |l.todo| ==>
              Loops(h, mid, s.rows.events, Turn(h, mid, s, l, k))
              && Entering(h, mid, s, l, k).rows.events <= Turn(h, mid, s, l, k).rows.events
  {
    hide Loops, Exec, Settlement, IsStarted;
    if k > 0 {
      EnteringLoops(h, mid, s, l, k - 1);
      assert Passes(h, mid, s, l, k - 1);
      SettlementKeepsLooping(h, mid, s.rows.events, Turn(h, mid, s, l, k - 1), l, k - 1);
    }
    if k < |l.todo| { OthersKeepLooping(h, mid, s.rows.events, Entering(h, mid, s, l, k), l.between(k)); }
  }

  /** The settlement of a passed row stays in the log where the loop put it. */
  lemma {:induction false} SettlementStays(h: Hash, mid: string, s: Sys, l: Loop, i: nat, k: nat)
    requires Loops(h, mid, s.rows.events, s) && i < k <= |l.todo| && forall j :: 0 <= j < k ==> Passes(h, mid, s, l, j)
    ensures l.Probed(i) && SettledAt(Entering(h, mid, s, l, k).rows.events, |Turn(h, mid, s, l, i).rows.events|, l, i)
    decreases k
  {
    hide Loops, Exec, Settlement, IsStarted;
    EnteringLoops(h, mid, s, l, k - 1);
    assert Passes(h, mid, s, l, k - 1) && Passes(h, mid, s, l, i);
    SettlementKeepsLooping(h, mid, s.rows.events, Turn(h, mid, s, l, k - 1), l, k - 1);
    if i < k - 1 { SettlementStays(h, mid, s, l, i, k - 1); }
  }

  /** The loop runs through the rows that pass and ends at the first that does not. */
  lemma {:induction false} LoopEnds(h: Hash, mid: string, s: Sys, l: Loop, k: nat) returns (stop: nat)
    requires Loops(h, mid, s.rows.events, s) && k <= |l.todo| && forall i :: 0 <= i < k ==> Passes(h, mid, s, l, i)
    ensures k <= stop <= |l.todo| && forall i :: 0 <= i < stop ==> Passes(h, mid, s, l, i)
    ensures SettleFrom(h, mid, Entering(h, mid, s, l, k), l, k)
            == if stop == |l.todo| then (Entering(h, mid, s, l, stop), Ok(stop))
               else if !l.Probed(stop) then (Entering(h, mid, s, l, stop), Raised(UnresolvedAction))
               else (Turn(h, mid, s, l, stop), Raised(KeyError))
    ensures stop < |l.todo| ==> !Passes(h, mid, s, l, stop)
    decreases |l.todo| - k
  {
    hide Loops, Exec, Settlement, IsStarted;
    stop := k;
    if k < |l.todo| && l.Probed(k) {
      EnteringLoops(h, mid, s, l, k);
      SettlementKeepsLooping(h, mid, s.rows.events, Turn(h, mid, s, l, k), l, k);
      if Passes(h, mid, s, l, k) {
        stop := LoopEnds(h, mid, s, l, k + 1);
      }
    }
  }

  /**
   `reconcile_pending` started in any reachable state, whatever others do between its
   settlements. It stops at the first row that has no probe or is not started at its
   turn: with UnresolvedAction in the first case and KeyError in the second, when
   somebody else completed or reconciled that row since it was listed; if there is no
   such row it returns their number. Every row before has, right after its turn, the
   loop's own settlement in the log, with its probe's answer.
   */
  lemma PendingAmongOthers(h: Hash, mid: string, history: seq<Op>, l: Loop) returns (stop: nat)
    requires l.todo == Uncertain(Exec(h, mid, START, history).rows.actions)
    ensures var s := Exec(h, mid, START, history);
      var m := SettleFrom(h, mid, s, l, 0);
      && stop <= |l.todo| && (forall i :: 0 <= i < stop ==> Passes(h, mid, s, l, i))
      && (stop < |l.todo| ==> !Passes(h, mid, s, l, stop))
      && (stop == |l.todo| <==> m.1 == Ok(stop))
      && (stop < |l.todo| && !l.Probed(stop) <==> m.1 == Raised(UnresolvedAction))
      && (stop < |l.todo| && l.Probed(stop) <==> m.1 == Raised(KeyError))
      && (m.1 == Raised(KeyError) ==> TakenSince(m.0.rows.events, |s.rows.events|, l.todo[stop].key))
      && (forall i :: 0 <= i < stop ==>
            l.Probed(i) && SettledAt(m.0.rows.events, |Turn(h, mid, s, l, i).rows.events|, l, i))
      && Live(h, mid, m.0) && s.rows.events <= m.0.rows.events
  {
    hide Exec, Apply, TableReplays, HistoriesKept, AttemptsNumbered, SettleFrom, BegunLast, Live, IsStarted, Settlement,
      SettledAt;
    var s := Exec(h, mid, START, history);
    StartLive(h, mid);
    EmptyReplays();
    ExecLive(h, mid, START, history);
    ExecReplays(h, mid, START, history);
    stop := LoopEnds(h, mid, s, l, 0);
    EnteringLoops(h, mid, s, l, stop);
    var s' := SettleFrom(h, mid, s, l, 0).0;
    forall i | 0 <= i < stop
      ensures l.Probed(i) && SettledAt(s'.rows.events, |Turn(h, mid, s, l, i).rows.events|, l, i)
    {
      SettlementStays(h, mid, s, l, i, stop);
      var at := |Turn(h, mid, s, l, i).rows.events|;
      SettledAtGrows(Entering(h, mid, s, l, stop).rows.events, s'.rows.events, at, l, i);
    }
    if stop < |l.todo| && l.Probed(stop) {
      UncertainExact(s.rows.actions);
      assert l.todo[stop] in l.todo;
      StartedIsBegun(s.rows.events, s.rows.actions, l.todo[stop]);
      assert s'.rows.events[..|s.rows.events|] == s.rows.events;
      NotStartedIsTaken(s', |s.rows.events|, l.todo[stop].key);
    }
  }

  lemma SettledAtGrows(es: seq<Event>, es': seq<Event>, i: nat, l: Loop, k: nat)
    requires k < |l.todo| && l.Probed(k) && SettledAt(es, i, l, k) && es <= es'
    ensures SettledAt(es', i, l, k)
  {
  }

  lemma EmptyReplays()
    ensures Replays(START)
  {
  }
}
