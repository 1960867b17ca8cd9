/** Settling uncertain effects from probes: what `reconcile_pending` does to the rows, and what survives a kill. */
module Reconcilers {
  import opened Prelude
  import opened Json
  import opened Models
  import opened Rows
  import opened Ledger

  /** The registry: a probe per kind, asked with the recorded arguments. */
  type Probes = map<string, Json -> bool>

  /** The loop over the uncertain rows read at the start; `clock` gives the time of each settlement. */
  function SettleEach(h: Hash, mid: string, r: MissionRows, todo: seq<ActionRow>, probes: Probes,
                      clock: nat -> string, settled: nat)
    : Txn<nat>
    decreases todo
  {
    if todo == [] then Txn(r, Ok(settled))
    else
      var row := todo[0];
      if row.kind !in probes then Txn(r, Raised(UnresolvedAction))
      else
        var t := Reconcile(h, mid, r, row.key, probes[row.kind](row.args), None, None, clock(settled));
        if t.outcome.Raised? then Txn(t.rows, Raised(t.outcome.error))
        else SettleEach(h, mid, t.rows, todo[1..], probes, clock, settled + 1)
  }

  function SettlePending(h: Hash, mid: string, r: MissionRows, probes: Probes, clock: nat -> string): Txn<nat> {
    SettleEach(h, mid, r, Uncertain(r.actions), probes, clock, 0)
  }

  // ---- the table it leaves -----------------------------------------------------------------

  function Answered(row: ActionRow, probes: Probes): ActionRow
    requires row.kind in probes
  {
    row.(status := Verdict(probes[row.kind](row.args)), externalId := None, result := Some(Obj([])))
  }

  /** Each started row answered by its probe, up to the first started row without one. */
  function AnswerAll(t: seq<ActionRow>, probes: Probes): seq<ActionRow> {
    if t == [] then []
    else if !t[0].status.Started? then [t[0]] + AnswerAll(t[1..], probes)
    else if t[0].kind in probes then [Answered(t[0], probes)] + AnswerAll(t[1..], probes)
    else t
  }

  /** The same, stopping after `k` answers. */
  function AnswerFirst(t: seq<ActionRow>, probes: Probes, k: nat): seq<ActionRow> {
    if t == [] || k == 0 then t
    else if !t[0].status.Started? then [t[0]] + AnswerFirst(t[1..], probes, k)
    else if t[0].kind in probes then [Answered(t[0], probes)] + AnswerFirst(t[1..], probes, k - 1)
    else t
  }

  predicate AllProbed(rows: seq<ActionRow>, probes: Probes) {
    forall i :: 0 <= i < |rows| ==> rows[i].kind in probes
  }

  /** One settlement rewrites exactly its own row. */
  lemma SettleOne(h: Hash, mid: string, r: MissionRows, row: ActionRow, before: seq<ActionRow>, after: seq<ActionRow>,
                  occurred: bool, now: string)
    requires r.actions == before + [row] + after && UniqueKeys(r.actions) && row.status.Started?
    ensures var t := Reconcile(h, mid, r, row.key, occurred, None, None, now);
      && t.outcome == Ok(())
      && t.rows.actions
         == before + [row.(status := Verdict(occurred), externalId := None, result := Some(Obj([])))] + after
  {
    hide NewEvent;
    assert r.actions[|before|] == row;
    IndexIs(r.actions, |before|);
  }

  lemma StillUnique(before: seq<ActionRow>, row: ActionRow, row': ActionRow, after: seq<ActionRow>)
    requires UniqueKeys(before + [row] + after) && row'.key == row.key
    ensures UniqueKeys(before + [row'] + after)
  {
    var t, t' := before + [row] + after, before + [row'] + after;
    forall i, j | 0 <= i < j < |t'| ensures t'[i].key != t'[j].key {
      assert t[i].key == t'[i].key && t[j].key == t'[j].key;
    }
  }

  /** The first settlement of the loop. */
  lemma SettleHead(h: Hash, mid: string, r: MissionRows, before: seq<ActionRow>, row: ActionRow, tail: seq<ActionRow>,
                   todo: seq<ActionRow>, probes: Probes, clock: nat -> string, settled: nat) returns (r': MissionRows)
    requires r.actions == before + [row] + tail && UniqueKeys(r.actions) && row.status.Started?
    requires todo != [] && todo[0] == row && row.kind in probes
    ensures r'.actions == before + [Answered(row, probes)] + tail && UniqueKeys(r'.actions)
    ensures SettleEach(h, mid, r, todo, probes, clock, settled)
      == SettleEach(h, mid, r', todo[1..], probes, clock, settled + 1)
  {
    hide Reconcile, UniqueKeys;
    var occurred := probes[row.kind](row.args);
    SettleOne(h, mid, r, row, before, tail, occurred, clock(settled));
    StillUnique(before, row, Answered(row, probes), tail);
    r' := Reconcile(h, mid, r, row.key, occurred, None, None, clock(settled)).rows;
  }

  lemma AllProbedHead(row: ActionRow, rows: seq<ActionRow>, probes: Probes)
    ensures AllProbed([row] + rows, probes) <==> row.kind in probes && AllProbed(rows, probes)
  {
    var all := [row] + rows;
    assert all[0] == row;
    assert forall i :: 0 <= i < |rows| ==> all[i + 1] == rows[i];
  }

  /** The loop, seen on the table: rows before `rest` are behind it, the first `k` started rows of `rest` are ahead. */
  ghost predicate Settles(h: Hash, mid: string, r: MissionRows, before: seq<ActionRow>, rest: seq<ActionRow>,
                          probes: Probes, clock: nat -> string, settled: nat, k: nat)
  {
    k <= |Uncertain(rest)| &&
    var t := SettleEach(h, mid, r, Uncertain(rest)[..k], probes, clock, settled);
    && t.rows.actions == before + AnswerFirst(rest, probes, k)
    && t.outcome == (if AllProbed(Uncertain(rest)[..k], probes) then Ok(settled + k) else Raised(UnresolvedAction))
  }

  lemma SettlesNone(h: Hash, mid: string, r: MissionRows, before: seq<ActionRow>, rest: seq<ActionRow>,
                    probes: Probes, clock: nat -> string, settled: nat)
    requires r.actions == before + rest
    ensures Settles(h, mid, r, before, rest, probes, clock, settled, 0)
  {
    assert Uncertain(rest)[..0] == [];
  }

  lemma Assoc<T>(a: seq<T>, x: T, b: seq<T>)
    ensures a + ([x] + b) == (a + [x]) + b
  {
  }

  lemma Unroll(rest: seq<ActionRow>, probes: Probes, k: nat)
    requires rest != [] && k > 0
    ensures Uncertain(rest) == if rest[0].status.Started? then [rest[0]] + Uncertain(rest[1..])
      else Uncertain(rest[1..])
    ensures AnswerFirst(rest, probes, k) ==
            if !rest[0].status.Started? then [rest[0]] + AnswerFirst(rest[1..], probes, k)
            else if rest[0].kind in probes then [Answered(rest[0], probes)] + AnswerFirst(rest[1..], probes, k - 1)
            else rest
  {
  }

  /** A row that is not started is passed over. */
  lemma SettlesSkip(h: Hash, mid: string, r: MissionRows, before: seq<ActionRow>, rest: seq<ActionRow>,
                    probes: Probes, clock: nat -> string, settled: nat, k: nat)
    requires rest != [] && !rest[0].status.Started? && k > 0
    requires Settles(h, mid, r, before + [rest[0]], rest[1..], probes, clock, settled, k)
    ensures Settles(h, mid, r, before, rest, probes, clock, settled, k)
  {
    hide SettleEach, AllProbed, Uncertain, AnswerFirst;
    Unroll(rest, probes, k);
    Assoc(before, rest[0], AnswerFirst(rest[1..], probes, k));
  }

  lemma TakeFirst(rest: seq<ActionRow>, k: nat)
    requires rest != [] && rest[0].status.Started? && 0 < k <= |Uncertain(rest)|
    ensures k - 1 <= |Uncertain(rest[1..])| && Uncertain(rest)[..k] == [rest[0]] + Uncertain(rest[1..])[..k - 1]
    ensures Uncertain(rest)[..k][1..] == Uncertain(rest[1..])[..k - 1]
  {
    Unroll(rest, map[], k);
  }

  /** A started row with a probe is answered. */
  lemma SettlesTake(h: Hash, mid: string, r: MissionRows, before: seq<ActionRow>, rest: seq<ActionRow>,
                    probes: Probes, clock: nat -> string, settled: nat, k: nat, r': MissionRows)
    requires rest != [] && rest[0].status.Started? && rest[0].kind in probes && 0 < k <= |Uncertain(rest)|
    requires SettleEach(h, mid, r, Uncertain(rest)[..k], probes, clock, settled)
          == SettleEach(h, mid, r', Uncertain(rest)[..k][1..], probes, clock, settled + 1)
    requires Settles(h, mid, r', before + [Answered(rest[0], probes)], rest[1..], probes, clock, settled + 1, k - 1)
    ensures Settles(h, mid, r, before, rest, probes, clock, settled, k)
  {
    hide SettleEach, AllProbed, Uncertain, AnswerFirst, Answered;
    TakeFirst(rest, k);
    AllProbedHead(rest[0], Uncertain(rest[1..])[..k - 1], probes);
    Unroll(rest, probes, k);
    Assoc(before, Answered(rest[0], probes), AnswerFirst(rest[1..], probes, k - 1));
  }

  /** A started row without a probe stops the loop. */
  lemma SettlesStop(h: Hash, mid: string, r: MissionRows, before: seq<ActionRow>, rest: seq<ActionRow>,
                    probes: Probes, clock: nat -> string, settled: nat, k: nat)
    requires r.actions == before + rest && rest != [] && rest[0].status.Started? && rest[0].kind !in probes
      && 0 < k <= |Uncertain(rest)|
    ensures Settles(h, mid, r, before, rest, probes, clock, settled, k)
  {
    hide Uncertain, AnswerFirst;
    TakeFirst(rest, k);
    Unroll(rest, probes, k);
    assert Uncertain(rest)[..k][0] == rest[0];
  }

  /** The first of the rows ahead, and what is ahead of it. */
  lemma SplitFirst(before: seq<ActionRow>, rest: seq<ActionRow>, k: nat)
    requires 0 < k <= |Uncertain(rest)|
    ensures rest != [] && before + rest == before + [rest[0]] + rest[1..]
    ensures !rest[0].status.Started? ==> k <= |Uncertain(rest[1..])|
    ensures rest[0].status.Started? ==> k - 1 <= |Uncertain(rest[1..])| && Uncertain(rest)[..k][0] == rest[0]
  {
    assert rest == [rest[0]] + rest[1..];
    Assoc(before, rest[0], rest[1..]);
    if rest[0].status.Started? { TakeFirst(rest, k); }
  }

  lemma {:induction false} SettleEachTable(h: Hash, mid: string, r: MissionRows, before: seq<ActionRow>,
                                           rest: seq<ActionRow>,
                                           probes: Probes, clock: nat -> string, settled: nat, k: nat)
    requires r.actions == before + rest && UniqueKeys(r.actions) && k <= |Uncertain(rest)|
    ensures Settles(h, mid, r, before, rest, probes, clock, settled, k)
    decreases rest
  {
    hide Settles, UniqueKeys, Answered, SettleEach, Uncertain;
    if k == 0 {
      SettlesNone(h, mid, r, before, rest, probes, clock, settled);
    } else {
      SplitFirst(before, rest, k);
      var row := rest[0];
      if !row.status.Started? {
        SettleEachTable(h, mid, r, before + [row], rest[1..], probes, clock, settled, k);
        SettlesSkip(h, mid, r, before, rest, probes, clock, settled, k);
      } else if row.kind in probes {
        var r' := SettleHead(h, mid, r, before, row, rest[1..], Uncertain(rest)[..k], probes, clock, settled);
        SettleEachTable(h, mid, r', before + [Answered(row, probes)], rest[1..], probes, clock, settled + 1, k - 1);
        SettlesTake(h, mid, r, before, rest, probes, clock, settled, k, r');
      } else {
        SettlesStop(h, mid, r, before, rest, probes, clock, settled, k);
      }
    }
  }

  lemma {:induction false} AnswerFirstAll(t: seq<ActionRow>, probes: Probes)
    ensures AnswerFirst(t, probes, |Uncertain(t)|) == AnswerAll(t, probes)
  {
    if t != [] {
      AnswerFirstAll(t[1..], probes);
      if |Uncertain(t)| == 0 { NothingToAnswer(t, probes); }
    }
  }

  lemma {:induction false} NothingToAnswer(t: seq<ActionRow>, probes: Probes)
    requires Uncertain(t) == []
    ensures AnswerAll(t, probes) == t
  {
    if t != [] {
      NothingToAnswer(t[1..], probes);
      assert t == [t[0]] + t[1..];
    }
  }

  lemma {:induction false} AnswersContinue(t: seq<ActionRow>, probes: Probes, k: nat)
    ensures AnswerAll(AnswerFirst(t, probes, k), probes) == AnswerAll(t, probes)
  {
    if t != [] && k > 0 {
      if !t[0].status.Started? { AnswersContinue(t[1..], probes, k); }
      else if t[0].kind in probes { AnswersContinue(t[1..], probes, k - 1); }
    }
  }

  lemma {:induction false} AnswersKeepKeys(t: seq<ActionRow>, probes: Probes, k: nat)
    ensures |AnswerFirst(t, probes, k)| == |t| && forall i :: 0 <= i < |t| ==>
      AnswerFirst(t, probes, k)[i].key == t[i].key
  {
    if t != [] && k > 0 {
      if !t[0].status.Started? { AnswersKeepKeys(t[1..], probes, k); }
      else if t[0].kind in probes { AnswersKeepKeys(t[1..], probes, k - 1); }
    }
  }

  /**
   `reconcile_pending`: the table becomes each started row answered, up to the
   first whose kind has no probe; it returns their number when all have one and
   raises otherwise.
   */
  lemma PendingExact(h: Hash, mid: string, r: MissionRows, probes: Probes, clock: nat -> string)
    requires UniqueKeys(r.actions)
    ensures var t := SettlePending(h, mid, r, probes, clock);
      var u := Uncertain(r.actions);
      && t.rows.actions == AnswerAll(r.actions, probes)
      && t.outcome == (if AllProbed(u, probes) then Ok(|u|) else Raised(UnresolvedAction))
  {
    hide SettleEach, AllProbed, UniqueKeys;
    var u := Uncertain(r.actions);
    assert u[..|u|] == u && [] + r.actions == r.actions
      && [] + AnswerFirst(r.actions, probes, |u|) == AnswerFirst(r.actions, probes, |u|);
    SettleEachTable(h, mid, r, [], r.actions, probes, clock, 0, |u|);
    hide SettleEach, AllProbed;
    AnswerFirstAll(r.actions, probes);
  }

  /** The first row the loop cannot settle, or the number of rows. */
  ghost predicate Stops(t: seq<ActionRow>, probes: Probes, n: nat) {
    && n <= |t| && (n < |t| ==> t[n].status == Started && t[n].kind !in probes)
    && forall i :: 0 <= i < n && t[i].status == Started ==> t[i].kind in probes
  }

  /** Before the stop each started row is settled by what its probe says, and every other row is as it was. */
  lemma {:induction false} AnswersExact(t: seq<ActionRow>, probes: Probes) returns (n: nat)
    ensures Stops(t, probes, n) && |AnswerAll(t, probes)| == |t|
    ensures forall i :: n <= i < |t| ==> AnswerAll(t, probes)[i] == t[i]
    ensures forall i :: 0 <= i < n && t[i].status != Started ==> AnswerAll(t, probes)[i] == t[i]
    ensures forall i :: 0 <= i < n && t[i].status == Started ==>
      AnswerAll(t, probes)[i]
      == ActionRow(t[i].key, t[i].kind, t[i].args, if probes[t[i].kind](t[i].args) then Completed else NotOccurred,
                   None, Some(Obj([])), t[i].attempts)
  {
    if t == [] || (t[0].status.Started? && t[0].kind !in probes) {
      n := 0;
    } else {
      var m := AnswersExact(t[1..], probes);
      n := m + 1;
      assert forall i :: 0 < i < |t| ==> t[i] == t[1..][i - 1];
      assert forall i :: 0 < i < |t| ==> AnswerAll(t, probes)[i] == AnswerAll(t[1..], probes)[i - 1];
    }
  }

  /** A started row now says whether its effect happened; any other row is as it was. */
  ghost predicate Told(row: ActionRow, row': ActionRow, happened: string -> bool) {
    if !row.status.Started? then row' == row
    else
      && row'.key == row.key && row'.kind == row.kind && row'.args == row.args && row'.attempts == row.attempts
      && row'.status == (if happened(row.key) then Completed else NotOccurred)
      && row'.externalId == None && row'.result == Some(Obj([]))
  }

  lemma {:induction false} AnswersTruthful(t: seq<ActionRow>, probes: Probes, happened: string -> bool)
    requires AllProbed(Uncertain(t), probes)
    requires forall row :: row in t && row.status.Started? ==>
      row.kind in probes && probes[row.kind](row.args) == happened(row.key)
    ensures var t' := AnswerAll(t, probes);
      && |t'| == |t| && Uncertain(t') == []
      && forall i :: 0 <= i < |t| ==> Told(t[i], t'[i], happened)
  {
    if t != [] {
      assert t == [t[0]] + t[1..];
      var u := Uncertain(t);
      assert u == (if t[0].status.Started? then [t[0]] else []) + Uncertain(t[1..]);
      assert t[0].status.Started? ==> u[1..] == Uncertain(t[1..]);
      assert !t[0].status.Started? ==> u == Uncertain(t[1..]);
      assert AllProbed(Uncertain(t[1..]), probes);
      AnswersTruthful(t[1..], probes, happened);
    }
  }

  /** With a truthful probe for every started kind nothing stays uncertain, and each row tells what happened. */
  lemma TruthfulProbesSettleAll(h: Hash, mid: string, r: MissionRows, probes: Probes, clock: nat -> string,
                                happened: string -> bool)
    requires UniqueKeys(r.actions)
    requires forall row :: row in r.actions && row.status.Started? ==>
      row.kind in probes && probes[row.kind](row.args) == happened(row.key)
    ensures var t := SettlePending(h, mid, r, probes, clock);
      && t.outcome == Ok(|Uncertain(r.actions)|) && Uncertain(t.rows.actions) == [] && |t.rows.actions| == |r.actions|
      && forall i :: 0 <= i < |r.actions| ==> Told(r.actions[i], t.rows.actions[i], happened)
  {
    PendingExact(h, mid, r, probes, clock);
    UncertainExact(r.actions);
    var u := Uncertain(r.actions);
    assert AllProbed(u, probes) by {
      forall i | 0 <= i < |u| ensures u[i].kind in probes { assert u[i] in u; }
    }
    AnswersTruthful(r.actions, probes, happened);
  }

  /** Killed after any number of settlements and run again, it reaches the same table. */
  lemma KillAndRerun(h: Hash, mid: string, r: MissionRows, probes: Probes, clock: nat -> string, k: nat,
                     clock': nat -> string)
    requires UniqueKeys(r.actions) && k <= |Uncertain(r.actions)|
    ensures var killed := SettleEach(h, mid, r, Uncertain(r.actions)[..k], probes, clock, 0);
      SettlePending(h, mid, killed.rows, probes, clock').rows.actions
        == SettlePending(h, mid, r, probes, clock).rows.actions
  {
    assert [] + r.actions == r.actions && [] + AnswerFirst(r.actions, probes, k) == AnswerFirst(r.actions, probes, k);
    SettleEachTable(h, mid, r, [], r.actions, probes, clock, 0, k);
    var killed := SettleEach(h, mid, r, Uncertain(r.actions)[..k], probes, clock, 0);
    AnswersKeepKeys(r.actions, probes, k);
    hide SettleEach;
    PendingExact(h, mid, r, probes, clock);
    PendingExact(h, mid, killed.rows, probes, clock');
    AnswersContinue(r.actions, probes, k);
  }
}
