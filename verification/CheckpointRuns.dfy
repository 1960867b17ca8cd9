/** In every run each checkpoint is the projection of exactly the log prefix it names. */
module CheckpointRuns {
  import opened Prelude
  import opened Json
  import opened Models
  import opened Chain
  import opened Projection
  import opened Rows
  import opened Ledger
  import opened Recovery
  import opened Closing
  import opened Runs

  /** The text is the state of the first `n` events. */
  ghost predicate PictureOf(es: seq<Event>, n: int, payload: string) {
    1 <= n <= |es| && HasStart(es) && payload == Canonical(StateJson(State(es[..n])))
  }

  ghost predicate CheckpointsRight(h: Hash, s: Sys) {
    && (forall i :: 0 <= i < |s.rows.checkpoints| ==>
          var c := s.rows.checkpoints[i]; PictureOf(s.rows.events, c.sequence, c.payload) && c.digest == h(c.payload))
    && (forall i, j :: 0 <= i < j < |s.rows.checkpoints| ==>
      s.rows.checkpoints[i].sequence != s.rows.checkpoints[j].sequence)
    && (forall pid :: pid in s.pending && s.pending[pid].CheckpointTaken? ==>
          PictureOf(s.rows.events, s.pending[pid].sequence, s.pending[pid].payload))
  }

  lemma PictureStays(es: seq<Event>, es': seq<Event>, n: int, payload: string)
    requires PictureOf(es, n, payload) && es <= es'
    ensures PictureOf(es', n, payload)
  {
    assert es'[..n] == es[..n];
  }

  lemma TakenFrom(h: Hash, mid: string, s: Sys, op: Op, pid: nat)
    requires var s' := Apply(h, mid, s, op); pid in s'.pending && s'.pending[pid].CheckpointTaken?
    ensures var s' := Apply(h, mid, s, op);
      || (pid in s.pending && s.pending[pid] == s'.pending[pid])
      || (op.ReadCheckpoint? && s'.rows == s.rows
          && CheckpointRead(s.rows.events) == Ok((s'.pending[pid].sequence, s'.pending[pid].payload)))
  {
    hide Recorded, Report, ModeOf, ApprovalDigest, Fits, IsMissionId, CheckpointRead, CloseRead, HasStart, Claim,
      Complete, Reconcile,
      RequestApproval, Approve, CreateMission, Append, CheckpointWrite;
  }

  lemma CheckpointsFrom(h: Hash, mid: string, s: Sys, op: Op)
    ensures var cs, cs' := s.rows.checkpoints, Apply(h, mid, s, op).rows.checkpoints;
      || cs' == cs
      || exists pid :: pid in s.pending && s.pending[pid].CheckpointTaken?
           && (forall i :: 0 <= i < |cs| ==> cs[i].sequence != s.pending[pid].sequence)
           && var p := s.pending[pid]; cs' == cs + [CheckpointRow(p.sequence, p.payload, h(p.payload), p.reason)]
  {
    hide NewEvent, Report, ModeOf, ApprovalDigest, Fits, IsMissionId, CheckpointRead, CloseRead, HasStart, Claimed,
      Settled, MayClaim;
  }

  lemma ReadIsPicture(h: Hash, r: MissionRows, p: Pending)
    requires p.CheckpointTaken? && CheckpointRead(r.events) == Ok((p.sequence, p.payload)) && Numbered(r.events)
    ensures PictureOf(r.events, p.sequence, p.payload)
  {
    hide Canonical, StateJson, State;
    assert r.events[..|r.events|] == r.events;
  }

  lemma ApplyCheckpointsRight(h: Hash, mid: string, s: Sys, op: Op)
    requires Live(h, mid, s) && CheckpointsRight(h, s)
    ensures CheckpointsRight(h, Apply(h, mid, s, op))
  {
    hide Live, Apply, EventOf, CheckpointRead, PictureOf;
    ApplyGrows(h, mid, s, op);
    NumberedBefore(h, mid, s);
    var s' := Apply(h, mid, s, op);
    var es, es' := s.rows.events, s'.rows.events;
    CheckpointsFrom(h, mid, s, op);
    forall n, payload | PictureOf(es, n, payload) ensures PictureOf(es', n, payload) {
      PictureStays(es, es', n, payload);
    }
    forall pid | pid in s'.pending && s'.pending[pid].CheckpointTaken?
      ensures PictureOf(es', s'.pending[pid].sequence, s'.pending[pid].payload)
    {
      TakenFrom(h, mid, s, op, pid);
      if !(pid in s.pending && s.pending[pid] == s'.pending[pid]) { ReadIsPicture(h, s.rows, s'.pending[pid]); }
    }
  }

  lemma NumberedBefore(h: Hash, mid: string, s: Sys)
    requires Live(h, mid, s)
    ensures Numbered(s.rows.events)
  {
    LiveVerifies(h, mid, s);
  }

  lemma {:induction false} ExecCheckpointsRight(h: Hash, mid: string, s: Sys, ops: seq<Op>)
    requires Live(h, mid, s) && CheckpointsRight(h, s)
    ensures CheckpointsRight(h, Exec(h, mid, s, ops))
    decreases ops
  {
    hide CheckpointsRight, Apply;
    if ops != [] {
      ApplyLive(h, mid, s, ops[0]);
      ApplyCheckpointsRight(h, mid, s, ops[0]);
      ExecCheckpointsRight(h, mid, Apply(h, mid, s, ops[0]), ops[1..]);
    }
  }

  // ---- restoring -------------------------------------------------------------------------------

  lemma {:induction false} SplitAt(es: seq<Event>, first: nat, n: int)
    requires forall i :: 0 <= i < |es| ==> es[i].sequence == first + i + 1
    requires first <= n <= first + |es|
    ensures UpTo(es, n) == es[..n - first] && Beyond(es, n) == es[n - first..]
  {
    if es != [] {
      assert es[0].sequence == first + 1;
      forall i | 0 <= i < |es[1..]| ensures es[1..][i].sequence == first + 1 + i + 1 { assert es[1..][i] == es[i + 1]; }
      if n == first {
        AllBeyond(es, n);
      } else {
        SplitAt(es[1..], first + 1, n);
        assert es[..n - first] == [es[0]] + es[1..][..n - first - 1];
      }
    }
  }

  lemma {:induction false} AllBeyond(es: seq<Event>, n: int)
    requires forall i :: 0 <= i < |es| ==> es[i].sequence > n
    ensures UpTo(es, n) == [] && Beyond(es, n) == es
  {
    if es != [] { AllBeyond(es[1..], n); }
  }

  lemma {:induction false} LatestExact(cs: seq<CheckpointRow>)
    ensures Latest(cs).None? <==> cs == []
    ensures Latest(cs).Some? ==> Latest(cs).value in cs && forall c :: c in cs ==>
      c.sequence <= Latest(cs).value.sequence
  {
    if cs != [] {
      LatestExact(cs[1..]);
      assert cs == [cs[0]] + cs[1..];
    }
  }

  lemma {:induction false} CheckpointAtExact(cs: seq<CheckpointRow>, n: int)
    ensures CheckpointAt(cs, n).Some? ==> CheckpointAt(cs, n).value in cs && CheckpointAt(cs, n).value.sequence == n
    ensures CheckpointAt(cs, n).None? <==> forall c :: c in cs ==> c.sequence != n
  {
    if cs != [] {
      CheckpointAtExact(cs[1..], n);
      assert cs == [cs[0]] + cs[1..];
    }
  }

  /** What a restored mission is, given the rows it was restored from. */
  ghost predicate PointInTime(r: MissionRows, back: Restored) {
    var n := back.checkpoint.sequence;
    && 1 <= n <= |r.events| && HasStart(r.events) && back.state == State(r.events[..n])
    && back.checkpoint.payload == Canonical(StateJson(back.state))
    && back.replayedEvents == |r.events| - n
    && back.currentState == State(r.events) == Replay(back.state, r.events[n..])
    && back.state.completed <= back.currentState.completed
    && Pictures(r.events[..n], back.state) && Pictures(r.events, back.currentState)
  }

  ghost predicate IsChosen(cs: seq<CheckpointRow>, sequence: Option<int>, c: CheckpointRow) {
    c in cs && if sequence.Some? then c.sequence == sequence.value else forall d :: d in cs ==> d.sequence <= c.sequence
  }

  lemma ChosenExact(cs: seq<CheckpointRow>, sequence: Option<int>)
    ensures Chosen(cs, sequence).Some? ==> IsChosen(cs, sequence, Chosen(cs, sequence).value)
    ensures Chosen(cs, sequence).None?
            <==> if sequence.Some? then forall c :: c in cs ==> c.sequence != sequence.value else cs == []
  {
    LatestExact(cs);
    if sequence.Some? { CheckpointAtExact(cs, sequence.value); }
  }

  lemma RestoreOne(h: Hash, r: MissionRows, sequence: Option<int>, c: CheckpointRow)
    requires Chosen(r.checkpoints, sequence) == Some(c) && c.digest == h(c.payload)
    requires Numbered(r.events) && PictureOf(r.events, c.sequence, c.payload)
    ensures var t := Restore(h, r, sequence); t.Ok? && t.value.checkpoint == c && PointInTime(r, t.value)
  {
    hide State, Canonical, StateJson, Pictures, Latest, CheckpointAt;
    var n := c.sequence;
    SplitAt(r.events, 0, n);
    assert r.events == r.events[..n] + r.events[n..];
    StateAppend(r.events[..n], r.events[n..]);
    ReplayGrows(State(r.events[..n]), r.events[n..]);
    StatePictures(r.events[..n]);
    StatePictures(r.events);
  }

  /**
   Of any stored rows: no such checkpoint is a KeyError, a payload that is not what its
   digest was taken of a RuntimeError, and a log without a start up to it a ValueError.
   */
  lemma RestoreExact(h: Hash, r: MissionRows, sequence: Option<int>)
    requires Numbered(r.events)
    ensures var t := Restore(h, r, sequence);
      && (t == Raised(KeyError) <==>
            if sequence.Some? then forall c :: c in r.checkpoints ==> c.sequence != sequence.value
            else r.checkpoints == [])
      && (t == Raised(RuntimeError) <==>
            Chosen(r.checkpoints, sequence).Some? && var c := Chosen(r.checkpoints, sequence).value;
            IsChosen(r.checkpoints, sequence, c) && h(c.payload) != c.digest)
      && (t == Raised(ValueError) <==>
            Chosen(r.checkpoints, sequence).Some? && var c := Chosen(r.checkpoints, sequence).value;
            h(c.payload) == c.digest && (c.sequence < 1 || !HasStart(r.events)))
      && (t.Raised? ==> t.error in {KeyError, RuntimeError, ValueError})
      && (t.Ok? ==>
            var c, n := t.value.checkpoint, Least(t.value.checkpoint.sequence, |r.events|);
            && IsChosen(r.checkpoints, sequence, c) && h(c.payload) == c.digest && c.sequence >= 1
            && Pictures(r.events[..n], t.value.state) && Pictures(r.events, t.value.currentState)
            && t.value.replayedEvents == |r.events| - n)
  {
    hide State, Latest, CheckpointAt, Pictures, IsChosen;
    ChosenExact(r.checkpoints, sequence);
    if Chosen(r.checkpoints, sequence).Some? {
      var c := Chosen(r.checkpoints, sequence).value;
      UpToNumbered(r.events, c.sequence);
      if c.sequence >= 1 && HasStart(r.events) {
        StatePictures(r.events[..Least(c.sequence, |r.events|)]);
        StatePictures(r.events);
      }
    }
  }

  function Least(n: int, m: int): int {
    if n < m then n else m
  }

  lemma {:induction false} AllUpTo(es: seq<Event>, n: int)
    requires forall i :: 0 <= i < |es| ==> es[i].sequence <= n
    ensures UpTo(es, n) == es && Beyond(es, n) == []
  {
    if es != [] {
      AllUpTo(es[1..], n);
      assert es == [es[0]] + es[1..];
    }
  }

  lemma UpToNumbered(es: seq<Event>, n: int)
    requires Numbered(es)
    ensures n < 1 ==> UpTo(es, n) == []
    ensures n >= 1 ==> var k := Least(n, |es|); UpTo(es, n) == es[..k] && |Beyond(es, n)| == |es| - k
    ensures HasStart(es) && n >= 1 ==> HasStart(UpTo(es, n))
  {
    if n < 1 {
      AllBeyond(es, n);
    } else if n <= |es| {
      SplitAt(es, 0, n);
    } else {
      AllUpTo(es, n);
      assert es[..|es|] == es;
    }
  }

  /**
   In every run: restoring fails exactly when the checkpoint does not exist; the
   restored state is the state of the prefix the checkpoint names, is the state
   the checkpoint stored, and replaying the remaining events onto it gives the
   current state, with the completed items only growing.
   */
  lemma RestoreIsPointInTime(h: Hash, mid: string, ops: seq<Op>, sequence: Option<int>)
    ensures var r := Exec(h, mid, START, ops).rows;
      var t := Restore(h, r, sequence);
      && (t.Raised? <==>
            if sequence.Some? then forall c :: c in r.checkpoints ==> c.sequence != sequence.value
            else r.checkpoints == [])
      && (t.Raised? ==> t.error == KeyError)
      && (t.Ok? ==> IsChosen(r.checkpoints, sequence, t.value.checkpoint) && PointInTime(r, t.value))
  {
    hide Apply, Report, State, PointInTime, Canonical, StateJson, IsChosen, PictureOf;
    StartLive(h, mid);
    assert CheckpointsRight(h, START);
    ExecLive(h, mid, START, ops);
    ExecCheckpointsRight(h, mid, START, ops);
    var s := Exec(h, mid, START, ops);
    var r := s.rows;
    ChosenExact(r.checkpoints, sequence);
    if Chosen(r.checkpoints, sequence).Some? {
      var c := Chosen(r.checkpoints, sequence).value;
      ChosenIsRow(r.checkpoints, sequence, c);
      var i :| 0 <= i < |r.checkpoints| && r.checkpoints[i] == c;
      NumberedBefore(h, mid, s);
      RestoreOne(h, r, sequence, c);
    }
  }

  lemma ChosenIsRow(cs: seq<CheckpointRow>, sequence: Option<int>, c: CheckpointRow)
    requires IsChosen(cs, sequence, c)
    ensures c in cs
  {
  }
}
