/**
 The audit trail: the recorded attempt numbers of a notification are 1..r without gaps, a message at attempt k
 finds rows 1..k-1 recorded, and attempt_count keeps up with the trail.
 */
module AuditTrail {
  import opened Domain
  import opened Protocol
  import opened Agreement

  /** The handler has recorded the outcome of its attempt. */
  predicate HasRecorded(pc: Pc) {
    match pc
    case RecordedOk => true
    case MarkedSent => true
    case RecordedFail(_) => true
    case DlqPublished => true
    case ReadyToAck(why) => why != Skipped && why != Missing
    case Done(why) => why != Skipped && why != Missing
    case _ => false
  }

  /** The handler has counted a failed attempt. */
  predicate HasCounted(pc: Pc) {
    match pc
    case Counted(_) => true
    case RecordedFail(_) => true
    case DlqPublished => true
    case ReadyToAck(why) => why == Retried || why == Parked
    case Done(why) => why == Retried || why == Parked
    case _ => false
  }

  ghost predicate RowTrail(cfg: Config, s: State, k: (Id, nat))
    requires k in s.attempts && k.0 in s.rows
  {
    && 1 <= k.1 <= Retries(cfg) + 1
    && (k.1 > 1 ==> (k.0, k.1 - 1) in s.attempts)
    && k.1 <= s.rows[k.0].attemptCount + 1
  }

  ghost predicate CopyTrail(s: State, c: Copy)
    requires c.body.id in s.rows && c.body.attempt >= 1
  {
    && (c.body.attempt > 1 ==> (c.body.id, c.body.attempt - 1) in s.attempts)
    && s.rows[c.body.id].attemptCount >= c.body.attempt - 1
    && (c.place.DeadLetter? ==> (c.body.id, c.body.attempt) in s.attempts)
    && (c.place.Unacked? ==>
          && (HasRecorded(c.place.pc) ==> (c.body.id, c.body.attempt) in s.attempts)
          && (HasCounted(c.place.pc) ==> s.rows[c.body.id].attemptCount >= c.body.attempt))
  }

  ghost predicate Trail(cfg: Config, s: State)
    requires Agreed(cfg, s)
  {
    && (forall k :: k in s.attempts ==> RowTrail(cfg, s, k))
    && (forall t :: 0 <= t < |s.copies| ==> CopyOk(cfg, s, s.copies[t]) && CopyTrail(s, s.copies[t]))
  }

  lemma AttemptsGrow(cfg: Config, s: State, a: Action)
    requires Enabled(cfg, s, a)
    ensures s.attempts.Keys <= Apply(cfg, s, a).attempts.Keys
  {
  }

  lemma NewAttempt(cfg: Config, s: State, a: Action, k: (Id, nat))
    requires Enabled(cfg, s, a) && k in Apply(cfg, s, a).attempts && k !in s.attempts
    ensures a.Handle? && k == (s.copies[a.copy].body.id, s.copies[a.copy].body.attempt)
  {
  }

  lemma RowTrailStep(cfg: Config, s: State, a: Action, k: (Id, nat))
    requires Agreed(cfg, s) && Trail(cfg, s) && Enabled(cfg, s, a)
    requires k in Apply(cfg, s, a).attempts && k.0 in Apply(cfg, s, a).rows
    ensures RowTrail(cfg, Apply(cfg, s, a), k)
  {
    StepKeepsRows(cfg, s, a);
    AttemptsGrow(cfg, s, a);
    if k in s.attempts {
      assert RowTrail(cfg, s, k);
    } else {
      NewAttempt(cfg, s, a, k);
      assert CopyOk(cfg, s, s.copies[a.copy]) && CopyTrail(s, s.copies[a.copy]);
    }
  }

  lemma TrailStays(cfg: Config, s: State, a: Action, c: Copy)
    requires Agreed(cfg, s) && Enabled(cfg, s, a) && CopyOk(cfg, s, c) && CopyTrail(s, c)
    ensures c.body.id in Apply(cfg, s, a).rows && CopyTrail(Apply(cfg, s, a), c)
  {
    StepKeepsRows(cfg, s, a);
    AttemptsGrow(cfg, s, a);
  }

  lemma HandledTrail(cfg: Config, s: State, t: nat, o: Outcome)
    requires Agreed(cfg, s) && Trail(cfg, s) && Enabled(cfg, s, Handle(t, o))
    ensures var s' := HandleStep(cfg, s, t, o); s'.copies[t].body.id in s'.rows && CopyTrail(s', s'.copies[t])
  {
    assert CopyOk(cfg, s, s.copies[t]) && CopyTrail(s, s.copies[t]);
  }

  lemma FlushedTrail(cfg: Config, s: State, t: nat)
    requires Agreed(cfg, s) && Trail(cfg, s) && Enabled(cfg, s, Flush(t))
    ensures var s' := Apply(cfg, s, Flush(t));
            s'.copies[t].body.id in s'.rows && s'.copies[t].body.attempt >= 1 && CopyTrail(s', s'.copies[t])
  {
    assert CopyOk(cfg, s, s.copies[t]) && CopyTrail(s, s.copies[t]);
  }

  lemma PublishedTrail(cfg: Config, s: State, t: nat)
    requires Agreed(cfg, s) && Trail(cfg, s) && Enabled(cfg, s, Flush(t))
    requires |Apply(cfg, s, Flush(t)).copies| > |s.copies|
    ensures var s' := Apply(cfg, s, Flush(t));
            var c := s'.copies[|s.copies|];
            c.body.id in s'.rows && c.body.attempt >= 1 && CopyTrail(s', c)
  {
    assert CopyOk(cfg, s, s.copies[t]) && CopyTrail(s, s.copies[t]);
  }

  /** Other actions leave a copy where it is, or move it to a place that promises less. */
  lemma OtherMovesKeepTrail(cfg: Config, s: State, a: Action, t: nat)
    requires Enabled(cfg, s, a) && t < |s.copies|
    requires a != Flush(t) && !(a.Handle? && a.copy == t)
    ensures var c, d := s.copies[t], Apply(cfg, s, a).copies[t];
            d == c || (d.body == c.body && !d.place.DeadLetter? && (d.place.Unacked? ==> d.place.pc.Received?))
  {
  }

  lemma OldCopyTrail(cfg: Config, s: State, a: Action, t: nat)
    requires Agreed(cfg, s) && Trail(cfg, s) && Enabled(cfg, s, a) && t < |s.copies|
    requires a != Flush(t) && !(a.Handle? && a.copy == t)
    ensures var s' := Apply(cfg, s, a);
            s'.copies[t].body.id in s'.rows && s'.copies[t].body.attempt >= 1 && CopyTrail(s', s'.copies[t])
  {
    assert CopyOk(cfg, s, s.copies[t]) && CopyTrail(s, s.copies[t]);
    TrailStays(cfg, s, a, s.copies[t]);
    OtherMovesKeepTrail(cfg, s, a, t);
  }

  /** A copy that a step adds comes from the broker's side of a publish. */
  lemma NewCopy(cfg: Config, s: State, a: Action)
    requires Enabled(cfg, s, a) && |Apply(cfg, s, a).copies| > |s.copies|
    ensures |Apply(cfg, s, a).copies| == |s.copies| + 1
    ensures a.Flush? || (a.FlushPost? && Apply(cfg, s, a).copies[|s.copies|].body.attempt == 1
                                      && Apply(cfg, s, a).copies[|s.copies|].place.Main?)
  {
  }

  lemma CopyTrailStep(cfg: Config, s: State, a: Action, t: nat)
    requires Agreed(cfg, s) && Trail(cfg, s) && Enabled(cfg, s, a)
    requires t < |Apply(cfg, s, a).copies| && CopyOk(cfg, Apply(cfg, s, a), Apply(cfg, s, a).copies[t])
    ensures CopyTrail(Apply(cfg, s, a), Apply(cfg, s, a).copies[t])
  {
    if a == Flush(t) {
      FlushedTrail(cfg, s, t);
    } else if a.Handle? && a.copy == t {
      HandledTrail(cfg, s, t, a.outcome);
    } else if t < |s.copies| {
      OldCopyTrail(cfg, s, a, t);
    } else {
      NewCopy(cfg, s, a);
      if a.Flush? {
        PublishedTrail(cfg, s, a.copy);
      }
    }
  }

  lemma TrailStep(cfg: Config, s: State, a: Action)
    requires Agreed(cfg, s) && Trail(cfg, s) && Enabled(cfg, s, a)
    ensures Agreed(cfg, Apply(cfg, s, a)) && Trail(cfg, Apply(cfg, s, a))
  {
    var s' := Apply(cfg, s, a);
    AgreedStep(cfg, s, a);
    forall k | k in s'.attempts ensures RowTrail(cfg, s', k) {
      RowTrailStep(cfg, s, a, k);
    }
    forall t | 0 <= t < |s'.copies| ensures CopyTrail(s', s'.copies[t]) {
      CopyTrailStep(cfg, s, a, t);
    }
  }

  lemma {:induction false} TrailRun(cfg: Config, acts: seq<Action>)
    requires Exec(cfg, Init(), acts).Some?
    ensures Agreed(cfg, Exec(cfg, Init(), acts).value) && Trail(cfg, Exec(cfg, Init(), acts).value)
  {
    if acts != [] {
      LastStep(cfg, Init(), acts);
      TrailRun(cfg, acts[..|acts| - 1]);
      TrailStep(cfg, Exec(cfg, Init(), acts[..|acts| - 1]).value, acts[|acts| - 1]);
    }
  }

  // ---------------------------------------------------------------- main results

  /** The recorded attempts of `id` are exactly 1..r. */
  ghost predicate RecordedUpTo(s: State, id: Id, r: nat) {
    forall k: nat :: (id, k) in s.attempts <==> 1 <= k <= r
  }

  lemma {:induction false} ClosedDownward(cfg: Config, s: State, id: Id, k: nat, j: nat)
    requires Agreed(cfg, s) && Trail(cfg, s) && (id, k) in s.attempts && 1 <= j <= k
    ensures (id, j) in s.attempts
    decreases k
  {
    assert RowTrail(cfg, s, (id, k));
    if j < k {
      ClosedDownward(cfg, s, id, k - 1, j);
    }
  }

  /** The length of the trail, looked for from `bound` downward. */
  ghost function TrailLength(s: State, id: Id, bound: nat): nat {
    if bound == 0 || (id, bound) in s.attempts then bound else TrailLength(s, id, bound - 1)
  }

  lemma {:induction false} TrailLengthIsLast(s: State, id: Id, bound: nat)
    ensures TrailLength(s, id, bound) <= bound
    ensures TrailLength(s, id, bound) > 0 ==> (id, TrailLength(s, id, bound)) in s.attempts
    ensures forall k: nat :: TrailLength(s, id, bound) < k <= bound ==> (id, k) !in s.attempts
  {
    if bound > 0 && (id, bound) !in s.attempts {
      TrailLengthIsLast(s, id, bound - 1);
    }
  }

  /** The recorded attempts of `id` are 1..r for one r, and messages and attempt_count keep up with them. */
  ghost predicate GapFree(cfg: Config, s: State, id: Id, r: nat)
    requires id in s.rows
  {
    && RecordedUpTo(s, id, r)
    && r <= Retries(cfg) + 1
    && r <= s.rows[id].attemptCount + 1
    && (forall t :: 0 <= t < |s.copies| && s.copies[t].body.id == id ==>
          && s.copies[t].body.attempt - 1 <= r
          && s.copies[t].body.attempt - 1 <= s.rows[id].attemptCount
          && (s.copies[t].place.DeadLetter? ==> s.copies[t].body.attempt <= r))
  }

  lemma TrailIsGapFree(cfg: Config, s: State, id: Id) returns (r: nat)
    requires Agreed(cfg, s) && Trail(cfg, s) && id in s.rows
    ensures GapFree(cfg, s, id, r)
  {
    r := TrailLength(s, id, Retries(cfg) + 1);
    TrailLengthIsLast(s, id, Retries(cfg) + 1);
    forall k: nat ensures (id, k) in s.attempts <==> 1 <= k <= r {
      if (id, k) in s.attempts {
        assert RowTrail(cfg, s, (id, k));
      }
      if 1 <= k <= r {
        ClosedDownward(cfg, s, id, r, k);
      }
    }
    if r > 0 {
      assert RowTrail(cfg, s, (id, r));
    }
    forall t | 0 <= t < |s.copies| && s.copies[t].body.id == id
      ensures s.copies[t].body.attempt - 1 <= r
      ensures s.copies[t].body.attempt - 1 <= s.rows[id].attemptCount
      ensures s.copies[t].place.DeadLetter? ==> s.copies[t].body.attempt <= r
    {
      assert CopyOk(cfg, s, s.copies[t]) && CopyTrail(s, s.copies[t]);
    }
  }

  /**
   In every reachable state the attempt rows of a notification are 1..r for one r, no longer than the ladder and
   at most one ahead of attempt_count; every message at attempt k has rows 1..k-1 behind it, and every message in
   the dead-letter queue has its own row.
   */
  lemma GapFreeTrail(cfg: Config, acts: seq<Action>, id: Id) returns (r: nat)
    requires Exec(cfg, Init(), acts).Some? && id in Exec(cfg, Init(), acts).value.rows
    ensures GapFree(cfg, Exec(cfg, Init(), acts).value, id, r)
  {
    TrailRun(cfg, acts);
    r := TrailIsGapFree(cfg, Exec(cfg, Init(), acts).value, id);
  }

  predicate Final(status: Status) { status.Sent? || status.DeadLettered? }

  /** A status becomes final only after an attempt was recorded. */
  lemma FinalStep(cfg: Config, s: State, a: Action, id: Id)
    requires Agreed(cfg, s) && Trail(cfg, s) && Enabled(cfg, s, a)
    requires id in Apply(cfg, s, a).rows && Final(Apply(cfg, s, a).rows[id].status)
    requires id in s.rows ==> !Final(s.rows[id].status)
    ensures exists k: nat :: k >= 1 && (id, k) in s.attempts
  {
    assert a.Handle? && s.copies[a.copy].body.id == id;
    assert CopyOk(cfg, s, s.copies[a.copy]) && CopyTrail(s, s.copies[a.copy]);
    assert (id, s.copies[a.copy].body.attempt) in s.attempts;
  }

  /** Record before mark: in every reachable state a notification that is SENT or DEAD_LETTERED has its attempt 1. */
  lemma {:induction false} FinalIsRecorded(cfg: Config, acts: seq<Action>, id: Id)
    requires Exec(cfg, Init(), acts).Some? && id in Exec(cfg, Init(), acts).value.rows
    requires Final(Exec(cfg, Init(), acts).value.rows[id].status)
    ensures (id, 1) in Exec(cfg, Init(), acts).value.attempts
    decreases |acts|
  {
    LastStep(cfg, Init(), acts);
    var n := |acts| - 1;
    var s := Exec(cfg, Init(), acts[..n]).value;
    AttemptsGrow(cfg, s, acts[n]);
    if id in s.rows && Final(s.rows[id].status) {
      FinalIsRecorded(cfg, acts[..n], id);
    } else {
      TrailRun(cfg, acts[..n]);
      FinalStep(cfg, s, acts[n], id);
      var k: nat :| k >= 1 && (id, k) in s.attempts;
      ClosedDownward(cfg, s, id, k, 1);
    }
  }
}
