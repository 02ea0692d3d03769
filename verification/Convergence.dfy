/**
 No accepted message is lost. While a published notification is undecided, some copy still owes it an attempt;
 once nothing is in motion it is SENT, or DEAD_LETTERED with a copy in the dead-letter queue.
 */
module Convergence {
  import opened Domain
  import opened Protocol
  import opened Agreement

  /** The configuration condition: every retry the worker may publish has a declared queue. */
  predicate LadderCoversRetries(cfg: Config) {
    cfg.maxRetries <= |cfg.retryDelaysMs|
  }

  /** A handler that has still to decide the notification: it is before its last status write. */
  predicate Undecided(pc: Pc) {
    !pc.MarkedSent? && !pc.ReadyToAck? && !pc.Done?
  }

  predicate UnsentRetry(unsent: seq<Frame>) { unsent != [] && unsent[0].PublishRetry? }

  predicate UnsentDlq(unsent: seq<Frame>) { unsent != [] && unsent[0].PublishDlq? }

  /** The copy will cause another attempt or status write, whatever happens to its worker. */
  predicate Owes(c: Copy) {
    c.place.Main? || c.place.Retry? ||
    (c.place.Unacked? && (Undecided(c.place.pc) || UnsentRetry(c.place.unsent)))
  }

  /** The copy is in the dead-letter queue, or its handler's publish to that queue is still on the way. */
  predicate HeldForOperator(c: Copy) {
    c.place.DeadLetter? || (c.place.Unacked? && UnsentDlq(c.place.unsent))
  }

  predicate Covers(c: Copy, id: Id, status: Status) {
    c.body.id == id && (Owes(c) || (status.DeadLettered? && HeldForOperator(c)))
  }

  ghost predicate Covered(s: State, id: Id)
    requires id in s.rows
  {
    s.rows[id].status.Sent? || exists t :: 0 <= t < |s.copies| && Covers(s.copies[t], id, s.rows[id].status)
  }

  ghost predicate InDlq(s: State, id: Id) {
    exists t :: 0 <= t < |s.copies| && s.copies[t].body.id == id && s.copies[t].place.DeadLetter?
  }

  /** A handler whose DLQ publish has left the socket has a copy in the queue to show for it. */
  predicate ParkedAndSent(c: Copy) {
    c.place.Unacked? && c.place.pc.DlqPublished? && c.place.unsent == []
  }

  predicate LiveStatus(status: Status) {
    status.Pending? || status.Processing? || status.Sent? || status.DeadLettered?
  }

  ghost predicate NothingLost(s: State) {
    && (forall id :: id in s.rows && TallyOf(s, id).published > 0 ==> Covered(s, id))
    && (forall id :: id in s.rows ==> LiveStatus(s.rows[id].status))
    && (forall t :: 0 <= t < |s.copies| && ParkedAndSent(s.copies[t]) ==> InDlq(s, s.copies[t].body.id))
    && (forall id :: TallyOf(s, id).published > 0 ==> id in s.rows)
  }

  lemma InDlqStays(cfg: Config, s: State, a: Action, id: Id)
    requires Enabled(cfg, s, a) && InDlq(s, id)
    ensures InDlq(Apply(cfg, s, a), id)
  {
    var t :| 0 <= t < |s.copies| && s.copies[t].body.id == id && s.copies[t].place.DeadLetter?;
    assert Apply(cfg, s, a).copies[t] == s.copies[t];
  }

  /** A copy that an action does not touch goes on covering its notification. */
  lemma WitnessStays(cfg: Config, s: State, a: Action, id: Id, t: nat)
    requires Enabled(cfg, s, a) && id in s.rows && t < |s.copies| && Covers(s.copies[t], id, s.rows[id].status)
    requires Apply(cfg, s, a).copies[t] == s.copies[t]
    requires id in Apply(cfg, s, a).rows && Apply(cfg, s, a).rows[id].status == s.rows[id].status
    ensures Covered(Apply(cfg, s, a), id)
  {
    assert Covers(Apply(cfg, s, a).copies[t], id, Apply(cfg, s, a).rows[id].status);
  }

  lemma HandleKeepsCovered(cfg: Config, s: State, t: nat, o: Outcome, id: Id)
    requires Agreed(cfg, s) && NothingLost(s) && Enabled(cfg, s, Handle(t, o))
    requires id in s.rows && Covered(s, id)
    ensures Covered(Apply(cfg, s, Handle(t, o)), id)
  {
    var s' := Apply(cfg, s, Handle(t, o));
    var c := s.copies[t];
    assert CopyOk(cfg, s, c);
    if c.body.id == id && c.place.pc.DlqPublished? {
      if c.place.unsent == [] {
        assert ParkedAndSent(c);
        InDlqStays(cfg, s, Handle(t, o), id);
        var d :| 0 <= d < |s'.copies| && s'.copies[d].body.id == id && s'.copies[d].place.DeadLetter?;
        assert Covers(s'.copies[d], id, s'.rows[id].status);
      } else {
        assert Covers(s'.copies[t], id, s'.rows[id].status);
      }
    } else if c.body.id == id && Owes(s'.copies[t]) {
      assert Covers(s'.copies[t], id, s'.rows[id].status);
    } else if s'.rows[id].status.Sent? {
    } else {
      assert s'.rows[id].status == s.rows[id].status;
      var x :| 0 <= x < |s.copies| && Covers(s.copies[x], id, s.rows[id].status);
      if x == t {
        assert Covers(s'.copies[t], id, s'.rows[id].status);
      } else {
        WitnessStays(cfg, s, Handle(t, o), id, x);
      }
    }
  }

  lemma FlushKeepsCovered(cfg: Config, s: State, t: nat, id: Id)
    requires LadderCoversRetries(cfg)
    requires Agreed(cfg, s) && Enabled(cfg, s, Flush(t))
    requires id in s.rows && Covered(s, id)
    ensures Covered(Apply(cfg, s, Flush(t)), id)
  {
    var s' := Apply(cfg, s, Flush(t));
    assert CopyOk(cfg, s, s.copies[t]);
    if !s.rows[id].status.Sent? {
      var x :| 0 <= x < |s.copies| && Covers(s.copies[x], id, s.rows[id].status);
      if x != t {
        WitnessStays(cfg, s, Flush(t), id, x);
      } else if !s.copies[t].place.unsent[0].Ack? {
        var n := |s.copies|;
        assert s'.copies[n].body.id == id;
        if Owes(s'.copies[t]) {
          assert Covers(s'.copies[t], id, s'.rows[id].status);
        } else {
          assert Covers(s'.copies[n], id, s'.rows[id].status);
        }
      }
    }
  }

  /** Only a handler's statement changes a row that exists. */
  lemma OnlyHandlersChangeRows(cfg: Config, s: State, a: Action, id: Id)
    requires Enabled(cfg, s, a) && !a.Handle? && id in s.rows
    ensures id in Apply(cfg, s, a).rows && Apply(cfg, s, a).rows[id] == s.rows[id]
  {
  }

  lemma PublishedCount(cfg: Config, s: State, a: Action, id: Id)
    requires Enabled(cfg, s, a)
    ensures TallyOf(Apply(cfg, s, a), id).published == TallyOf(s, id).published +
            if a.FlushPost? && s.posts[a.post].stage.id == id then 1 else 0
  {
  }

  lemma FirstPublishCovers(cfg: Config, s: State, a: Action, id: Id)
    requires Enabled(cfg, s, a) && a.FlushPost? && s.posts[a.post].stage.id == id
    requires id in s.rows
    ensures Covered(Apply(cfg, s, a), id)
  {
    var s' := Apply(cfg, s, a);
    assert Covers(s'.copies[|s.copies|], id, s'.rows[id].status);
  }

  lemma OtherwiseKeepsCovered(cfg: Config, s: State, a: Action, id: Id)
    requires Enabled(cfg, s, a) && !a.Handle? && !a.Flush?
    requires id in s.rows && Covered(s, id)
    ensures id in Apply(cfg, s, a).rows && Covered(Apply(cfg, s, a), id)
  {
    var s' := Apply(cfg, s, a);
    OnlyHandlersChangeRows(cfg, s, a, id);
    if !s.rows[id].status.Sent? {
      var x :| 0 <= x < |s.copies| && Covers(s.copies[x], id, s.rows[id].status);
      assert Covers(s'.copies[x], id, s'.rows[id].status);
    }
  }

  lemma CoveredStep(cfg: Config, s: State, a: Action, id: Id)
    requires LadderCoversRetries(cfg)
    requires Agreed(cfg, s) && NothingLost(s) && Enabled(cfg, s, a)
    requires id in Apply(cfg, s, a).rows && TallyOf(Apply(cfg, s, a), id).published > 0
    ensures Covered(Apply(cfg, s, a), id)
  {
    PublishedCount(cfg, s, a, id);
    if a.FlushPost? && s.posts[a.post].stage.id == id {
      assert StageOk(s.rows, s.posts[a.post].key, s.posts[a.post].stage);
      FirstPublishCovers(cfg, s, a, id);
    } else if a.Handle? {
      HandleKeepsCovered(cfg, s, a.copy, a.outcome, id);
    } else if a.Flush? {
      FlushKeepsCovered(cfg, s, a.copy, id);
    } else {
      OtherwiseKeepsCovered(cfg, s, a, id);
    }
  }

  lemma FlushedPark(cfg: Config, s: State, t: nat)
    requires Agreed(cfg, s) && Enabled(cfg, s, Flush(t)) && ParkedAndSent(Apply(cfg, s, Flush(t)).copies[t])
    ensures InDlq(Apply(cfg, s, Flush(t)), s.copies[t].body.id)
  {
    var s' := Apply(cfg, s, Flush(t));
    assert CopyOk(cfg, s, s.copies[t]);
    assert s'.copies[|s.copies|].place.DeadLetter?;
  }

  lemma HandledNotParked(cfg: Config, s: State, t: nat, o: Outcome)
    requires Agreed(cfg, s) && Enabled(cfg, s, Handle(t, o))
    ensures !ParkedAndSent(HandleStep(cfg, s, t, o).copies[t])
  {
    assert CopyOk(cfg, s, s.copies[t]);
  }

  lemma OtherwiseNotParked(cfg: Config, s: State, a: Action, t: nat)
    requires Enabled(cfg, s, a) && !a.Handle? && !a.Flush?
    requires t < |Apply(cfg, s, a).copies| && ParkedAndSent(Apply(cfg, s, a).copies[t])
    ensures t < |s.copies| && s.copies[t] == Apply(cfg, s, a).copies[t]
  {
  }

  lemma OtherFlushNotParked(cfg: Config, s: State, x: nat, t: nat)
    requires Enabled(cfg, s, Flush(x)) && t != x
    requires t < |Apply(cfg, s, Flush(x)).copies| && ParkedAndSent(Apply(cfg, s, Flush(x)).copies[t])
    ensures t < |s.copies| && s.copies[t] == Apply(cfg, s, Flush(x)).copies[t]
  {
  }

  lemma ParkedStep(cfg: Config, s: State, a: Action, t: nat)
    requires Agreed(cfg, s) && NothingLost(s) && Enabled(cfg, s, a)
    requires t < |Apply(cfg, s, a).copies| && ParkedAndSent(Apply(cfg, s, a).copies[t])
    ensures InDlq(Apply(cfg, s, a), Apply(cfg, s, a).copies[t].body.id)
  {
    if a == Flush(t) {
      FlushedPark(cfg, s, t);
    } else {
      if a.Handle? {
        HandledNotParked(cfg, s, a.copy, a.outcome);
      } else if a.Flush? {
        OtherFlushNotParked(cfg, s, a.copy, t);
      } else {
        OtherwiseNotParked(cfg, s, a, t);
      }
      InDlqStays(cfg, s, a, s.copies[t].body.id);
    }
  }

  lemma PublishedAreStored(cfg: Config, s: State, a: Action)
    requires Agreed(cfg, s) && NothingLost(s) && Enabled(cfg, s, a)
    ensures forall id :: TallyOf(Apply(cfg, s, a), id).published > 0 ==> id in Apply(cfg, s, a).rows
  {
    StepKeepsRows(cfg, s, a);
    if a.FlushPost? {
      assert StageOk(s.rows, s.posts[a.post].key, s.posts[a.post].stage);
    }
    forall id | TallyOf(Apply(cfg, s, a), id).published > 0 ensures id in Apply(cfg, s, a).rows {
      PublishedCount(cfg, s, a, id);
    }
  }

  lemma StatusesStayLive(cfg: Config, s: State, a: Action)
    requires NothingLost(s) && Enabled(cfg, s, a)
    ensures forall id :: id in Apply(cfg, s, a).rows ==> LiveStatus(Apply(cfg, s, a).rows[id].status)
  {
  }

  lemma NothingLostStep(cfg: Config, s: State, a: Action)
    requires LadderCoversRetries(cfg)
    requires Agreed(cfg, s) && NothingLost(s) && Enabled(cfg, s, a)
    ensures NothingLost(Apply(cfg, s, a))
  {
    var s' := Apply(cfg, s, a);
    forall id | id in s'.rows && TallyOf(s', id).published > 0 ensures Covered(s', id) {
      CoveredStep(cfg, s, a, id);
    }
    forall t | 0 <= t < |s'.copies| && ParkedAndSent(s'.copies[t]) ensures InDlq(s', s'.copies[t].body.id) {
      ParkedStep(cfg, s, a, t);
    }
    PublishedAreStored(cfg, s, a);
    StatusesStayLive(cfg, s, a);
  }

  lemma {:induction false} NothingLostRun(cfg: Config, acts: seq<Action>)
    requires LadderCoversRetries(cfg)
    requires Exec(cfg, Init(), acts).Some?
    ensures NothingLost(Exec(cfg, Init(), acts).value)
  {
    if acts != [] {
      LastStep(cfg, Init(), acts);
      NothingLostRun(cfg, acts[..|acts| - 1]);
      AgreedRun(cfg, acts[..|acts| - 1]);
      NothingLostStep(cfg, Exec(cfg, Init(), acts[..|acts| - 1]).value, acts[|acts| - 1]);
    }
  }

  // ---------------------------------------------------------------- notifications nobody published

  /** A notification with no published message is exactly as it was inserted. */
  ghost predicate UntouchedIfUnpublished(s: State) {
    && (forall t :: 0 <= t < |s.copies| ==> TallyOf(s, s.copies[t].body.id).published > 0)
    && (forall id :: id in s.rows && TallyOf(s, id).published == 0 ==>
          s.rows[id].status.Pending? && s.rows[id].attemptCount == 0 && TallyOf(s, id).outcomes == [])
    && (forall k :: k in s.attempts ==> TallyOf(s, k.0).published > 0)
    && (forall id :: id !in s.rows ==> TallyOf(s, id) == NO_TALLY)
  }

  lemma TouchedOnlyByCopies(cfg: Config, s: State, a: Action, id: Id)
    requires Agreed(cfg, s) && UntouchedIfUnpublished(s) && Enabled(cfg, s, a)
    requires TallyOf(Apply(cfg, s, a), id).published == 0
    ensures TallyOf(Apply(cfg, s, a), id) == TallyOf(s, id)
    ensures id in s.rows ==> Apply(cfg, s, a).rows[id] == s.rows[id]
  {
    PublishedCount(cfg, s, a, id);
    if a.Handle? || a.Requeue? || a.Flush? {
      assert s.copies[a.copy].body.id != id;
    } else if id in s.rows {
      OnlyHandlersChangeRows(cfg, s, a, id);
    }
  }

  lemma BodiesKept(cfg: Config, s: State, a: Action, t: nat)
    requires Enabled(cfg, s, a) && t < |s.copies|
    ensures Apply(cfg, s, a).copies[t].body == s.copies[t].body
  {
  }

  /** A new copy is a POST's message, or has the notification of the delivery whose frame created it. */
  lemma NewCopySource(cfg: Config, s: State, a: Action)
    requires Agreed(cfg, s) && Enabled(cfg, s, a) && |Apply(cfg, s, a).copies| > |s.copies|
    ensures |Apply(cfg, s, a).copies| == |s.copies| + 1
    ensures var id := Apply(cfg, s, a).copies[|s.copies|].body.id;
            (a.FlushPost? && s.posts[a.post].stage.id == id) || (a.Flush? && s.copies[a.copy].body.id == id)
  {
    if a.Flush? {
      assert CopyOk(cfg, s, s.copies[a.copy]);
    }
  }

  /** A copy has the notification of an older copy, unless a POST has just published it. */
  lemma CopySource(cfg: Config, s: State, a: Action, t: nat)
    requires Agreed(cfg, s) && Enabled(cfg, s, a) && t < |Apply(cfg, s, a).copies|
    ensures (a.FlushPost? && s.posts[a.post].stage.id == Apply(cfg, s, a).copies[t].body.id)
            || exists x :: 0 <= x < |s.copies| && s.copies[x].body.id == Apply(cfg, s, a).copies[t].body.id
  {
    if t < |s.copies| {
      BodiesKept(cfg, s, a, t);
    } else {
      NewCopySource(cfg, s, a);
    }
  }

  lemma CopiesArePublished(cfg: Config, s: State, a: Action, t: nat)
    requires Agreed(cfg, s) && UntouchedIfUnpublished(s) && Enabled(cfg, s, a)
    requires t < |Apply(cfg, s, a).copies|
    ensures TallyOf(Apply(cfg, s, a), Apply(cfg, s, a).copies[t].body.id).published > 0
  {
    var id := Apply(cfg, s, a).copies[t].body.id;
    PublishedCount(cfg, s, a, id);
    CopySource(cfg, s, a, t);
  }

  lemma RowsAppear(cfg: Config, s: State, a: Action, id: Id)
    requires Enabled(cfg, s, a) && id in Apply(cfg, s, a).rows && id !in s.rows
    ensures Apply(cfg, s, a).rows[id].status.Pending? && Apply(cfg, s, a).rows[id].attemptCount == 0
    ensures TallyOf(Apply(cfg, s, a), id) == TallyOf(s, id)
  {
  }

  lemma RecordedArePublished(cfg: Config, s: State, a: Action, k: (Id, nat))
    requires Agreed(cfg, s) && UntouchedIfUnpublished(s) && Enabled(cfg, s, a)
    requires k in Apply(cfg, s, a).attempts
    ensures TallyOf(Apply(cfg, s, a), k.0).published > 0
  {
    PublishedCount(cfg, s, a, k.0);
    if k !in s.attempts {
      assert a.Handle? && s.copies[a.copy].body.id == k.0;
    }
  }

  lemma UntouchedStep(cfg: Config, s: State, a: Action)
    requires Agreed(cfg, s) && UntouchedIfUnpublished(s) && Enabled(cfg, s, a)
    ensures UntouchedIfUnpublished(Apply(cfg, s, a))
  {
    var s' := Apply(cfg, s, a);
    forall t | 0 <= t < |s'.copies| ensures TallyOf(s', s'.copies[t].body.id).published > 0 {
      CopiesArePublished(cfg, s, a, t);
    }
    forall id | id in s'.rows && TallyOf(s', id).published == 0
      ensures s'.rows[id].status.Pending? && s'.rows[id].attemptCount == 0 && TallyOf(s', id).outcomes == []
    {
      if id in s.rows {
        TouchedOnlyByCopies(cfg, s, a, id);
      } else {
        RowsAppear(cfg, s, a, id);
      }
    }
    forall k | k in s'.attempts ensures TallyOf(s', k.0).published > 0 {
      RecordedArePublished(cfg, s, a, k);
    }
    StepKeepsRows(cfg, s, a);
    forall id | id !in s'.rows ensures TallyOf(s', id) == NO_TALLY {
      UnknownIdUntouched(cfg, s, a, id);
    }
  }

  lemma UnknownIdUntouched(cfg: Config, s: State, a: Action, id: Id)
    requires Agreed(cfg, s) && UntouchedIfUnpublished(s) && Enabled(cfg, s, a)
    requires id !in s.rows
    ensures TallyOf(Apply(cfg, s, a), id) == NO_TALLY
  {
    if a.FlushPost? {
      assert StageOk(s.rows, s.posts[a.post].key, s.posts[a.post].stage);
    } else if a.Handle? || a.Requeue? || a.Flush? {
      assert CopyOk(cfg, s, s.copies[a.copy]);
    }
  }

  lemma {:induction false} UntouchedRun(cfg: Config, acts: seq<Action>)
    requires Exec(cfg, Init(), acts).Some?
    ensures UntouchedIfUnpublished(Exec(cfg, Init(), acts).value)
  {
    if acts != [] {
      LastStep(cfg, Init(), acts);
      UntouchedRun(cfg, acts[..|acts| - 1]);
      AgreedRun(cfg, acts[..|acts| - 1]);
      UntouchedStep(cfg, Exec(cfg, Init(), acts[..|acts| - 1]).value, acts[|acts| - 1]);
    }
  }

  // ---------------------------------------------------------------- main results

  predicate AtRest(c: Copy) {
    c.place.DeadLetter? || c.place.Acked? || c.place.Unroutable?
  }

  ghost predicate Quiescent(s: State) {
    forall t :: 0 <= t < |s.copies| ==> AtRest(s.copies[t])
  }

  /** While a published notification is PENDING or PROCESSING, some copy still owes it an attempt. */
  lemma UndecidedHasObligatedCopy(cfg: Config, acts: seq<Action>, id: Id)
    requires LadderCoversRetries(cfg) && Exec(cfg, Init(), acts).Some?
    requires id in Exec(cfg, Init(), acts).value.rows && TallyOf(Exec(cfg, Init(), acts).value, id).published > 0
    requires Exec(cfg, Init(), acts).value.rows[id].status in {Pending, Processing}
    ensures var s := Exec(cfg, Init(), acts).value;
            exists t :: 0 <= t < |s.copies| && s.copies[t].body.id == id && Owes(s.copies[t])
  {
    NothingLostRun(cfg, acts);
    assert Covered(Exec(cfg, Init(), acts).value, id);
  }

  /** At rest, a notification has a final status if and only if some message of it was published. */
  lemma SettledIffPublished(cfg: Config, acts: seq<Action>, id: Id)
    requires LadderCoversRetries(cfg) && Exec(cfg, Init(), acts).Some?
    requires var s := Exec(cfg, Init(), acts).value; Quiescent(s) && id in s.rows
    ensures var s := Exec(cfg, Init(), acts).value;
            && (s.rows[id].status in {Sent, DeadLettered} <==> TallyOf(s, id).published > 0)
            && (s.rows[id].status.DeadLettered? ==> InDlq(s, id))
            && (TallyOf(s, id).published == 0 ==> s.rows[id].status.Pending? && s.rows[id].attemptCount == 0)
  {
    var s := Exec(cfg, Init(), acts).value;
    NothingLostRun(cfg, acts);
    UntouchedRun(cfg, acts);
    if TallyOf(s, id).published > 0 && !s.rows[id].status.Sent? {
      var t :| 0 <= t < |s.copies| && Covers(s.copies[t], id, s.rows[id].status);
      assert AtRest(s.copies[t]);
    }
  }
}
