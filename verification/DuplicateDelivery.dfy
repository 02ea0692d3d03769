/**
 How often the provider can accept one notification. Without overlap, SENT is final and every success beyond the
 first is paid for by a crash between the send and markSent; a single crash-free submission never overlaps itself.
 */
module DuplicateDelivery {
  import opened Domain
  import opened Protocol
  import opened Agreement
  import opened Convergence
  import opened Budget

  /** The handler has passed its status test and has not yet made its last status write. */
  predicate Busy(c: Copy, id: Id) {
    c.body.id == id && c.place.Unacked? && Undecided(c.place.pc) && !c.place.pc.Received?
  }

  predicate InWindow(c: Copy, id: Id) {
    c.body.id == id && c.place.Unacked? && InSuccessWindow(c.place.pc)
  }

  ghost predicate NoOverlap(s: State, id: Id) {
    forall i, j :: 0 <= i < |s.copies| && 0 <= j < |s.copies| && Busy(s.copies[i], id) && Busy(s.copies[j], id)
      ==> i == j
  }

  ghost predicate SomeInWindow(s: State, id: Id) {
    exists t :: 0 <= t < |s.copies| && InWindow(s.copies[t], id)
  }

  ghost predicate SomeBusy(s: State, id: Id) {
    exists t :: 0 <= t < |s.copies| && Busy(s.copies[t], id)
  }

  predicate IsSent(s: State, id: Id) {
    id in s.rows && s.rows[id].status.Sent?
  }

  /** Every success is visible: lost to a crash, still in its window, or the row is SENT. */
  ghost predicate SuccessesAccounted(s: State, id: Id) {
    && (IsSent(s, id) ==> !SomeBusy(s, id))
    && Successes(TallyOf(s, id).outcomes) == TallyOf(s, id).lostSuccesses
         + (if SomeInWindow(s, id) then 1 else 0) + (if IsSent(s, id) then 1 else 0)
  }

  /** Handlings of `id` never overlap at any moment of the run. */
  ghost predicate NeverOverlaps(cfg: Config, acts: seq<Action>, id: Id) {
    && (acts != [] ==> NeverOverlaps(cfg, acts[..|acts| - 1], id))
    && (Exec(cfg, Init(), acts).Some? ==> NoOverlap(Exec(cfg, Init(), acts).value, id))
  }

  /** Copies of other notifications and copies that only move between queues do not matter. */
  lemma WindowKept(s: State, s': State, id: Id)
    requires |s'.copies| >= |s.copies|
    requires forall t :: 0 <= t < |s.copies| ==> InWindow(s'.copies[t], id) == InWindow(s.copies[t], id)
    requires forall t :: 0 <= t < |s.copies| ==> Busy(s'.copies[t], id) == Busy(s.copies[t], id)
    requires forall t :: |s.copies| <= t < |s'.copies| ==> !s'.copies[t].place.Unacked?
    ensures SomeInWindow(s', id) == SomeInWindow(s, id) && SomeBusy(s', id) == SomeBusy(s, id)
  {
    if SomeInWindow(s, id) {
      var t :| 0 <= t < |s.copies| && InWindow(s.copies[t], id);
      assert InWindow(s'.copies[t], id);
    }
    if SomeInWindow(s', id) {
      var t :| 0 <= t < |s'.copies| && InWindow(s'.copies[t], id);
      assert InWindow(s.copies[t], id);
    }
    if SomeBusy(s, id) {
      var t :| 0 <= t < |s.copies| && Busy(s.copies[t], id);
      assert Busy(s'.copies[t], id);
    }
    if SomeBusy(s', id) {
      var t :| 0 <= t < |s'.copies| && Busy(s'.copies[t], id);
      assert Busy(s.copies[t], id);
    }
  }

  /** With no overlap, the copy that acts decides for all: nobody else is busy or in its window. */
  lemma OnlyOneBusy(s: State, s': State, id: Id, t: nat)
    requires NoOverlap(s, id) && t < |s.copies| && Busy(s.copies[t], id)
    requires |s'.copies| == |s.copies| && forall x :: 0 <= x < |s.copies| && x != t ==> s'.copies[x] == s.copies[x]
    ensures SomeInWindow(s, id) == InWindow(s.copies[t], id)
    ensures SomeInWindow(s', id) == InWindow(s'.copies[t], id)
    ensures SomeBusy(s', id) == Busy(s'.copies[t], id)
  {
  }

  /** What a busy handler's step does to the row, the history and its own copy. */
  lemma BusyStep(cfg: Config, s: State, t: nat, o: Outcome, id: Id)
    requires Agreed(cfg, s) && Enabled(cfg, s, Handle(t, o)) && Busy(s.copies[t], id) && !IsSent(s, id)
    ensures var s' := HandleStep(cfg, s, t, o);
            var pc := s.copies[t].place.pc;
            && IsSent(s', id) == pc.RecordedOk?
            && Busy(s'.copies[t], id) == (Undecided(NextPc(cfg, s.rows, s.copies[t].body, pc, o)))
            && InWindow(s'.copies[t], id) == (pc.SendOk? || (pc.Sending? && o.Accepted?))
            && TallyOf(s', id).lostSuccesses == TallyOf(s, id).lostSuccesses
            && TallyOf(s', id).outcomes == TallyOf(s, id).outcomes + if pc.Sending? then [o] else []
  {
    assert CopyOk(cfg, s, s.copies[t]);
  }

  lemma HandleAccounted(cfg: Config, s: State, t: nat, o: Outcome, id: Id)
    requires Agreed(cfg, s) && NoOverlap(s, id) && SuccessesAccounted(s, id)
    requires Enabled(cfg, s, Handle(t, o)) && Busy(s.copies[t], id)
    ensures SuccessesAccounted(HandleStep(cfg, s, t, o), id)
    ensures !IsSent(s, id)
  {
    assert SomeBusy(s, id);
    BusyStep(cfg, s, t, o, id);
    OnlyOneBusy(s, HandleStep(cfg, s, t, o), id, t);
    SuccessesSnoc(TallyOf(s, id).outcomes, o);
  }

  lemma HandleOtherAccounted(cfg: Config, s: State, t: nat, o: Outcome, id: Id)
    requires Agreed(cfg, s) && SuccessesAccounted(s, id)
    requires Enabled(cfg, s, Handle(t, o)) && !Busy(s.copies[t], id)
    ensures SuccessesAccounted(HandleStep(cfg, s, t, o), id)
    ensures IsSent(s, id) ==> IsSent(HandleStep(cfg, s, t, o), id)
  {
    var s' := HandleStep(cfg, s, t, o);
    assert CopyOk(cfg, s, s.copies[t]);
    if s.copies[t].body.id == id && s'.copies[t].place.pc.Admitted? {
      assert !IsSent(s, id) && !IsSent(s', id);
      assert SomeInWindow(s', id) == SomeInWindow(s, id) by {
        if SomeInWindow(s, id) {
          var x :| 0 <= x < |s.copies| && InWindow(s.copies[x], id);
          assert InWindow(s'.copies[x], id);
        }
      }
    } else {
      WindowKept(s, s', id);
    }
  }

  lemma RequeueAccounted(cfg: Config, s: State, t: nat, id: Id)
    requires NoOverlap(s, id) && SuccessesAccounted(s, id) && Enabled(cfg, s, Requeue(t))
    ensures SuccessesAccounted(ReturnToMain(s, t), id)
    ensures IsSent(s, id) ==> IsSent(ReturnToMain(s, t), id)
  {
    var s' := ReturnToMain(s, t);
    if Busy(s.copies[t], id) {
      OnlyOneBusy(s, s', id, t);
    } else {
      WindowKept(s, s', id);
    }
  }

  lemma FlushKeepsHandlers(cfg: Config, s: State, x: nat, id: Id)
    requires Agreed(cfg, s) && Enabled(cfg, s, Flush(x))
    ensures var s' := Apply(cfg, s, Flush(x));
            && |s'.copies| >= |s.copies|
            && (forall t :: 0 <= t < |s.copies| ==> InWindow(s'.copies[t], id) == InWindow(s.copies[t], id))
            && (forall t :: 0 <= t < |s.copies| ==> Busy(s'.copies[t], id) == Busy(s.copies[t], id))
            && (forall t :: |s.copies| <= t < |s'.copies| ==> !s'.copies[t].place.Unacked?)
  {
    assert CopyOk(cfg, s, s.copies[x]);
  }

  lemma RestKeepsHandlers(cfg: Config, s: State, a: Action, id: Id)
    requires Enabled(cfg, s, a) && !a.Handle? && !a.Requeue? && !a.Flush?
    ensures var s' := Apply(cfg, s, a);
            && |s'.copies| >= |s.copies|
            && (forall t :: 0 <= t < |s.copies| ==> InWindow(s'.copies[t], id) == InWindow(s.copies[t], id))
            && (forall t :: 0 <= t < |s.copies| ==> Busy(s'.copies[t], id) == Busy(s.copies[t], id))
            && (forall t :: |s.copies| <= t < |s'.copies| ==> !s'.copies[t].place.Unacked?)
  {
  }

  lemma OtherKeepsHandlers(cfg: Config, s: State, a: Action, id: Id)
    requires Agreed(cfg, s) && Enabled(cfg, s, a) && !a.Handle? && !a.Requeue?
    ensures var s' := Apply(cfg, s, a);
            && |s'.copies| >= |s.copies|
            && (forall t :: 0 <= t < |s.copies| ==> InWindow(s'.copies[t], id) == InWindow(s.copies[t], id))
            && (forall t :: 0 <= t < |s.copies| ==> Busy(s'.copies[t], id) == Busy(s.copies[t], id))
            && (forall t :: |s.copies| <= t < |s'.copies| ==> !s'.copies[t].place.Unacked?)
  {
    if a.Flush? {
      FlushKeepsHandlers(cfg, s, a.copy, id);
    } else {
      RestKeepsHandlers(cfg, s, a, id);
    }
  }

  lemma OtherKeepsRecords(cfg: Config, s: State, a: Action, id: Id)
    requires Enabled(cfg, s, a) && !a.Handle? && !a.Requeue?
    ensures IsSent(s, id) == IsSent(Apply(cfg, s, a), id)
    ensures TallyOf(Apply(cfg, s, a), id).outcomes == TallyOf(s, id).outcomes
    ensures TallyOf(Apply(cfg, s, a), id).lostSuccesses == TallyOf(s, id).lostSuccesses
  {
  }

  lemma OtherAccounted(cfg: Config, s: State, a: Action, id: Id)
    requires Agreed(cfg, s) && SuccessesAccounted(s, id) && Enabled(cfg, s, a)
    requires !a.Handle? && !a.Requeue?
    ensures SuccessesAccounted(Apply(cfg, s, a), id)
    ensures IsSent(s, id) == IsSent(Apply(cfg, s, a), id)
  {
    OtherKeepsHandlers(cfg, s, a, id);
    OtherKeepsRecords(cfg, s, a, id);
    WindowKept(s, Apply(cfg, s, a), id);
  }

  lemma AccountedStep(cfg: Config, s: State, a: Action, id: Id)
    requires Agreed(cfg, s) && NoOverlap(s, id) && SuccessesAccounted(s, id) && Enabled(cfg, s, a)
    ensures SuccessesAccounted(Apply(cfg, s, a), id)
    ensures IsSent(s, id) ==> IsSent(Apply(cfg, s, a), id)
  {
    if a.Handle? {
      if Busy(s.copies[a.copy], id) {
        HandleAccounted(cfg, s, a.copy, a.outcome, id);
      } else {
        HandleOtherAccounted(cfg, s, a.copy, a.outcome, id);
      }
    } else if a.Requeue? {
      RequeueAccounted(cfg, s, a.copy, id);
    } else {
      OtherAccounted(cfg, s, a, id);
    }
  }

  lemma {:induction false} AccountedRun(cfg: Config, acts: seq<Action>, id: Id)
    requires Exec(cfg, Init(), acts).Some? && NeverOverlaps(cfg, acts, id)
    ensures SuccessesAccounted(Exec(cfg, Init(), acts).value, id)
  {
    if acts != [] {
      LastStep(cfg, Init(), acts);
      AccountedRun(cfg, acts[..|acts| - 1], id);
      AgreedRun(cfg, acts[..|acts| - 1]);
      AccountedStep(cfg, Exec(cfg, Init(), acts[..|acts| - 1]).value, acts[|acts| - 1], id);
    }
  }

  // ---------------------------------------------------------------- main results

  /** Without overlap the provider accepts a notification at most once more than crashes hit its window. */
  lemma SuccessesAtMost(cfg: Config, acts: seq<Action>, id: Id)
    requires Exec(cfg, Init(), acts).Some? && NeverOverlaps(cfg, acts, id)
    ensures Successes(TallyOf(Exec(cfg, Init(), acts).value, id).outcomes)
            <= 1 + TallyOf(Exec(cfg, Init(), acts).value, id).lostSuccesses
  {
    var s := Exec(cfg, Init(), acts).value;
    AccountedRun(cfg, acts, id);
    if SomeInWindow(s, id) {
      var t :| 0 <= t < |s.copies| && InWindow(s.copies[t], id);
      assert Busy(s.copies[t], id);
    }
  }

  /** Without overlap SENT is absorbing: however the run goes on, the row stays SENT. */
  lemma {:induction false} SentIsAbsorbing(cfg: Config, acts: seq<Action>, more: seq<Action>, id: Id)
    requires Exec(cfg, Init(), acts).Some? && IsSent(Exec(cfg, Init(), acts).value, id)
    requires Exec(cfg, Init(), acts + more).Some? && NeverOverlaps(cfg, acts + more, id)
    ensures IsSent(Exec(cfg, Init(), acts + more).value, id)
  {
    if more == [] {
      assert acts + more == acts;
    } else {
      var before := acts + more[..|more| - 1];
      assert (acts + more)[..|acts + more| - 1] == before;
      LastStep(cfg, Init(), acts + more);
      SentIsAbsorbing(cfg, acts, more[..|more| - 1], id);
      AccountedRun(cfg, before, id);
      AgreedRun(cfg, before);
      AccountedStep(cfg, Exec(cfg, Init(), before).value, (acts + more)[|acts + more| - 1], id);
    }
  }

  // ---------------------------------------------------------------- one submission, no crash

  predicate OwesFor(c: Copy, id: Id) {
    c.body.id == id && Owes(c)
  }

  ghost predicate OneOwes(s: State, id: Id) {
    forall i, j :: 0 <= i < |s.copies| && 0 <= j < |s.copies| && OwesFor(s.copies[i], id) && OwesFor(s.copies[j], id)
      ==> i == j
  }

  /** No copy begins to owe `id` anything. */
  ghost predicate NoneMoreOwe(s: State, s': State, id: Id) {
    forall t :: 0 <= t < |s'.copies| && OwesFor(s'.copies[t], id) ==> t < |s.copies| && OwesFor(s.copies[t], id)
  }

  lemma NoneMoreOweKeeps(s: State, s': State, id: Id)
    requires OneOwes(s, id) && NoneMoreOwe(s, s', id)
    ensures OneOwes(s', id)
  {
  }

  /** The retry takes over from the delivery that published it. */
  lemma FlushOneOwes(cfg: Config, s: State, x: nat, id: Id)
    requires Agreed(cfg, s) && Enabled(cfg, s, Flush(x)) && OneOwes(s, id)
    ensures OneOwes(Apply(cfg, s, Flush(x)), id)
  {
    var s' := Apply(cfg, s, Flush(x));
    assert CopyOk(cfg, s, s.copies[x]);
    assert forall t :: 0 <= t < |s.copies| && t != x ==> s'.copies[t] == s.copies[t];
    if |s'.copies| > |s.copies| && OwesFor(s'.copies[|s.copies|], id) {
      assert OwesFor(s.copies[x], id) && !Owes(s'.copies[x]);
    } else {
      NoneMoreOweKeeps(s, s', id);
    }
  }

  lemma HandleOwesNoMore(cfg: Config, s: State, t: nat, o: Outcome, id: Id)
    requires Agreed(cfg, s) && Enabled(cfg, s, Handle(t, o))
    ensures NoneMoreOwe(s, HandleStep(cfg, s, t, o), id)
  {
    assert CopyOk(cfg, s, s.copies[t]);
  }

  lemma RestOwesNoMore(cfg: Config, s: State, a: Action, id: Id)
    requires Enabled(cfg, s, a) && !a.Handle? && !a.Flush? && !(a.Requeue? && s.copies[a.copy].body.id == id)
    requires !(a.FlushPost? && s.posts[a.post].stage.id == id)
    ensures NoneMoreOwe(s, Apply(cfg, s, a), id)
  {
  }

  lemma OneOwesStep(cfg: Config, s: State, a: Action, id: Id)
    requires Agreed(cfg, s) && UntouchedIfUnpublished(s) && Enabled(cfg, s, a) && OneOwes(s, id)
    requires TallyOf(Apply(cfg, s, a), id).published <= 1
    requires !(a.Requeue? && s.copies[a.copy].body.id == id)
    ensures OneOwes(Apply(cfg, s, a), id)
  {
    PublishedCount(cfg, s, a, id);
    if a.FlushPost? && s.posts[a.post].stage.id == id {
      assert forall t :: 0 <= t < |s.copies| ==> s.copies[t].body.id != id;
    } else if a.Flush? {
      FlushOneOwes(cfg, s, a.copy, id);
    } else {
      if a.Handle? {
        HandleOwesNoMore(cfg, s, a.copy, a.outcome, id);
      } else {
        RestOwesNoMore(cfg, s, a, id);
      }
      NoneMoreOweKeeps(s, Apply(cfg, s, a), id);
    }
  }

  /** Deliveries lost in the success window are among the deliveries returned. */
  lemma ReturnsCount(cfg: Config, s: State, a: Action, id: Id)
    requires Enabled(cfg, s, a)
    ensures var before, after := TallyOf(s, id), TallyOf(Apply(cfg, s, a), id);
            && after.requeued == before.requeued + (if a.Requeue? && s.copies[a.copy].body.id == id then 1 else 0)
            && after.lostSuccesses - before.lostSuccesses <= after.requeued - before.requeued
  {
  }

  lemma {:induction false} OneOwesRun(cfg: Config, acts: seq<Action>, id: Id)
    requires Exec(cfg, Init(), acts).Some?
    requires TallyOf(Exec(cfg, Init(), acts).value, id).published <= 1
    requires TallyOf(Exec(cfg, Init(), acts).value, id).requeued == 0
    ensures OneOwes(Exec(cfg, Init(), acts).value, id)
    ensures TallyOf(Exec(cfg, Init(), acts).value, id).lostSuccesses == 0
    ensures NeverOverlaps(cfg, acts, id)
  {
    if acts != [] {
      LastStep(cfg, Init(), acts);
      var before := Exec(cfg, Init(), acts[..|acts| - 1]).value;
      PublishedCount(cfg, before, acts[|acts| - 1], id);
      ReturnsCount(cfg, before, acts[|acts| - 1], id);
      OneOwesRun(cfg, acts[..|acts| - 1], id);
      AgreedRun(cfg, acts[..|acts| - 1]);
      UntouchedRun(cfg, acts[..|acts| - 1]);
      OneOwesStep(cfg, before, acts[|acts| - 1], id);
    }
    var s := Exec(cfg, Init(), acts).value;
    assert forall t :: 0 <= t < |s.copies| && Busy(s.copies[t], id) ==> OwesFor(s.copies[t], id);
  }

  /** A single crash-free submission never overlaps itself, whatever the configuration and whatever runs beside it. */
  lemma SingleSubmissionNeverOverlaps(cfg: Config, acts: seq<Action>, id: Id)
    requires Exec(cfg, Init(), acts).Some?
    requires TallyOf(Exec(cfg, Init(), acts).value, id).published <= 1
    requires TallyOf(Exec(cfg, Init(), acts).value, id).requeued == 0
    ensures NeverOverlaps(cfg, acts, id)
  {
    OneOwesRun(cfg, acts, id);
  }

  /** The provider accepts it at most once, and once it is at rest it accepted it if and only if the row is SENT. */
  lemma SingleSubmissionSentOnce(cfg: Config, acts: seq<Action>, id: Id)
    requires Exec(cfg, Init(), acts).Some?
    requires TallyOf(Exec(cfg, Init(), acts).value, id).published <= 1
    requires TallyOf(Exec(cfg, Init(), acts).value, id).requeued == 0
    ensures var s := Exec(cfg, Init(), acts).value;
            && Successes(TallyOf(s, id).outcomes) <= 1
            && (Quiescent(s) ==> (Successes(TallyOf(s, id).outcomes) == 1 <==> IsSent(s, id)))
  {
    var s := Exec(cfg, Init(), acts).value;
    OneOwesRun(cfg, acts, id);
    SuccessesAtMost(cfg, acts, id);
    AccountedRun(cfg, acts, id);
  }
}
