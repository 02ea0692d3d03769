/**
 The distributed pipeline refines a loop. For a notification submitted once and never hit by a crash, whatever
 runs beside it, the queues, the ladder and the workers together do what a sequential retry loop does with the
 same provider results.
 */
module RetryLoop {
  import opened Domain
  import opened Protocol
  import opened Agreement
  import opened Convergence

  // ---------------------------------------------------------------- the reference

  /** `rows` lists the statuses of attempts 1, 2, ...; `dlq` the attempt numbers in the dead-letter queue. */
  datatype Verdict = Verdict(status: Status, rows: seq<AttemptStatus>, attemptCount: nat, dlq: seq<nat>)

  /**
   Send until success, a permanent error or exhaustion, over a ladder of `rungs` delays; `rows` holds the attempts
   made so far. A retry beyond the ladder's end vanishes, and with it the loop.
   */
  function Loop(maxRetries: int, rungs: nat, sends: seq<Outcome>, rows: seq<AttemptStatus>): Verdict
    decreases |sends|
  {
    var k := |rows| + 1;
    if sends == [] then Verdict(if k == 1 then Pending else Processing, rows, k - 1, [])
    else match sends[0]
         case Accepted => Verdict(Sent, rows + [Success], k, [])
         case PermanentError => Verdict(DeadLettered, rows + [PermanentFailure], k, [k])
         case TransientError =>
           if k > maxRetries then Verdict(DeadLettered, rows + [TransientFailure], k, [k])
           else if k > rungs then Verdict(Processing, rows + [TransientFailure], k, [])
           else Loop(maxRetries, rungs, sends[1..], rows + [TransientFailure])
  }

  // ---------------------------------------------------------------- what the database shows

  function Transients(n: nat): seq<Outcome> {
    seq(n, _ => TransientError)
  }

  /** Rows 1..n are transient failures, row n+1 is `last` if given, and the counters and the log are as said. */
  datatype Snap = Snap(n: nat, last: Option<AttemptStatus>, count: nat, status: Status, sends: seq<Outcome>)

  ghost predicate Shows(s: State, id: Id, snap: Snap) {
    && id in s.rows
    && s.rows[id].status == snap.status && s.rows[id].attemptCount == snap.count
    && TallyOf(s, id).outcomes == snap.sends
    && (forall j: nat :: (id, j) in s.attempts <==> 1 <= j <= snap.n || (snap.last.Some? && j == snap.n + 1))
    && (forall j: nat :: 1 <= j <= snap.n && (id, j) in s.attempts ==> s.attempts[(id, j)].status == TransientFailure)
    && (snap.last.Some? && (id, snap.n + 1) in s.attempts ==> s.attempts[(id, snap.n + 1)].status == snap.last.value)
  }

  function FailureOf(transient: bool): Outcome { if transient then TransientError else PermanentError }

  function StatusOf(o: Outcome): AttemptStatus {
    match o
    case Accepted => Success
    case TransientError => TransientFailure
    case PermanentError => PermanentFailure
  }

  /** A transient failure whose retry has no queue to go to: the broker drops it. */
  predicate Dropped(cfg: Config, k: nat, o: Outcome) {
    o.TransientError? && !Exhausted(cfg, k) && k > |cfg.retryDelaysMs|
  }

  /** A failure that ends in the dead-letter queue. */
  predicate GivenUp(cfg: Config, k: nat, o: Outcome) {
    o.PermanentError? || (o.TransientError? && Exhausted(cfg, k))
  }

  predicate FinalOutcome(cfg: Config, k: nat, o: Outcome) {
    o.Accepted? || GivenUp(cfg, k, o) || Dropped(cfg, k, o)
  }

  function FinalStatus(cfg: Config, k: nat, o: Outcome): Status {
    if o.Accepted? then Sent else if Dropped(cfg, k, o) then Processing else DeadLettered
  }

  /** The end of a submission whose attempt `k` had result `o`. */
  function FinalSnap(cfg: Config, k: nat, o: Outcome): Snap
    requires k >= 1
  {
    Snap(k - 1, Some(StatusOf(o)), k, FinalStatus(cfg, k, o), Transients(k - 1) + [o])
  }

  /** An attempt that maxRetries and the ladder allow. */
  predicate OnLadder(cfg: Config, k: nat) {
    1 <= k <= Retries(cfg) + 1 && k - 1 <= |cfg.retryDelaysMs|
  }

  /** The copy will act on its notification again. */
  predicate Active(c: Copy) {
    Owes(c) || (c.place.Unacked? && c.place.pc.MarkedSent?)
  }

  /** What the database shows while `c` is the active copy. */
  function SnapAt(c: Copy): Snap
    requires c.body.attempt >= 1
  {
    var k := c.body.attempt;
    var earlier := Transients(k - 1);
    var waiting := Snap(k - 1, None, k - 1, if k == 1 then Pending else Processing, earlier);
    match c.place
    case Unacked(_, pc, _) =>
      (match pc
       case Received => waiting
       case Admitted => waiting
       case Sending => waiting.(status := Processing)
       case SendOk => Snap(k - 1, None, k - 1, Processing, earlier + [Accepted])
       case RecordedOk => Snap(k - 1, Some(Success), k - 1, Processing, earlier + [Accepted])
       case MarkedSent => Snap(k - 1, Some(Success), k - 1, Sent, earlier + [Accepted])
       case SendFailed(t) => Snap(k - 1, None, k - 1, Processing, earlier + [FailureOf(t)])
       case Counted(t) => Snap(k - 1, None, k, Processing, earlier + [FailureOf(t)])
       case RecordedFail(t) => Snap(k - 1, Some(StatusOf(FailureOf(t))), k, Processing, earlier + [FailureOf(t)])
       case _ => Snap(k - 1, Some(TransientFailure), k, Processing, earlier + [TransientError]))
    case _ => waiting
  }

  // ---------------------------------------------------------------- dead-letter queue

  predicate Holder(c: Copy, id: Id) { c.body.id == id && HeldForOperator(c) }

  ghost predicate NoHolder(s: State, id: Id) {
    forall t :: 0 <= t < |s.copies| ==> !Holder(s.copies[t], id)
  }

  ghost predicate OneHolder(s: State, id: Id, k: nat, h: nat) {
    && h < |s.copies| && Holder(s.copies[h], id) && s.copies[h].body.attempt == k
    && forall t :: 0 <= t < |s.copies| && Holder(s.copies[t], id) ==> t == h
  }

  // ---------------------------------------------------------------- the simulation

  ghost predicate OnlyActive(s: State, id: Id, t: nat) {
    && t < |s.copies| && s.copies[t].body.id == id && Active(s.copies[t])
    && forall x :: 0 <= x < |s.copies| && s.copies[x].body.id == id && Active(s.copies[x]) ==> x == t
  }

  /** Copy `t` carries the submission. */
  ghost predicate Carried(cfg: Config, s: State, id: Id, t: nat) {
    && OnlyActive(s, id, t)
    && s.copies[t].body.attempt >= 1
    && (if s.copies[t].place.Unacked? && s.copies[t].place.pc.DlqPublished?
        then exists h: nat, o: Outcome ::
               OneHolder(s, id, s.copies[t].body.attempt, h)
               && GivenUp(cfg, s.copies[t].body.attempt, o)
               && Shows(s, id, FinalSnap(cfg, s.copies[t].body.attempt, o).(status := Processing))
        else NoHolder(s, id) && Shows(s, id, SnapAt(s.copies[t])))
  }

  /** No copy is active: the submission ended at attempt `k` with result `o`. */
  ghost predicate Ended(cfg: Config, s: State, id: Id, k: nat, o: Outcome) {
    && OnLadder(cfg, k)
    && FinalOutcome(cfg, k, o)
    && Shows(s, id, FinalSnap(cfg, k, o))
    && (forall x :: 0 <= x < |s.copies| && s.copies[x].body.id == id ==> !Active(s.copies[x]))
    && (if GivenUp(cfg, k, o) then exists h: nat :: OneHolder(s, id, k, h) else NoHolder(s, id))
  }

  ghost predicate Simulated(cfg: Config, s: State, id: Id) {
    (exists t: nat :: Carried(cfg, s, id, t)) || (exists k: nat, o: Outcome :: Ended(cfg, s, id, k, o))
  }

  ghost predicate Single(s: State, id: Id) {
    TallyOf(s, id).published == 1 && TallyOf(s, id).requeued == 0
  }

  // ---------------------------------------------------------------- actions on other notifications

  predicate ActsOn(s: State, a: Action, id: Id) {
    (a.Deliver? || a.Handle? || a.Flush? || a.Expire? || a.Requeue?) && a.copy < |s.copies|
    && s.copies[a.copy].body.id == id
  }

  /** The two states agree on everything that concerns `id`. */
  ghost predicate SameFor(s: State, s': State, id: Id) {
    CopiesKept(s, s', id) && SameRecords(s, s', id)
  }

  ghost predicate SameRecords(s: State, s': State, id: Id) {
    && id in s.rows && id in s'.rows && s'.rows[id] == s.rows[id] && TallyOf(s', id) == TallyOf(s, id)
    && (forall j: nat :: ((id, j) in s'.attempts <==> (id, j) in s.attempts)
                      && ((id, j) in s.attempts ==> s'.attempts[(id, j)] == s.attempts[(id, j)]))
  }

  /** Nothing that concerns `id` was added or changed among the copies. */
  ghost predicate CopiesKept(s: State, s': State, id: Id) {
    && |s'.copies| >= |s.copies|
    && (forall x :: 0 <= x < |s.copies| && s.copies[x].body.id == id ==> s'.copies[x] == s.copies[x])
    && (forall x :: 0 <= x < |s'.copies| && s'.copies[x].body.id == id ==>
          x < |s.copies| && s.copies[x].body.id == id)
  }

  lemma OtherFlushKeepsCopies(cfg: Config, s: State, a: Action, id: Id)
    requires Agreed(cfg, s) && Enabled(cfg, s, a) && !ActsOn(s, a, id) && a.Flush?
    ensures CopiesKept(s, Apply(cfg, s, a), id)
  {
    assert CopyOk(cfg, s, s.copies[a.copy]);
  }

  lemma OtherCopiesKept(cfg: Config, s: State, a: Action, id: Id)
    requires Enabled(cfg, s, a) && !ActsOn(s, a, id) && !a.Flush?
    requires a.FlushPost? ==> s.posts[a.post].stage.id != id
    ensures CopiesKept(s, Apply(cfg, s, a), id)
  {
  }

  lemma OtherRecordsKept(cfg: Config, s: State, a: Action, id: Id)
    requires Enabled(cfg, s, a) && !ActsOn(s, a, id) && id in s.rows
    requires a.FlushPost? ==> s.posts[a.post].stage.id != id
    ensures SameRecords(s, Apply(cfg, s, a), id)
  {
  }

  lemma OtherActionsKeep(cfg: Config, s: State, a: Action, id: Id)
    requires Agreed(cfg, s) && Enabled(cfg, s, a) && !ActsOn(s, a, id) && id in s.rows
    requires a.FlushPost? ==> s.posts[a.post].stage.id != id
    ensures SameFor(s, Apply(cfg, s, a), id)
  {
    if a.Flush? {
      OtherFlushKeepsCopies(cfg, s, a, id);
    } else {
      OtherCopiesKept(cfg, s, a, id);
    }
    OtherRecordsKept(cfg, s, a, id);
  }

  lemma HoldersSame(s: State, s': State, id: Id)
    requires SameFor(s, s', id)
    ensures NoHolder(s, id) ==> NoHolder(s', id)
    ensures forall k: nat, h: nat :: OneHolder(s, id, k, h) ==> OneHolder(s', id, k, h)
  {
  }

  lemma CarriedSame(cfg: Config, s: State, s': State, id: Id, t: nat)
    requires SameFor(s, s', id) && Carried(cfg, s, id, t)
    ensures Carried(cfg, s', id, t)
  {
    HoldersSame(s, s', id);
    assert OnlyActive(s', id, t);
    if s.copies[t].place.Unacked? && s.copies[t].place.pc.DlqPublished? {
      var h: nat, o: Outcome :|
        OneHolder(s, id, s.copies[t].body.attempt, h)
        && GivenUp(cfg, s.copies[t].body.attempt, o)
        && Shows(s, id, FinalSnap(cfg, s.copies[t].body.attempt, o).(status := Processing));
      assert OneHolder(s', id, s.copies[t].body.attempt, h);
      assert Shows(s', id, FinalSnap(cfg, s.copies[t].body.attempt, o).(status := Processing));
    } else {
      assert Shows(s', id, SnapAt(s.copies[t]));
    }
  }

  lemma EndedSame(cfg: Config, s: State, s': State, id: Id, k: nat, o: Outcome)
    requires SameFor(s, s', id) && Ended(cfg, s, id, k, o)
    ensures Ended(cfg, s', id, k, o)
  {
    HoldersSame(s, s', id);
    assert Shows(s', id, FinalSnap(cfg, k, o));
    if GivenUp(cfg, k, o) {
      var h: nat :| OneHolder(s, id, k, h);
      assert OneHolder(s', id, k, h);
    }
  }

  lemma SimulatedElsewhere(cfg: Config, s: State, a: Action, id: Id)
    requires Agreed(cfg, s) && Enabled(cfg, s, a) && !ActsOn(s, a, id) && Simulated(cfg, s, id)
    requires a.FlushPost? ==> s.posts[a.post].stage.id != id
    ensures Simulated(cfg, Apply(cfg, s, a), id)
  {
    OtherActionsKeep(cfg, s, a, id);
    if t: nat :| Carried(cfg, s, id, t) {
      CarriedSame(cfg, s, Apply(cfg, s, a), id, t);
    } else {
      var k: nat, o: Outcome :| Ended(cfg, s, id, k, o);
      EndedSame(cfg, s, Apply(cfg, s, a), id, k, o);
    }
  }

  // ---------------------------------------------------------------- the carrier acts

  /** The first statements of a handler, up to the send, show the next snapshot. */
  lemma HandleShowsStart(cfg: Config, s: State, t: nat, o: Outcome)
    requires Agreed(cfg, s) && Enabled(cfg, s, Handle(t, o)) && s.copies[t].body.attempt >= 1
    requires Shows(s, s.copies[t].body.id, SnapAt(s.copies[t]))
    requires s.copies[t].place.pc.Received? || s.copies[t].place.pc.Admitted? || s.copies[t].place.pc.Sending?
    ensures var s' := HandleStep(cfg, s, t, o);
            !s'.copies[t].place.pc.ReadyToAck? && Shows(s', s.copies[t].body.id, SnapAt(s'.copies[t]))
  {
  }

  /** markSent, and the count after a failure, show the next snapshot. */
  lemma HandleShowsRow(cfg: Config, s: State, t: nat, o: Outcome)
    requires Agreed(cfg, s) && Enabled(cfg, s, Handle(t, o)) && s.copies[t].body.attempt >= 1
    requires Shows(s, s.copies[t].body.id, SnapAt(s.copies[t]))
    requires s.copies[t].place.pc.RecordedOk? || s.copies[t].place.pc.SendFailed?
    ensures var s' := HandleStep(cfg, s, t, o);
            !s'.copies[t].place.pc.ReadyToAck? && Shows(s', s.copies[t].body.id, SnapAt(s'.copies[t]))
  {
  }

  /** A step that records the attempt adds its row. */
  lemma HandleShowsRecord(cfg: Config, s: State, t: nat, o: Outcome)
    requires Agreed(cfg, s) && Enabled(cfg, s, Handle(t, o)) && s.copies[t].body.attempt >= 1
    requires Shows(s, s.copies[t].body.id, SnapAt(s.copies[t]))
    requires s.copies[t].place.pc.SendOk? || s.copies[t].place.pc.Counted?
    ensures var s' := HandleStep(cfg, s, t, o);
            !s'.copies[t].place.pc.ReadyToAck? && Shows(s', s.copies[t].body.id, SnapAt(s'.copies[t]))
  {
    assert CopyOk(cfg, s, s.copies[t]);
  }

  /** The last statements of a handler: count a success, or publish after a failure. */
  lemma HandleShowsEnd(cfg: Config, s: State, t: nat, o: Outcome)
    requires Agreed(cfg, s) && Enabled(cfg, s, Handle(t, o)) && s.copies[t].body.attempt >= 1
    requires Shows(s, s.copies[t].body.id, SnapAt(s.copies[t]))
    requires s.copies[t].place.pc.MarkedSent? || s.copies[t].place.pc.RecordedFail?
    ensures var s' := HandleStep(cfg, s, t, o);
            var id := s.copies[t].body.id;
            var k := s.copies[t].body.attempt;
            if s.copies[t].place.pc.MarkedSent? then Shows(s', id, FinalSnap(cfg, k, Accepted))
            else if s'.copies[t].place.pc.DlqPublished?
            then Shows(s', id, FinalSnap(cfg, k, FailureOf(s.copies[t].place.pc.transient)).(status := Processing))
            else s'.copies[t].place.pc == ReadyToAck(Retried) && Shows(s', id, SnapAt(s'.copies[t]))
  {
    assert CopyOk(cfg, s, s.copies[t]);
  }

  /** A handler's step changes its own copy only. */
  lemma HandleKeepsOthers(cfg: Config, s: State, t: nat, o: Outcome)
    requires Enabled(cfg, s, Handle(t, o))
    ensures var s' := HandleStep(cfg, s, t, o);
            && |s'.copies| == |s.copies| && s'.copies[t].body == s.copies[t].body
            && forall x :: 0 <= x < |s.copies| && x != t ==> s'.copies[x] == s.copies[x]
  {
  }

  /** Only copy `t` changed, it still carries the submission and no DLQ publish is in sight. */
  lemma CarriesOn(cfg: Config, s: State, s': State, id: Id, t: nat)
    requires OnlyActive(s, id, t) && NoHolder(s, id) && s.copies[t].body.attempt >= 1
    requires |s'.copies| == |s.copies| && s'.copies[t].body == s.copies[t].body
    requires forall x :: 0 <= x < |s.copies| && x != t ==> s'.copies[x] == s.copies[x]
    requires Active(s'.copies[t]) && !HeldForOperator(s'.copies[t])
    requires s'.copies[t].place.Unacked? && !s'.copies[t].place.pc.DlqPublished?
    requires Shows(s', id, SnapAt(s'.copies[t]))
    ensures Carried(cfg, s', id, t)
  {
  }

  lemma CarrierProceeds(cfg: Config, s: State, id: Id, t: nat, o: Outcome)
    requires Agreed(cfg, s) && Carried(cfg, s, id, t) && Enabled(cfg, s, Handle(t, o))
    requires !s.copies[t].place.pc.DlqPublished? && !s.copies[t].place.pc.ReadyToAck?
    requires !s.copies[t].place.pc.MarkedSent? && !s.copies[t].place.pc.RecordedFail?
    ensures Simulated(cfg, HandleStep(cfg, s, t, o), id)
  {
    var s' := HandleStep(cfg, s, t, o);
    var pc := s.copies[t].place.pc;
    assert CopyOk(cfg, s, s.copies[t]);
    if pc.SendOk? || pc.Counted? {
      HandleShowsRecord(cfg, s, t, o);
    } else if pc.RecordedOk? || pc.SendFailed? {
      HandleShowsRow(cfg, s, t, o);
    } else {
      HandleShowsStart(cfg, s, t, o);
    }
    HandleKeepsOthers(cfg, s, t, o);
    CarriesOn(cfg, s, s', id, t);
  }

  lemma CarrierFinishes(cfg: Config, s: State, id: Id, t: nat, o: Outcome)
    requires Agreed(cfg, s) && Carried(cfg, s, id, t) && Enabled(cfg, s, Handle(t, o))
    requires s.copies[t].place.pc.MarkedSent? || s.copies[t].place.pc.RecordedFail?
    ensures Simulated(cfg, HandleStep(cfg, s, t, o), id)
  {
    var s' := HandleStep(cfg, s, t, o);
    var c, c' := s.copies[t], s'.copies[t];
    assert CopyOk(cfg, s, c);
    HandleShowsEnd(cfg, s, t, o);
    HandleKeepsOthers(cfg, s, t, o);
    if c'.place.pc.DlqPublished? {
      assert OneHolder(s', id, c.body.attempt, t);
      assert GivenUp(cfg, c.body.attempt, FailureOf(c.place.pc.transient));
      assert Carried(cfg, s', id, t);
    } else if c.place.pc.MarkedSent? {
      assert Ended(cfg, s', id, c.body.attempt, Accepted);
    } else {
      CarriesOn(cfg, s, s', id, t);
    }
  }

  lemma EndsDead(cfg: Config, s: State, s': State, id: Id, t: nat, h: nat, o: Outcome)
    requires OnlyActive(s, id, t) && s.copies[t].body.attempt >= 1
    requires |s'.copies| == |s.copies| && s'.copies[t].body == s.copies[t].body
    requires forall x :: 0 <= x < |s.copies| && x != t ==> s'.copies[x] == s.copies[x]
    requires !Active(s'.copies[t]) && HeldForOperator(s'.copies[t]) == HeldForOperator(s.copies[t])
    requires OneHolder(s, id, s.copies[t].body.attempt, h) && OnLadder(cfg, s.copies[t].body.attempt)
    requires GivenUp(cfg, s.copies[t].body.attempt, o) && Shows(s', id, FinalSnap(cfg, s.copies[t].body.attempt, o))
    ensures Ended(cfg, s', id, s.copies[t].body.attempt, o)
  {
    assert OneHolder(s', id, s.copies[t].body.attempt, h);
  }

  lemma MarksDead(cfg: Config, s: State, t: nat, o: Outcome, r: Outcome)
    requires Enabled(cfg, s, Handle(t, o)) && s.copies[t].place.pc.DlqPublished?
    requires s.copies[t].body.attempt >= 1 && GivenUp(cfg, s.copies[t].body.attempt, r)
    requires Shows(s, s.copies[t].body.id, FinalSnap(cfg, s.copies[t].body.attempt, r).(status := Processing))
    ensures Shows(HandleStep(cfg, s, t, o), s.copies[t].body.id, FinalSnap(cfg, s.copies[t].body.attempt, r))
  {
  }

  lemma CarrierMarksDead(cfg: Config, s: State, id: Id, t: nat, o: Outcome)
    requires Agreed(cfg, s) && Carried(cfg, s, id, t) && Enabled(cfg, s, Handle(t, o))
    requires s.copies[t].place.pc.DlqPublished?
    ensures Simulated(cfg, HandleStep(cfg, s, t, o), id)
  {
    var s' := HandleStep(cfg, s, t, o);
    var k := s.copies[t].body.attempt;
    assert CopyOk(cfg, s, s.copies[t]);
    HandleKeepsOthers(cfg, s, t, o);
    var h: nat, r: Outcome :|
      OneHolder(s, id, k, h) && GivenUp(cfg, k, r)
      && Shows(s, id, FinalSnap(cfg, k, r).(status := Processing));
    MarksDead(cfg, s, t, o, r);
    EndsDead(cfg, s, s', id, t, h, r);
  }

  lemma AckingAlike(cfg: Config, s: State, x: nat, o: Outcome, id: Id)
    requires Agreed(cfg, s) && Enabled(cfg, s, Handle(x, o)) && s.copies[x].place.pc.ReadyToAck?
    ensures Alike(s, HandleStep(cfg, s, x, o), id)
  {
    assert CopyOk(cfg, s, s.copies[x]);
    HandleKeepsOthers(cfg, s, x, o);
  }

  /** A copy that is not the carrier only acks, or hands its ack to the broker. */
  lemma IdleHandles(cfg: Config, s: State, id: Id, x: nat, o: Outcome)
    requires Agreed(cfg, s) && Simulated(cfg, s, id) && Enabled(cfg, s, Handle(x, o))
    requires s.copies[x].body.id == id && (Active(s.copies[x]) ==> s.copies[x].place.pc.ReadyToAck?)
    ensures Simulated(cfg, HandleStep(cfg, s, x, o), id)
  {
    assert CopyOk(cfg, s, s.copies[x]);
    AckingAlike(cfg, s, x, o, id);
    SimulatedSame(cfg, s, HandleStep(cfg, s, x, o), id);
  }

  /** The two states agree on all that the simulation looks at. */
  ghost predicate Alike(s: State, s': State, id: Id) {
    && |s'.copies| == |s.copies|
    && s'.rows == s.rows && s'.attempts == s.attempts && TallyOf(s', id) == TallyOf(s, id)
    && forall x :: 0 <= x < |s.copies| ==> AlikeCopies(s.copies[x], s'.copies[x], id)
  }

  /** Same activity, same hold for an operator and, on an active copy, the same snapshot. */
  predicate AlikeCopies(c: Copy, d: Copy, id: Id) {
    && d.body == c.body
    && (c.body.id == id ==>
          && Active(d) == Active(c) && HeldForOperator(d) == HeldForOperator(c)
          && (Active(c) && c.body.attempt >= 1 ==>
                SnapAt(d) == SnapAt(c) && (d.place.Unacked? && d.place.pc.DlqPublished?) ==
                                          (c.place.Unacked? && c.place.pc.DlqPublished?)))
  }

  lemma AlikeHolders(s: State, s': State, id: Id)
    requires Alike(s, s', id)
    ensures NoHolder(s, id) ==> NoHolder(s', id)
    ensures forall k: nat, h: nat :: OneHolder(s, id, k, h) ==> OneHolder(s', id, k, h)
    ensures forall t: nat :: OnlyActive(s, id, t) ==> OnlyActive(s', id, t)
    ensures forall snap :: Shows(s, id, snap) ==> Shows(s', id, snap)
    ensures (forall x :: 0 <= x < |s.copies| && s.copies[x].body.id == id ==> !Active(s.copies[x])) ==>
            (forall x :: 0 <= x < |s'.copies| && s'.copies[x].body.id == id ==> !Active(s'.copies[x]))
  {
  }

  lemma AlikeCarried(cfg: Config, s: State, s': State, id: Id, t: nat)
    requires Alike(s, s', id) && Carried(cfg, s, id, t)
    ensures Carried(cfg, s', id, t)
  {
    AlikeHolders(s, s', id);
    assert AlikeCopies(s.copies[t], s'.copies[t], id);
  }

  lemma AlikeEnded(cfg: Config, s: State, s': State, id: Id, k: nat, o: Outcome)
    requires Alike(s, s', id) && Ended(cfg, s, id, k, o)
    ensures Ended(cfg, s', id, k, o)
  {
    AlikeHolders(s, s', id);
  }

  lemma SimulatedSame(cfg: Config, s: State, s': State, id: Id)
    requires Simulated(cfg, s, id) && Alike(s, s', id)
    ensures Simulated(cfg, s', id)
  {
    if t: nat :| Carried(cfg, s, id, t) {
      AlikeCarried(cfg, s, s', id, t);
    } else {
      var k: nat, o: Outcome :| Ended(cfg, s, id, k, o);
      AlikeEnded(cfg, s, s', id, k, o);
    }
  }

  lemma MovesAlike(cfg: Config, s: State, id: Id, a: Action)
    requires Enabled(cfg, s, a) && (a.Deliver? || a.Expire?)
    ensures Alike(s, Apply(cfg, s, a), id)
  {
  }

  lemma Moves(cfg: Config, s: State, id: Id, a: Action)
    requires Agreed(cfg, s) && Simulated(cfg, s, id) && Enabled(cfg, s, a) && ActsOn(s, a, id)
    requires a.Deliver? || a.Expire?
    ensures Simulated(cfg, Apply(cfg, s, a), id)
  {
    MovesAlike(cfg, s, id, a);
    SimulatedSame(cfg, s, Apply(cfg, s, a), id);
  }

  lemma AckAlike(cfg: Config, s: State, id: Id, t: nat)
    requires Agreed(cfg, s) && Enabled(cfg, s, Flush(t)) && s.copies[t].place.unsent[0].Ack?
    ensures Alike(s, Apply(cfg, s, Flush(t)), id)
  {
    assert CopyOk(cfg, s, s.copies[t]);
  }

  lemma FlushesAck(cfg: Config, s: State, id: Id, t: nat)
    requires Agreed(cfg, s) && Simulated(cfg, s, id) && Enabled(cfg, s, Flush(t)) && ActsOn(s, Flush(t), id)
    requires s.copies[t].place.unsent[0].Ack?
    ensures Simulated(cfg, Apply(cfg, s, Flush(t)), id)
  {
    AckAlike(cfg, s, id, t);
    SimulatedSame(cfg, s, Apply(cfg, s, Flush(t)), id);
  }

  lemma RetryFrameShape(cfg: Config, s: State, t: nat)
    requires Agreed(cfg, s) && Enabled(cfg, s, Flush(t)) && s.copies[t].place.unsent[0].PublishRetry?
    ensures var s' := Apply(cfg, s, Flush(t));
            var c, d := s.copies[t], s'.copies[|s.copies|];
            && |s'.copies| == |s.copies| + 1
            && d.body == c.body.(attempt := c.body.attempt + 1)
            && d.place == ArrivalPlace(cfg, c.body.attempt, s.now)
            && !Active(s'.copies[t]) && !HeldForOperator(s'.copies[t])
            && (forall x :: 0 <= x < |s.copies| && x != t ==> s'.copies[x] == s.copies[x])
            && s'.rows == s.rows && s'.attempts == s.attempts && s'.tally == s.tally
            && Active(c) && OnLadder(cfg, c.body.attempt) && !Exhausted(cfg, c.body.attempt)
            && (c.place.pc == ReadyToAck(Retried) || c.place.pc == Done(Retried))
  {
    assert CopyOk(cfg, s, s.copies[t]);
  }

  /** What attempt k left behind is what attempt k+1 finds. */
  lemma NextAttemptShows(s: State, id: Id, c: Copy, d: Copy)
    requires c.place.Unacked? && (c.place.pc == ReadyToAck(Retried) || c.place.pc == Done(Retried))
    requires c.body.attempt >= 1 && d.body.attempt == c.body.attempt + 1 && d.place.Retry?
    requires Shows(s, id, SnapAt(c))
    ensures Shows(s, id, SnapAt(d))
  {
    assert Transients(c.body.attempt) == Transients(c.body.attempt - 1) + [TransientError];
  }

  /** The retry becomes the carrier, or is dropped and the submission ends. */
  lemma FlushesRetry(cfg: Config, s: State, id: Id, t: nat)
    requires Agreed(cfg, s) && Simulated(cfg, s, id) && Enabled(cfg, s, Flush(t)) && ActsOn(s, Flush(t), id)
    requires s.copies[t].place.unsent[0].PublishRetry?
    ensures Simulated(cfg, Apply(cfg, s, Flush(t)), id)
  {
    var s' := Apply(cfg, s, Flush(t));
    var n, k := |s.copies|, s.copies[t].body.attempt;
    RetryFrameShape(cfg, s, t);
    var carrier: nat :| Carried(cfg, s, id, carrier);
    assert carrier == t;
    if k <= |cfg.retryDelaysMs| {
      NextAttemptShows(s, id, s.copies[t], s'.copies[n]);
      ShowsSame(s, s', id, SnapAt(s'.copies[n]));
      RetryCarries(cfg, s, s', id, t);
    } else {
      assert SnapAt(s.copies[t]) == FinalSnap(cfg, k, TransientError);
      ShowsSame(s, s', id, FinalSnap(cfg, k, TransientError));
      RetryDropped(cfg, s, s', id, t);
    }
  }

  /** A frame of delivery `t`, the only active copy, has become a new copy. */
  ghost predicate Replaced(s: State, s': State, id: Id, t: nat) {
    && OnlyActive(s, id, t) && NoHolder(s, id) && |s'.copies| == |s.copies| + 1
    && (forall x :: 0 <= x < |s.copies| && x != t ==> s'.copies[x] == s.copies[x])
    && !Active(s'.copies[t]) && !HeldForOperator(s'.copies[t]) && s'.copies[|s.copies|].body.id == id
  }

  lemma RetryCarries(cfg: Config, s: State, s': State, id: Id, t: nat)
    requires Replaced(s, s', id, t) && s'.copies[|s.copies|].place.Retry? && s'.copies[|s.copies|].body.attempt >= 1
    requires Shows(s', id, SnapAt(s'.copies[|s.copies|]))
    ensures Carried(cfg, s', id, |s.copies|)
  {
  }

  lemma RetryDropped(cfg: Config, s: State, s': State, id: Id, t: nat)
    requires Replaced(s, s', id, t) && s'.copies[|s.copies|].place.Unroutable?
    requires var k := s.copies[t].body.attempt;
             OnLadder(cfg, k) && Dropped(cfg, k, TransientError) && Shows(s', id, FinalSnap(cfg, k, TransientError))
    ensures Ended(cfg, s', id, s.copies[t].body.attempt, TransientError)
  {
  }

  lemma HolderMoves(s: State, s': State, id: Id, t: nat, k: nat)
    requires t < |s.copies| && OneHolder(s, id, k, t)
    requires |s'.copies| == |s.copies| + 1 && s'.copies[|s.copies|].body == s.copies[t].body
    requires s'.copies[|s.copies|].place.DeadLetter? && !HeldForOperator(s'.copies[t])
    requires forall x :: 0 <= x < |s.copies| && x != t ==> s'.copies[x] == s.copies[x]
    ensures OneHolder(s', id, k, |s.copies|)
  {
  }

  /** The DLQ publish of delivery `t` has become a copy in the dead-letter queue. */
  ghost predicate DlqShape(s: State, s': State, t: nat) {
    && t < |s.copies| && |s'.copies| == |s.copies| + 1
    && s'.copies[|s.copies|].body == s.copies[t].body && s'.copies[|s.copies|].place.DeadLetter?
    && s'.copies[t].body == s.copies[t].body
    && s'.copies[t].place.Unacked? && s.copies[t].place.Unacked? && s'.copies[t].place.pc == s.copies[t].place.pc
    && HeldForOperator(s.copies[t]) && !HeldForOperator(s'.copies[t]) && Active(s'.copies[t]) == Active(s.copies[t])
    && (forall x :: 0 <= x < |s.copies| && x != t ==> s'.copies[x] == s.copies[x])
    && s'.rows == s.rows && s'.attempts == s.attempts && s'.tally == s.tally
  }

  lemma DlqFrameShape(cfg: Config, s: State, t: nat)
    requires Agreed(cfg, s) && Enabled(cfg, s, Flush(t)) && s.copies[t].place.unsent[0].PublishDlq?
    ensures DlqShape(s, Apply(cfg, s, Flush(t)), t)
  {
    assert CopyOk(cfg, s, s.copies[t]);
  }

  lemma ShowsSame(s: State, s': State, id: Id, snap: Snap)
    requires s'.rows == s.rows && s'.attempts == s.attempts && s'.tally == s.tally && Shows(s, id, snap)
    ensures Shows(s', id, snap)
  {
  }

  lemma CarriedFlushesDlq(cfg: Config, s: State, s': State, id: Id, t: nat, x: nat)
    requires Carried(cfg, s, id, x) && DlqShape(s, s', t) && s.copies[t].body.id == id
    ensures Carried(cfg, s', id, x)
  {
    assert Holder(s.copies[t], id);
    var k := s.copies[x].body.attempt;
    var h: nat, o: Outcome :|
      OneHolder(s, id, k, h) && GivenUp(cfg, k, o)
      && Shows(s, id, FinalSnap(cfg, k, o).(status := Processing));
    HolderMoves(s, s', id, t, k);
    ShowsSame(s, s', id, FinalSnap(cfg, k, o).(status := Processing));
    assert OnlyActive(s', id, x);
  }

  lemma EndedFlushesDlq(cfg: Config, s: State, s': State, id: Id, t: nat, k: nat, o: Outcome)
    requires Ended(cfg, s, id, k, o) && DlqShape(s, s', t) && s.copies[t].body.id == id
    ensures Ended(cfg, s', id, k, o)
  {
    assert Holder(s.copies[t], id);
    var h: nat :| OneHolder(s, id, k, h);
    HolderMoves(s, s', id, t, k);
    ShowsSame(s, s', id, FinalSnap(cfg, k, o));
  }

  lemma FlushesDlq(cfg: Config, s: State, id: Id, t: nat)
    requires Agreed(cfg, s) && Simulated(cfg, s, id) && Enabled(cfg, s, Flush(t)) && ActsOn(s, Flush(t), id)
    requires s.copies[t].place.unsent[0].PublishDlq?
    ensures Simulated(cfg, Apply(cfg, s, Flush(t)), id)
  {
    var s' := Apply(cfg, s, Flush(t));
    DlqFrameShape(cfg, s, t);
    if x: nat :| Carried(cfg, s, id, x) {
      CarriedFlushesDlq(cfg, s, s', id, t, x);
    } else {
      var k: nat, o: Outcome :| Ended(cfg, s, id, k, o);
      EndedFlushesDlq(cfg, s, s', id, t, k, o);
    }
  }

  // ---------------------------------------------------------------- every step

  lemma ActingStep(cfg: Config, s: State, a: Action, id: Id)
    requires Agreed(cfg, s) && Simulated(cfg, s, id) && Enabled(cfg, s, a) && ActsOn(s, a, id) && !a.Requeue?
    ensures Simulated(cfg, Apply(cfg, s, a), id)
  {
    if a.Deliver? || a.Expire? {
      Moves(cfg, s, id, a);
    } else if a.Flush? {
      if s.copies[a.copy].place.unsent[0].Ack? {
        FlushesAck(cfg, s, id, a.copy);
      } else if s.copies[a.copy].place.unsent[0].PublishRetry? {
        FlushesRetry(cfg, s, id, a.copy);
      } else {
        FlushesDlq(cfg, s, id, a.copy);
      }
    } else if !Active(s.copies[a.copy]) || s.copies[a.copy].place.pc.ReadyToAck? {
      IdleHandles(cfg, s, id, a.copy, a.outcome);
    } else {
      var t: nat :| Carried(cfg, s, id, t);
      assert t == a.copy;
      if s.copies[t].place.pc.DlqPublished? {
        CarrierMarksDead(cfg, s, id, t, a.outcome);
      } else if s.copies[t].place.pc.MarkedSent? || s.copies[t].place.pc.RecordedFail? {
        CarrierFinishes(cfg, s, id, t, a.outcome);
      } else {
        CarrierProceeds(cfg, s, id, t, a.outcome);
      }
    }
  }

  lemma FirstSubmission(cfg: Config, s: State, p: nat, id: Id)
    requires Agreed(cfg, s) && UntouchedIfUnpublished(s) && Enabled(cfg, s, FlushPost(p))
    requires s.posts[p].stage.id == id && TallyOf(s, id).published == 0
    ensures Simulated(cfg, Apply(cfg, s, FlushPost(p)), id)
  {
    var s' := Apply(cfg, s, FlushPost(p));
    var n := |s.copies|;
    assert StageOk(s.rows, s.posts[p].key, s.posts[p].stage);
    assert forall x :: 0 <= x < n ==> s.copies[x].body.id != id && s'.copies[x] == s.copies[x];
    assert Transients(0) == [];
    assert forall j: nat :: (id, j) !in s.attempts;
    assert Shows(s', id, SnapAt(s'.copies[n]));
    assert Carried(cfg, s', id, n);
  }

  lemma CountsGrow(cfg: Config, s: State, a: Action, id: Id)
    requires Enabled(cfg, s, a)
    ensures TallyOf(Apply(cfg, s, a), id).requeued ==
            TallyOf(s, id).requeued + if a.Requeue? && s.copies[a.copy].body.id == id then 1 else 0
  {
  }

  lemma SimulatedStep(cfg: Config, s: State, a: Action, id: Id)
    requires Agreed(cfg, s) && UntouchedIfUnpublished(s) && Enabled(cfg, s, a)
    requires Single(s, id) ==> Simulated(cfg, s, id)
    requires Single(Apply(cfg, s, a), id)
    ensures Simulated(cfg, Apply(cfg, s, a), id)
  {
    PublishedCount(cfg, s, a, id);
    CountsGrow(cfg, s, a, id);
    if a.FlushPost? && s.posts[a.post].stage.id == id {
      FirstSubmission(cfg, s, a.post, id);
    } else if ActsOn(s, a, id) {
      ActingStep(cfg, s, a, id);
    } else {
      SimulatedElsewhere(cfg, s, a, id);
    }
  }

  lemma {:induction false} SimulatedRun(cfg: Config, acts: seq<Action>, id: Id)
    requires Exec(cfg, Init(), acts).Some? && Single(Exec(cfg, Init(), acts).value, id)
    ensures Simulated(cfg, Exec(cfg, Init(), acts).value, id)
  {
    assert acts != [];
    LastStep(cfg, Init(), acts);
    var s := Exec(cfg, Init(), acts[..|acts| - 1]).value;
    if Single(s, id) {
      SimulatedRun(cfg, acts[..|acts| - 1], id);
    }
    AgreedRun(cfg, acts[..|acts| - 1]);
    UntouchedRun(cfg, acts[..|acts| - 1]);
    SimulatedStep(cfg, s, acts[|acts| - 1], id);
  }

  // ---------------------------------------------------------------- main results

  function TransientRows(n: nat): seq<AttemptStatus> {
    seq(n, _ => TransientFailure)
  }

  lemma {:induction false} LoopOfTransients(cfg: Config, j: nat, n: nat, o: Outcome)
    requires FinalOutcome(cfg, j + n + 1, o) && (n > 0 ==> j + n <= cfg.maxRetries && j + n <= |cfg.retryDelaysMs|)
    ensures Loop(cfg.maxRetries, |cfg.retryDelaysMs|, Transients(n) + [o], TransientRows(j)) ==
            Verdict(FinalStatus(cfg, j + n + 1, o), TransientRows(j + n) + [StatusOf(o)], j + n + 1,
                    if GivenUp(cfg, j + n + 1, o) then [j + n + 1] else [])
    decreases n
  {
    if n == 0 {
      assert Transients(0) + [o] == [o];
    } else {
      assert (Transients(n) + [o])[1..] == Transients(n - 1) + [o];
      assert TransientRows(j) + [TransientFailure] == TransientRows(j + 1);
      LoopOfTransients(cfg, j + 1, n - 1, o);
    }
  }

  ghost predicate InDlqAt(s: State, id: Id, k: nat) {
    exists t :: 0 <= t < |s.copies| && s.copies[t].body.id == id && s.copies[t].body.attempt == k
                && s.copies[t].place.DeadLetter?
  }

  /** The database and the dead-letter queue hold exactly what `v` says about `id`. */
  ghost predicate Realizes(s: State, id: Id, v: Verdict) {
    && id in s.rows
    && s.rows[id].status == v.status && s.rows[id].attemptCount == v.attemptCount
    && (forall j: nat :: (id, j) in s.attempts <==> 1 <= j <= |v.rows|)
    && (forall j: nat :: 1 <= j <= |v.rows| && (id, j) in s.attempts ==>
          s.attempts[(id, j)].status == v.rows[j - 1])
    && (forall j: nat :: InDlqAt(s, id, j) <==> j in v.dlq)
    && (forall x, y ::
          (0 <= x < |s.copies| && s.copies[x].body.id == id && s.copies[x].place.DeadLetter?
           && 0 <= y < |s.copies| && s.copies[y].body.id == id && s.copies[y].place.DeadLetter?) ==> x == y)
  }

  lemma EndedDlq(cfg: Config, s: State, id: Id, k: nat, o: Outcome, j: nat)
    requires Ended(cfg, s, id, k, o) && Quiescent(s)
    ensures InDlqAt(s, id, j) <==> GivenUp(cfg, k, o) && j == k
  {
    if InDlqAt(s, id, j) {
      var t :| 0 <= t < |s.copies| && s.copies[t].body.id == id && s.copies[t].body.attempt == j
               && s.copies[t].place.DeadLetter?;
      assert Holder(s.copies[t], id);
    }
    if GivenUp(cfg, k, o) {
      var h: nat :| OneHolder(s, id, k, h);
      assert AtRest(s.copies[h]);
      assert s.copies[h].place.DeadLetter?;
    }
  }

  lemma EndedDlqOnce(cfg: Config, s: State, id: Id, k: nat, o: Outcome, x: nat, y: nat)
    requires Ended(cfg, s, id, k, o) && x < |s.copies| && y < |s.copies|
    requires s.copies[x].body.id == id && s.copies[x].place.DeadLetter?
    requires s.copies[y].body.id == id && s.copies[y].place.DeadLetter?
    ensures x == y
  {
    assert Holder(s.copies[x], id) && Holder(s.copies[y], id);
  }

  lemma EndedRealizes(cfg: Config, s: State, id: Id, k: nat, o: Outcome)
    requires Ended(cfg, s, id, k, o) && Quiescent(s)
    ensures Realizes(s, id, Loop(cfg.maxRetries, |cfg.retryDelaysMs|, TallyOf(s, id).outcomes, []))
    ensures |TallyOf(s, id).outcomes| == s.rows[id].attemptCount
  {
    LoopOfTransients(cfg, 0, k - 1, o);
    assert TransientRows(0) == [];
    forall j: nat ensures InDlqAt(s, id, j) <==> j in (if GivenUp(cfg, k, o) then [k] else []) {
      EndedDlq(cfg, s, id, k, o, j);
    }
    forall x, y | 0 <= x < |s.copies| && 0 <= y < |s.copies| && s.copies[x].body.id == id
                  && s.copies[y].body.id == id && s.copies[x].place.DeadLetter? && s.copies[y].place.DeadLetter?
      ensures x == y
    {
      EndedDlqOnce(cfg, s, id, k, o, x, y);
    }
  }

  lemma CarriedMoves(cfg: Config, s: State, id: Id, t: nat)
    requires Carried(cfg, s, id, t)
    ensures !Quiescent(s)
  {
    assert !AtRest(s.copies[t]);
  }

  /**
   The refinement. A notification submitted once and never requeued, in a run at rest, has the status, the attempt
   rows, the attempt_count and the dead-letter content that the sequential loop computes from the results its
   sends returned, and exactly as many sends as attempts.
   */
  lemma PipelineRefinesLoop(cfg: Config, acts: seq<Action>, id: Id)
    requires Exec(cfg, Init(), acts).Some?
    requires Single(Exec(cfg, Init(), acts).value, id) && Quiescent(Exec(cfg, Init(), acts).value)
    ensures var s := Exec(cfg, Init(), acts).value;
            && Realizes(s, id, Loop(cfg.maxRetries, |cfg.retryDelaysMs|, TallyOf(s, id).outcomes, []))
            && |TallyOf(s, id).outcomes| == s.rows[id].attemptCount
  {
    var s := Exec(cfg, Init(), acts).value;
    SimulatedRun(cfg, acts, id);
    if t: nat :| Carried(cfg, s, id, t) {
      CarriedMoves(cfg, s, id, t);
      assert false;
    }
    var k: nat, o: Outcome :| Ended(cfg, s, id, k, o);
    EndedRealizes(cfg, s, id, k, o);
  }
}
