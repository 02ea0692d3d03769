/**
 What goes wrong with the messages: a ladder shorter than maxRetries loses notifications, exactly then, a POST cut off
 before its publish strands one, and a crash can leave a DEAD_LETTERED notification to a message in the main queue.
 */
module LosingRuns {
  import opened Domain
  import opened Protocol
  import opened Convergence

  // ---------------------------------------------------------------- one submission

  ghost predicate Reaches(cfg: Config, acts: seq<Action>, s: State) {
    Exec(cfg, Init(), acts) == Some(s)
  }

  lemma Extend(cfg: Config, acts: seq<Action>, s: State, a: Action)
    requires Reaches(cfg, acts, s) && Enabled(cfg, s, a)
    ensures Reaches(cfg, acts + [a], Apply(cfg, s, a))
  {
    ExecSnoc(cfg, Init(), acts, a);
  }

  predicate AllOuter(acts: seq<Action>) {
    forall i :: 0 <= i < |acts| ==> Outer(acts[i])
  }

  /** A first POST for `channel`, up to the row's insertion. */
  lemma Stores(cfg: Config, channel: Channel) returns (acts: seq<Action>, s: State)
    ensures Reaches(cfg, acts, s) && AllOuter(acts)
    ensures s.rows == map[0 := Row(0, channel, Normal, Pending, 0)]
    ensures s.posts == [Post(0, channel, Normal, Stored(0, channel, Normal))]
    ensures s.copies == [] && s.tally == map[] && s.attempts == map[] && s.now == 0
  {
    s := Init();
    acts := [];
    Extend(cfg, acts, s, Arrive(0, channel, Normal));
    acts, s := acts + [Arrive(0, channel, Normal)], Apply(cfg, s, Arrive(0, channel, Normal));
    Extend(cfg, acts, s, LookUp(0, None));
    acts, s := acts + [LookUp(0, None)], Apply(cfg, s, LookUp(0, None));
    Extend(cfg, acts, s, Insert(0, 0));
    acts, s := acts + [Insert(0, 0)], Apply(cfg, s, Insert(0, 0));
  }

  lemma Submits(cfg: Config, channel: Channel) returns (acts: seq<Action>, s: State)
    ensures Reaches(cfg, acts, s) && AllOuter(acts)
    ensures s.rows == map[0 := Row(0, channel, Normal, Pending, 0)] && |s.posts| == 1
    ensures s.copies == [Copy(Message(0, 1, 3), channel, 3, 0, Main)] && s.now == 0 && s.attempts == map[]
    ensures TallyOf(s, 0) == NO_TALLY.(published := 1)
  {
    acts, s := Stores(cfg, channel);
    Extend(cfg, acts, s, PublishPost(0));
    acts, s := acts + [PublishPost(0)], Apply(cfg, s, PublishPost(0));
    Extend(cfg, acts, s, FlushPost(0));
    acts, s := acts + [FlushPost(0)], Apply(cfg, s, FlushPost(0));
  }

  /** The same key is posted again: its one notification gets a second message. */
  lemma Resubmits(cfg: Config, channel: Channel) returns (acts: seq<Action>, s: State)
    ensures Reaches(cfg, acts, s) && AllOuter(acts)
    ensures s.rows == map[0 := Row(0, channel, Normal, Pending, 0)]
    ensures s.copies == [Copy(Message(0, 1, 3), channel, 3, 0, Main), Copy(Message(0, 1, 3), channel, 3, 0, Main)]
    ensures s.attempts == map[] && TallyOf(s, 0) == NO_TALLY.(published := 2)
  {
    acts, s := Submits(cfg, channel);
    var more := [Arrive(0, channel, Normal), LookUp(1, Some(0)), PublishPost(1)];
    var first := s;
    for i := 0 to 3
      invariant Reaches(cfg, acts, s) && AllOuter(acts)
      invariant s.rows == first.rows && s.copies == first.copies && s.tally == first.tally && s.now == first.now
      invariant s.attempts == first.attempts
      invariant |s.posts| == if i == 0 then 1 else 2
      invariant i == 1 ==> s.posts[1] == Post(0, channel, Normal, Arrived)
      invariant i == 2 ==> s.posts[1].stage == Stored(0, channel, Normal)
      invariant i == 3 ==> s.posts[1].stage == Publishing(0, channel, Normal)
    {
      Extend(cfg, acts, s, more[i]);
      acts, s := acts + [more[i]], Apply(cfg, s, more[i]);
    }
    Extend(cfg, acts, s, FlushPost(1));
    acts, s := acts + [FlushPost(1)], Apply(cfg, s, FlushPost(1));
  }

  /** A crash between the commit and the publish leaves an accepted notification PENDING with no message. */
  lemma CrashBeforePublishStrands(cfg: Config) returns (acts: seq<Action>, s: State)
    ensures Reaches(cfg, acts, s) && Quiescent(s)
    ensures 0 in s.rows && s.rows[0].status.Pending? && TallyOf(s, 0).published == 0 && s.copies == []
  {
    acts, s := Stores(cfg, Email);
    Extend(cfg, acts, s, PublishPost(0));
    acts, s := acts + [PublishPost(0)], Apply(cfg, s, PublishPost(0));
    Extend(cfg, acts, s, AbortPost(0));
    acts, s := acts + [AbortPost(0)], Apply(cfg, s, AbortPost(0));
  }

  // ---------------------------------------------------------------- one handler of notification 0

  function StatusAfter(pc: Pc, status: Status): Status {
    match pc
    case Admitted => Processing
    case RecordedOk => Sent
    case DlqPublished => DeadLettered
    case _ => status
  }

  /** Delivery `t` of notification 0 stands at `pc` with worker 0. */
  ghost predicate Stands(cfg: Config, s: State, t: nat, pc: Pc, status: Status) {
    && cfg.workers != [] && t < |s.copies|
    && s.copies[t].body == Message(0, 1, 3) && s.copies[t].channel == cfg.workers[0]
    && s.copies[t].place.Unacked? && s.copies[t].place.worker == 0 && s.copies[t].place.pc == pc
    && 0 in s.rows && s.rows[0].status == status
  }

  function PcAfter(cfg: Config, pc: Pc, o: Outcome): Pc
    requires !pc.Done?
  {
    if pc.Received? then Admitted else NextPc(cfg, map[], Message(0, 1, 3), pc, o)
  }

  lemma StandsNext(cfg: Config, acts: seq<Action>, s: State, t: nat, pc: Pc, status: Status, o: Outcome)
    returns (acts': seq<Action>, s': State)
    requires Reaches(cfg, acts, s) && Stands(cfg, s, t, pc, status) && !pc.Done?
    requires pc.Received? ==> status != Sent && status != Cancelled
    ensures Reaches(cfg, acts', s') && Stands(cfg, s', t, PcAfter(cfg, pc, o), StatusAfter(pc, status))
    ensures s'.attempts == AttemptsAfter(s.attempts, Message(0, 1, 3), cfg.workers[0], pc)
    ensures s'.copies[t].place.unsent ==
            s.copies[t].place.unsent + FramesAfter(cfg, Message(0, 1, 3), cfg.workers[0], pc)
    ensures TallyOf(s', 0).published == TallyOf(s, 0).published && TallyOf(s', 0).requeued == TallyOf(s, 0).requeued
    ensures |s'.copies| == |s.copies| && forall x :: 0 <= x < |s.copies| && x != t ==> s'.copies[x] == s.copies[x]
  {
    Extend(cfg, acts, s, Handle(t, o));
    acts', s' := acts + [Handle(t, o)], Apply(cfg, s, Handle(t, o));
  }

  lemma Begins(cfg: Config, acts: seq<Action>, s: State, t: nat) returns (acts': seq<Action>, s': State)
    requires Reaches(cfg, acts, s) && cfg.workers != [] && t < |s.copies| && 0 in s.rows
    requires s.copies[t].body == Message(0, 1, 3) && s.copies[t].channel == cfg.workers[0] && s.copies[t].place.Main?
    ensures Reaches(cfg, acts', s') && Stands(cfg, s', t, Received, s.rows[0].status)
    ensures s'.attempts == s.attempts && s'.tally == s.tally && s'.copies[t].place.unsent == []
    ensures |s'.copies| == |s.copies| && forall x :: 0 <= x < |s.copies| && x != t ==> s'.copies[x] == s.copies[x]
  {
    Extend(cfg, acts, s, Deliver(t, 0));
    acts', s' := acts + [Deliver(t, 0)], Apply(cfg, s, Deliver(t, 0));
  }

  /** From the status test to the record of an attempt that ended with `o`. */
  lemma AttemptsOnce(cfg: Config, acts: seq<Action>, s: State, t: nat, o: Outcome)
    returns (acts': seq<Action>, s': State)
    requires Reaches(cfg, acts, s) && cfg.workers != [] && t < |s.copies| && 0 in s.rows
    requires s.copies[t].body == Message(0, 1, 3) && s.copies[t].channel == cfg.workers[0] && s.copies[t].place.Main?
    requires s.rows[0].status != Sent && s.rows[0].status != Cancelled
    ensures Reaches(cfg, acts', s')
    ensures Stands(cfg, s', t, if o.Accepted? then SendOk else Counted(o.TransientError?), Processing)
    ensures s'.attempts == s.attempts && s'.copies[t].place.unsent == []
    ensures TallyOf(s', 0).published == TallyOf(s, 0).published && TallyOf(s', 0).requeued == TallyOf(s, 0).requeued
    ensures |s'.copies| == |s.copies| && forall x :: 0 <= x < |s.copies| && x != t ==> s'.copies[x] == s.copies[x]
  {
    acts', s' := Begins(cfg, acts, s, t);
    acts', s' := StandsNext(cfg, acts', s', t, Received, s.rows[0].status, o);
    acts', s' := StandsNext(cfg, acts', s', t, Admitted, s.rows[0].status, o);
    acts', s' := StandsNext(cfg, acts', s', t, Sending, Processing, o);
    if !o.Accepted? {
      acts', s' := StandsNext(cfg, acts', s', t, SendFailed(o.TransientError?), Processing, o);
    }
  }

  /** A permanently rejected attempt up to its ack, with its DLQ publish still in the socket. */
  lemma GivesUp(cfg: Config, acts: seq<Action>, s: State, t: nat) returns (acts': seq<Action>, s': State)
    requires Reaches(cfg, acts, s) && Stands(cfg, s, t, Counted(false), Processing)
    requires s.copies[t].place.unsent == []
    ensures Reaches(cfg, acts', s') && Stands(cfg, s', t, ReadyToAck(Parked), DeadLettered)
    ensures s'.attempts == Record(s.attempts, 0, 1, cfg.workers[0], PermanentFailure)
    ensures TallyOf(s', 0).published == TallyOf(s, 0).published && TallyOf(s', 0).requeued == TallyOf(s, 0).requeued
    ensures |s'.copies| == |s.copies| && forall x :: 0 <= x < |s.copies| && x != t ==> s'.copies[x] == s.copies[x]
  {
    acts', s' := StandsNext(cfg, acts, s, t, Counted(false), Processing, PermanentError);
    acts', s' := StandsNext(cfg, acts', s', t, RecordedFail(false), Processing, PermanentError);
    acts', s' := StandsNext(cfg, acts', s', t, DlqPublished, Processing, PermanentError);
  }

  /** A worker dies after markDeadLettered, its DLQ publish unsent. */
  lemma ParkingCutOff(cfg: Config) returns (acts: seq<Action>, s: State)
    requires cfg.workers != []
    ensures Reaches(cfg, acts, s) && 0 in s.rows && s.rows[0].status.DeadLettered? && TallyOf(s, 0).published == 1
    ensures |s.copies| == 1 && s.copies[0].place.Main?
    ensures s.copies[0].body == Message(0, 1, 3) && s.copies[0].channel == cfg.workers[0]
  {
    acts, s := Submits(cfg, cfg.workers[0]);
    acts, s := AttemptsOnce(cfg, acts, s, 0, PermanentError);
    acts, s := GivesUp(cfg, acts, s, 0);
    Extend(cfg, acts, s, Requeue(0));
    acts, s := acts + [Requeue(0)], Apply(cfg, s, Requeue(0));
  }

  /** All that is left of a notification is one queued message. */
  lemma OnlyMessageCovers(s: State)
    requires 0 in s.rows && s.rows[0].status.DeadLettered?
    requires |s.copies| == 1 && s.copies[0].body.id == 0 && s.copies[0].place.Main?
    ensures !InDlq(s, 0) && Covered(s, 0) && !Covered(MoveCopy(s, 0, Acked), 0)
  {
    assert Covers(s.copies[0], 0, s.rows[0].status);
  }

  /**
   Why DEAD_LETTERED must pass the status test. A worker that dies after markDeadLettered with its DLQ publish unsent
   leaves a DEAD_LETTERED row whose only message is back in the main queue: were it acked unhandled, nothing would be
   left of the notification. As coded it is attempted again.
   */
  lemma DeadLetteredLeftInQueue(cfg: Config)
    returns (acts: seq<Action>, s: State, acts': seq<Action>, s': State)
    requires cfg.workers != []
    ensures Reaches(cfg, acts, s) && 0 in s.rows && s.rows[0].status.DeadLettered? && TallyOf(s, 0).published == 1
    ensures |s.copies| == 1 && s.copies[0].place.Main? && !InDlq(s, 0)
    ensures Covered(s, 0) && !Covered(MoveCopy(s, 0, Acked), 0)
    ensures Reaches(cfg, acts', s') && Stands(cfg, s', 0, Sending, Processing)
  {
    acts, s := ParkingCutOff(cfg);
    OnlyMessageCovers(s);
    acts', s' := Begins(cfg, acts, s, 0);
    acts', s' := StandsNext(cfg, acts', s', 0, Received, DeadLettered, Accepted);
    acts', s' := StandsNext(cfg, acts', s', 0, Admitted, DeadLettered, Accepted);
  }

  // ---------------------------------------------------------------- a ladder that is too short

  /** The statements of a handler whose send fails transiently and which may retry. */
  function PathPc(i: nat): Pc
    requires i <= 7
  {
    [Received, Admitted, Sending, SendFailed(true), Counted(true), RecordedFail(true), ReadyToAck(Retried),
     Done(Retried)][i]
  }

  function PathFrames(c: Copy, i: nat): seq<Frame> {
    (if i >= 6
     then [PublishRetry(c.channel, c.body.attempt, c.body.(attempt := c.body.attempt + 1), c.body.priority)]
     else []) + if i >= 7 then [Ack] else []
  }

  /** Notification 0 is undecided, its last copy is at attempt `k` of a queue worker 0 consumes, the rest is over. */
  ghost predicate OnlyLastMoves(cfg: Config, s: State, k: nat) {
    && cfg.workers != [] && |s.copies| >= 1
    && 0 in s.rows && s.rows[0].status in {Pending, Processing} && TallyOf(s, 0).published > 0
    && s.copies[|s.copies| - 1].body.id == 0 && s.copies[|s.copies| - 1].body.attempt == k
    && s.copies[|s.copies| - 1].channel == cfg.workers[0]
    && forall t :: 0 <= t < |s.copies| - 1 ==> AtRest(s.copies[t])
  }

  ghost predicate OnPath(cfg: Config, s: State, k: nat, i: nat) {
    && i <= 7 && OnlyLastMoves(cfg, s, k)
    && (i >= 2 ==> s.rows[0].status.Processing?)
    && s.copies[|s.copies| - 1].place == Unacked(0, PathPc(i), PathFrames(s.copies[|s.copies| - 1], i))
  }

  lemma PathStep(cfg: Config, s: State, k: nat, i: nat)
    requires i < 7 && OnPath(cfg, s, k, i) && !Exhausted(cfg, k)
    ensures Enabled(cfg, s, Handle(|s.copies| - 1, TransientError))
    ensures OnPath(cfg, Apply(cfg, s, Handle(|s.copies| - 1, TransientError)), k, i + 1)
  {
  }

  lemma {:induction false} WalksPath(cfg: Config, acts: seq<Action>, s: State, k: nat, i: nat)
    returns (acts': seq<Action>, s': State)
    requires Reaches(cfg, acts, s) && OnPath(cfg, s, k, i) && !Exhausted(cfg, k)
    ensures Reaches(cfg, acts', s') && OnPath(cfg, s', k, 7)
    decreases 7 - i
  {
    if i == 7 {
      acts', s' := acts, s;
    } else {
      var a := Handle(|s.copies| - 1, TransientError);
      PathStep(cfg, s, k, i);
      Extend(cfg, acts, s, a);
      acts', s' := WalksPath(cfg, acts + [a], Apply(cfg, s, a), k, i + 1);
    }
  }

  lemma SendsBoth(cfg: Config, acts: seq<Action>, s: State, k: nat) returns (acts': seq<Action>, s': State)
    requires Reaches(cfg, acts, s) && OnPath(cfg, s, k, 7)
    ensures Reaches(cfg, acts', s') && OnlyLastMoves(cfg, s', k + 1) && s'.rows[0].status.Processing?
    ensures s'.copies[|s'.copies| - 1].place == ArrivalPlace(cfg, k, s'.now)
  {
    var t := |s.copies| - 1;
    Extend(cfg, acts, s, Flush(t));
    acts', s' := acts + [Flush(t)], Apply(cfg, s, Flush(t));
    Extend(cfg, acts', s', Flush(t));
    acts', s' := acts' + [Flush(t)], Apply(cfg, s', Flush(t));
  }

  /** One transient failure at attempt `k`: the retry is published to rung `k`, declared or not. */
  lemma FailsTransiently(cfg: Config, acts: seq<Action>, s: State, k: nat) returns (acts': seq<Action>, s': State)
    requires Reaches(cfg, acts, s) && OnlyLastMoves(cfg, s, k) && s.copies[|s.copies| - 1].place.Main?
    requires !Exhausted(cfg, k)
    ensures Reaches(cfg, acts', s') && OnlyLastMoves(cfg, s', k + 1) && s'.rows[0].status.Processing?
    ensures s'.copies[|s'.copies| - 1].place == ArrivalPlace(cfg, k, s'.now)
  {
    var a := Deliver(|s.copies| - 1, 0);
    Extend(cfg, acts, s, a);
    acts', s' := WalksPath(cfg, acts + [a], Apply(cfg, s, a), k, 0);
    acts', s' := SendsBoth(cfg, acts', s', k);
  }

  lemma Expires(cfg: Config, acts: seq<Action>, s: State, k: nat) returns (acts': seq<Action>, s': State)
    requires Reaches(cfg, acts, s) && OnlyLastMoves(cfg, s, k + 1) && 1 <= k <= |cfg.retryDelaysMs|
    requires s.copies[|s.copies| - 1].place == ArrivalPlace(cfg, k, s.now)
    ensures Reaches(cfg, acts', s') && OnlyLastMoves(cfg, s', k + 1) && s'.copies[|s'.copies| - 1].place.Main?
  {
    var wait := Tick(cfg.retryDelaysMs[k - 1]);
    Extend(cfg, acts, s, wait);
    acts', s' := acts + [wait], Apply(cfg, s, wait);
    var a := Expire(|s.copies| - 1);
    Extend(cfg, acts', s', a);
    acts', s' := acts' + [a], Apply(cfg, s', a);
  }

  lemma {:induction false} ClimbsTo(cfg: Config, k: nat) returns (acts: seq<Action>, s: State)
    requires cfg.workers != [] && 1 <= k <= |cfg.retryDelaysMs| + 1 && k <= cfg.maxRetries
    ensures Reaches(cfg, acts, s) && OnlyLastMoves(cfg, s, k) && s.copies[|s.copies| - 1].place.Main?
  {
    if k == 1 {
      acts, s := Submits(cfg, cfg.workers[0]);
    } else {
      acts, s := ClimbsTo(cfg, k - 1);
      acts, s := FailsTransiently(cfg, acts, s, k - 1);
      acts, s := Expires(cfg, acts, s, k - 1);
    }
  }

  /** A published notification that nothing will ever decide. */
  ghost predicate Lost(s: State, id: Id) {
    Quiescent(s) && id in s.rows && TallyOf(s, id).published > 0 && s.rows[id].status !in {Sent, DeadLettered}
  }

  ghost predicate CanLose(cfg: Config) {
    exists acts: seq<Action>, s: State, id: Id :: Reaches(cfg, acts, s) && Lost(s, id)
  }

  lemma ShortLadderLoses(cfg: Config) returns (acts: seq<Action>, s: State)
    requires cfg.workers != [] && !LadderCoversRetries(cfg)
    ensures Reaches(cfg, acts, s) && Lost(s, 0)
  {
    var k := |cfg.retryDelaysMs| + 1;
    acts, s := ClimbsTo(cfg, k);
    acts, s := FailsTransiently(cfg, acts, s, k);
  }

  /** The exact condition: a run can lose a notification if and only if maxRetries exceeds the number of delays. */
  lemma LosesIffLadderShort(cfg: Config)
    requires cfg.workers != []
    ensures CanLose(cfg) <==> !LadderCoversRetries(cfg)
  {
    if LadderCoversRetries(cfg) {
      forall acts: seq<Action>, s: State, id: Id | Reaches(cfg, acts, s) ensures !Lost(s, id) {
        if Quiescent(s) && id in s.rows {
          SettledIffPublished(cfg, acts, id);
        }
      }
    } else {
      var acts, s := ShortLadderLoses(cfg);
      assert Reaches(cfg, acts, s) && Lost(s, 0);
    }
  }
}
