/**
 How much brokers and workers do, whatever crashes: their actions are bounded by the messages that entered the main
 queues from outside the ladder, and while anything is in motion they can act.
 */
module BoundedWork {
  import opened Domain
  import opened Protocol
  import opened Agreement
  import opened Convergence
  import opened Budget
  import opened Sums

  // ---------------------------------------------------------------- termination

  /** Actions of brokers and workers; the others are clients, clocks and crashes. */
  predicate Internal(a: Action) {
    a.Deliver? || a.Handle? || a.Flush? || a.Expire?
  }

  /** Actions that bring a message into the main queue from outside the ladder. */
  predicate BringsWork(a: Action) {
    a.FlushPost? || a.Requeue?
  }

  /** Statements and frames between `pc` and the broker's receipt of the ack, on the longest path. */
  function StepsLeft(pc: Pc): nat {
    match pc
    case Received => 10
    case Admitted => 9
    case Sending => 8
    case SendFailed(_) => 7
    case Counted(_) => 6
    case RecordedFail(_) => 5
    case SendOk => 5
    case RecordedOk => 4
    case MarkedSent => 3
    case DlqPublished => 3
    case ReadyToAck(_) => 2
    case Done(_) => 0
  }

  const PER_ATTEMPT: nat := 12

  /** An upper bound on the internal actions a copy can still cause. */
  function Work(cfg: Config, c: Copy): nat {
    var k := c.body.attempt;
    var ahead := PER_ATTEMPT * (if k <= Retries(cfg) + 1 then Retries(cfg) + 1 - k else 0);
    match c.place
    case Retry(_, _) => ahead + 12
    case Main => ahead + 11
    case Unacked(_, pc, unsent) =>
      StepsLeft(pc) + |unsent| + (if Undecided(pc) || UnsentRetry(unsent) then ahead else 0)
    case _ => 0
  }

  ghost function AllWork(cfg: Config, copies: seq<Copy>): seq<nat> {
    seq(|copies|, t requires 0 <= t < |copies| => Work(cfg, copies[t]))
  }

  ghost function TotalWork(cfg: Config, copies: seq<Copy>): nat {
    Sum(AllWork(cfg, copies))
  }

  lemma WorkUpdate(cfg: Config, copies: seq<Copy>, t: nat, c: Copy)
    requires t < |copies|
    ensures TotalWork(cfg, copies[t := c]) + Work(cfg, copies[t]) == TotalWork(cfg, copies) + Work(cfg, c)
  {
    var xs := AllWork(cfg, copies);
    assert AllWork(cfg, copies[t := c]) == xs[t := Work(cfg, c)];
    SumUpdate(xs, t, Work(cfg, c));
  }

  lemma WorkSnoc(cfg: Config, copies: seq<Copy>, c: Copy)
    ensures TotalWork(cfg, copies + [c]) == TotalWork(cfg, copies) + Work(cfg, c)
  {
    assert AllWork(cfg, copies + [c]) == AllWork(cfg, copies) + [Work(cfg, c)];
    SumSnoc(AllWork(cfg, copies), Work(cfg, c));
  }

  lemma HandleUsesWork(cfg: Config, s: State, t: nat, o: Outcome)
    requires Agreed(cfg, s) && Enabled(cfg, s, Handle(t, o))
    ensures Work(cfg, HandleStep(cfg, s, t, o).copies[t]) < Work(cfg, s.copies[t])
  {
    assert CopyOk(cfg, s, s.copies[t]);
  }

  lemma HandleWorks(cfg: Config, s: State, t: nat, o: Outcome)
    requires Agreed(cfg, s) && Enabled(cfg, s, Handle(t, o))
    ensures TotalWork(cfg, HandleStep(cfg, s, t, o).copies) < TotalWork(cfg, s.copies)
  {
    HandleUsesWork(cfg, s, t, o);
    WorkUpdate(cfg, s.copies, t, HandleStep(cfg, s, t, o).copies[t]);
  }

  lemma FlushMovesWork(cfg: Config, s: State, t: nat)
    requires Agreed(cfg, s) && Enabled(cfg, s, Flush(t))
    ensures var s' := Apply(cfg, s, Flush(t));
            && (|s'.copies| == |s.copies| ==> Work(cfg, s'.copies[t]) < Work(cfg, s.copies[t]))
            && (|s'.copies| > |s.copies| ==>
                  Work(cfg, s'.copies[t]) + Work(cfg, s'.copies[|s.copies|]) < Work(cfg, s.copies[t]))
  {
    assert CopyOk(cfg, s, s.copies[t]);
  }

  lemma FlushWorks(cfg: Config, s: State, t: nat)
    requires Agreed(cfg, s) && Enabled(cfg, s, Flush(t))
    ensures TotalWork(cfg, Apply(cfg, s, Flush(t)).copies) < TotalWork(cfg, s.copies)
  {
    var s' := Apply(cfg, s, Flush(t));
    FlushMovesWork(cfg, s, t);
    FlushShape(cfg, s, t);
    WorkUpdate(cfg, s.copies, t, s'.copies[t]);
    if |s'.copies| > |s.copies| {
      WorkSnoc(cfg, s.copies[t := s'.copies[t]], s'.copies[|s.copies|]);
    }
  }

  /** Every internal action uses up work. */
  lemma InternalWorks(cfg: Config, s: State, a: Action)
    requires Agreed(cfg, s) && Enabled(cfg, s, a) && Internal(a)
    ensures TotalWork(cfg, Apply(cfg, s, a).copies) < TotalWork(cfg, s.copies)
  {
    if a.Handle? {
      HandleWorks(cfg, s, a.copy, a.outcome);
    } else if a.Flush? {
      FlushWorks(cfg, s, a.copy);
    } else {
      WorkUpdate(cfg, s.copies, a.copy, Apply(cfg, s, a).copies[a.copy]);
    }
  }

  /** A message that enters the main queue brings at most one ladder's worth of work; the rest bring none. */
  lemma ExternalWorks(cfg: Config, s: State, a: Action)
    requires Agreed(cfg, s) && Enabled(cfg, s, a) && !Internal(a)
    ensures TotalWork(cfg, Apply(cfg, s, a).copies) <=
            TotalWork(cfg, s.copies) + if BringsWork(a) then PER_ATTEMPT * (Retries(cfg) + 1) else 0
  {
    var s' := Apply(cfg, s, a);
    if a.FlushPost? {
      WorkSnoc(cfg, s.copies, s'.copies[|s.copies|]);
    } else if a.Requeue? {
      assert CopyOk(cfg, s, s.copies[a.copy]);
      WorkUpdate(cfg, s.copies, a.copy, s'.copies[a.copy]);
    } else {
      assert s'.copies == s.copies;
    }
  }

  function CountInternal(acts: seq<Action>): nat {
    if acts == [] then 0
    else CountInternal(acts[..|acts| - 1]) + if Internal(acts[|acts| - 1]) then 1 else 0
  }

  function CountBrought(acts: seq<Action>): nat {
    if acts == [] then 0
    else CountBrought(acts[..|acts| - 1]) + if BringsWork(acts[|acts| - 1]) then 1 else 0
  }

  /** The bound for one more action: `n` messages were brought so far, one more is worth `unit`. */
  lemma OneMoreBrought(n: nat, unit: nat, brings: bool)
    ensures (n + if brings then 1 else 0) * unit == n * unit + if brings then unit else 0
  {
  }

  lemma WorkStep(cfg: Config, s: State, a: Action)
    requires Agreed(cfg, s) && Enabled(cfg, s, a)
    ensures TotalWork(cfg, Apply(cfg, s, a).copies) + (if Internal(a) then 1 else 0) <=
            TotalWork(cfg, s.copies) + if BringsWork(a) then PER_ATTEMPT * (Retries(cfg) + 1) else 0
  {
    if Internal(a) {
      InternalWorks(cfg, s, a);
    } else {
      ExternalWorks(cfg, s, a);
    }
  }

  /**
   Every run terminates but for its environment: brokers and workers take at most 12 * (maxRetries + 1) actions
   for each message a POST publishes and each delivery a crash returns.
   */
  lemma {:induction false} InternalActionsAtMost(cfg: Config, acts: seq<Action>)
    requires Exec(cfg, Init(), acts).Some?
    ensures CountInternal(acts) + TotalWork(cfg, Exec(cfg, Init(), acts).value.copies) <=
            CountBrought(acts) * (12 * (Retries(cfg) + 1))
  {
    if acts != [] {
      LastStep(cfg, Init(), acts);
      var n := |acts| - 1;
      var s := Exec(cfg, Init(), acts[..n]).value;
      InternalActionsAtMost(cfg, acts[..n]);
      AgreedRun(cfg, acts[..n]);
      WorkStep(cfg, s, acts[n]);
      OneMoreBrought(CountBrought(acts[..n]), PER_ATTEMPT * (Retries(cfg) + 1), BringsWork(acts[n]));
    } else {
      assert AllWork(cfg, []) == [];
    }
  }

  // ---------------------------------------------------------------- progress

  /** An internal action that moves copy `t` once the clock has advanced by `wait`. */
  function NextMove(cfg: Config, s: State, t: nat, worker: nat): (nat, Action)
    requires t < |s.copies|
  {
    match s.copies[t].place
    case Main => (0, Deliver(t, worker))
    case Retry(rung, since) =>
      (if 1 <= rung <= |cfg.retryDelaysMs| then cfg.retryDelaysMs[rung - 1] else 0, Expire(t))
    case Unacked(_, pc, unsent) => (0, if unsent != [] then Flush(t) else Handle(t, Accepted))
    case _ => (0, Tick(0))
  }

  /** A copy in motion can always be moved on, if its channel has a worker: the system never blocks. */
  lemma MotionNeverBlocks(cfg: Config, acts: seq<Action>, t: nat, worker: nat)
    requires Exec(cfg, Init(), acts).Some?
    requires t < |Exec(cfg, Init(), acts).value.copies| && !AtRest(Exec(cfg, Init(), acts).value.copies[t])
    requires worker < |cfg.workers| && cfg.workers[worker] == Exec(cfg, Init(), acts).value.copies[t].channel
    ensures var s := Exec(cfg, Init(), acts).value;
            var (wait, a) := NextMove(cfg, s, t, worker);
            Internal(a) && Exec(cfg, Init(), acts + [Tick(wait), a]).Some?
  {
    var s := Exec(cfg, Init(), acts).value;
    AgreedRun(cfg, acts);
    assert CopyOk(cfg, s, s.copies[t]);
    var (wait, a) := NextMove(cfg, s, t, worker);
    ExecSnoc(cfg, Init(), acts, Tick(wait));
    ExecSnoc(cfg, Init(), acts + [Tick(wait)], a);
    assert acts + [Tick(wait), a] == (acts + [Tick(wait)]) + [a];
  }
}
