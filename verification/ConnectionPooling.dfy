/**
 The blocking session pool. Threads contend for a queue of sessions under a mutex and a condition variable;
 `insertWithOutbox` holds one session while it acquires another.
 */
module ConnectionPooling {
  import opened Domain
  import opened Sums

  type Session = nat

  /**
   A thread's relation to the pool. Woken: notified (or woken spuriously), the predicate not yet re-checked.
   Notifying: it has pushed a session back and has still to call notify_one, outside the lock.
   */
  datatype Phase = Running | Sleeping | Woken | Notifying

  /** `limit` is the most sessions the thread's code holds at once: two for an HTTP thread, one for a worker. */
  datatype Thread = Thread(limit: nat, held: seq<Session>, phase: Phase)

  datatype Pool = Pool(available: seq<Session>, threads: seq<Thread>)

  datatype Move =
    | Acquire(thread: nat)
    | Recheck(thread: nat)
    | SpuriousWake(thread: nat)
    | Release(thread: nat, index: nat)
    | Notify(thread: nat, sleeper: Option<nat>)

  // ---------------------------------------------------------------- the machine

  predicate InPhase(p: Pool, t: nat, phase: Phase) {
    t < |p.threads| && p.threads[t].phase == phase
  }

  predicate SomeSleeper(p: Pool) {
    exists t :: 0 <= t < |p.threads| && p.threads[t].phase.Sleeping?
  }

  predicate Possible(p: Pool, m: Move) {
    match m
    case Acquire(t) => InPhase(p, t, Running) && |p.threads[t].held| < p.threads[t].limit
    case Recheck(t) => InPhase(p, t, Woken)
    case SpuriousWake(t) => InPhase(p, t, Sleeping)
    case Release(t, i) => InPhase(p, t, Running) && i < |p.threads[t].held|
    case Notify(t, sleeper) =>
      && InPhase(p, t, Notifying)
      && (match sleeper case Some(x) => InPhase(p, x, Sleeping) case None => !SomeSleeper(p))
  }

  /** The locked section of `acquire`: pop the front session, or sleep while there is none. */
  function Take(p: Pool, t: nat): Pool
    requires t < |p.threads|
  {
    var th := p.threads[t];
    if p.available == [] then p.(threads := p.threads[t := th.(phase := Sleeping)])
    else Pool(p.available[1..], p.threads[t := th.(held := th.held + [p.available[0]], phase := Running)])
  }

  function SetPhase(p: Pool, t: nat, phase: Phase): Pool
    requires t < |p.threads|
  {
    p.(threads := p.threads[t := p.threads[t].(phase := phase)])
  }

  function GiveBack(p: Pool, t: nat, i: nat): Pool
    requires t < |p.threads| && i < |p.threads[t].held|
  {
    var th := p.threads[t];
    Pool(p.available + [th.held[i]],
         p.threads[t := th.(held := th.held[..i] + th.held[i + 1..], phase := Notifying)])
  }

  function Next(p: Pool, m: Move): Pool
    requires Possible(p, m)
  {
    match m
    case Acquire(t) => Take(p, t)
    case Recheck(t) => Take(p, t)
    case SpuriousWake(t) => SetPhase(p, t, Woken)
    case Release(t, i) => GiveBack(p, t, i)
    case Notify(t, sleeper) =>
      var p1 := SetPhase(p, t, Running);
      match sleeper case Some(x) => SetPhase(p1, x, Woken) case None => p1
  }

  /** `http` threads that nest two acquisitions, `workers` that make one at a time, `size` sessions. */
  function Start(size: nat, http: nat, workers: nat): Pool {
    Pool(seq(size, i => i), seq(http, _ => Thread(2, [], Running)) + seq(workers, _ => Thread(1, [], Running)))
  }

  ghost predicate PossibleRun(p: Pool, ms: seq<Move>)
    decreases |ms|, 0
  {
    ms == [] || (PossibleRun(p, ms[..|ms| - 1]) && Possible(Run(p, ms[..|ms| - 1]), ms[|ms| - 1]))
  }

  ghost function Run(p: Pool, ms: seq<Move>): Pool
    requires PossibleRun(p, ms)
    decreases |ms|, 1
  {
    if ms == [] then p else Next(Run(p, ms[..|ms| - 1]), ms[|ms| - 1])
  }

  // ---------------------------------------------------------------- invariant

  ghost function HeldCounts(threads: seq<Thread>): seq<nat> {
    seq(|threads|, t requires 0 <= t < |threads| => |threads[t].held|)
  }

  ghost function Extras(threads: seq<Thread>): seq<nat> {
    seq(|threads|, t requires 0 <= t < |threads| => if threads[t].limit > 0 then threads[t].limit - 1 else 0)
  }

  /** The thread will look at the queue, or make another one look, without being notified again. */
  function Alert(th: Thread): nat {
    if th.phase.Woken? || th.phase.Notifying? then 1 else 0
  }

  ghost function Alerts(threads: seq<Thread>): seq<nat> {
    seq(|threads|, t requires 0 <= t < |threads| => Alert(threads[t]))
  }

  /** Sessions are 0..size-1 and each is in at most one place. */
  ghost predicate OnePlaceEach(p: Pool, size: nat) {
    && (forall i :: 0 <= i < |p.available| ==> p.available[i] < size)
    && (forall i, j :: 0 <= i < j < |p.available| ==> p.available[i] != p.available[j])
    && (forall t, i :: 0 <= t < |p.threads| && 0 <= i < |p.threads[t].held| ==> p.threads[t].held[i] < size)
    && (forall t, i, j :: 0 <= t < |p.threads| && 0 <= i < j < |p.threads[t].held| ==>
          p.threads[t].held[i] != p.threads[t].held[j])
    && (forall t, i, j :: 0 <= t < |p.threads| && 0 <= i < |p.threads[t].held| && 0 <= j < |p.available| ==>
          p.threads[t].held[i] != p.available[j])
    && (forall t, u, i, j ::
          (0 <= t < u < |p.threads| && 0 <= i < |p.threads[t].held| && 0 <= j < |p.threads[u].held|) ==>
            p.threads[t].held[i] != p.threads[u].held[j])
  }

  ghost predicate Counted(p: Pool, size: nat) {
    && |p.available| + Sum(HeldCounts(p.threads)) == size
    && (SomeSleeper(p) ==> |p.available| <= Sum(Alerts(p.threads)))
  }

  predicate ThreadOk(th: Thread) {
    && |th.held| <= th.limit
    && (th.phase.Sleeping? || th.phase.Woken? ==> |th.held| < th.limit)
  }

  ghost predicate Sound(p: Pool, size: nat) {
    && OnePlaceEach(p, size)
    && Counted(p, size)
    && forall t :: 0 <= t < |p.threads| ==> ThreadOk(p.threads[t])
  }

  /** What replacing one thread does to the sums. */
  lemma ThreadUpdate(threads: seq<Thread>, t: nat, th: Thread)
    requires t < |threads|
    ensures Sum(HeldCounts(threads[t := th])) + |threads[t].held| == Sum(HeldCounts(threads)) + |th.held|
    ensures Sum(Alerts(threads[t := th])) + Alert(threads[t]) == Sum(Alerts(threads)) + Alert(th)
  {
    var hs, ws := HeldCounts(threads), Alerts(threads);
    assert HeldCounts(threads[t := th]) == hs[t := |th.held|];
    SumUpdate(hs, t, |th.held|);
    assert Alerts(threads[t := th]) == ws[t := Alert(th)];
    SumUpdate(ws, t, Alert(th));
  }

  lemma TakeDistinct(p: Pool, t: nat, size: nat)
    requires OnePlaceEach(p, size) && t < |p.threads|
    ensures OnePlaceEach(Take(p, t), size)
  {
    var p' := Take(p, t);
    if p.available == [] {
      assert forall u :: 0 <= u < |p.threads| ==> p'.threads[u].held == p.threads[u].held;
    } else {
      assert forall u :: 0 <= u < |p.threads| && u != t ==> p'.threads[u].held == p.threads[u].held;
      assert p'.threads[t].held == p.threads[t].held + [p.available[0]];
      TakenIsNew(p, p', t, size);
    }
  }

  /** The session that moves was in no hand. */
  lemma TakenIsNew(p: Pool, p': Pool, t: nat, size: nat)
    requires OnePlaceEach(p, size) && t < |p.threads| && p.available != []
    requires |p'.threads| == |p.threads| && p'.available == p.available[1..]
    requires forall u :: 0 <= u < |p.threads| && u != t ==> p'.threads[u].held == p.threads[u].held
    requires p'.threads[t].held == p.threads[t].held + [p.available[0]]
    ensures OnePlaceEach(p', size)
  {
    var s := p.available[0];
    forall u, i, j | 0 <= u < |p'.threads| && 0 <= i < |p'.threads[u].held| && 0 <= j < |p'.available|
      ensures p'.threads[u].held[i] != p'.available[j]
    {
      assert p'.available[j] == p.available[j + 1];
    }
    forall u, v, i, j | 0 <= u < v < |p'.threads| && 0 <= i < |p'.threads[u].held| && 0 <= j < |p'.threads[v].held|
      ensures p'.threads[u].held[i] != p'.threads[v].held[j]
    {
      assert u != t && i < |p.threads[u].held| ==> p.threads[u].held[i] != s;
    }
  }

  lemma TakeCounted(p: Pool, t: nat, size: nat)
    requires Counted(p, size) && t < |p.threads|
    requires p.threads[t].phase.Running? || p.threads[t].phase.Woken?
    ensures Counted(Take(p, t), size)
  {
    var p' := Take(p, t);
    ThreadUpdate(p.threads, t, p'.threads[t]);
    if p.available != [] && SomeSleeper(p') {
      var x :| 0 <= x < |p'.threads| && p'.threads[x].phase.Sleeping?;
      assert p.threads[x].phase.Sleeping?;
    }
  }

  lemma GiveBackDistinct(p: Pool, t: nat, i: nat, size: nat)
    requires OnePlaceEach(p, size) && Possible(p, Release(t, i))
    ensures OnePlaceEach(GiveBack(p, t, i), size)
  {
    var p' := GiveBack(p, t, i);
    var held, held' := p.threads[t].held, p'.threads[t].held;
    assert forall k :: 0 <= k < |held'| ==> held'[k] == held[if k < i then k else k + 1];
    forall u, k, j | 0 <= u < |p'.threads| && 0 <= k < |p'.threads[u].held| && 0 <= j < |p'.available|
      ensures p'.threads[u].held[k] != p'.available[j]
    {
      if j == |p.available| && u != t {
        assert p'.threads[u].held[k] == p.threads[u].held[k];
      }
    }
  }

  lemma GiveBackCounted(p: Pool, t: nat, i: nat, size: nat)
    requires Counted(p, size) && Possible(p, Release(t, i))
    ensures Counted(GiveBack(p, t, i), size)
  {
    var p' := GiveBack(p, t, i);
    ThreadUpdate(p.threads, t, p'.threads[t]);
    if SomeSleeper(p') {
      var x :| 0 <= x < |p'.threads| && p'.threads[x].phase.Sleeping?;
      assert p.threads[x].phase.Sleeping?;
    }
  }

  lemma WakeCounted(p: Pool, t: nat, size: nat)
    requires Counted(p, size) && InPhase(p, t, Sleeping)
    ensures Counted(SetPhase(p, t, Woken), size)
  {
    var p' := SetPhase(p, t, Woken);
    ThreadUpdate(p.threads, t, p'.threads[t]);
  }

  /** notify_one hands the releaser's alert to a sleeper, if there is one. */
  lemma NotifyCounted(p: Pool, t: nat, sleeper: Option<nat>, size: nat)
    requires Counted(p, size) && Possible(p, Notify(t, sleeper))
    ensures Counted(Next(p, Notify(t, sleeper)), size)
  {
    var p1 := SetPhase(p, t, Running);
    ThreadUpdate(p.threads, t, p1.threads[t]);
    match sleeper
    case Some(x) =>
      assert p.threads[x].phase.Sleeping?;
      ThreadUpdate(p1.threads, x, SetPhase(p1, x, Woken).threads[x]);
    case None =>
      assert forall y :: 0 <= y < |p1.threads| && y != t ==> p1.threads[y] == p.threads[y];
      assert !SomeSleeper(p1);
  }

  /** Changing phases moves no session. */
  lemma PhaseDistinct(p: Pool, t: nat, phase: Phase, size: nat)
    requires OnePlaceEach(p, size) && t < |p.threads|
    ensures OnePlaceEach(SetPhase(p, t, phase), size)
  {
    var p' := SetPhase(p, t, phase);
    assert forall x :: 0 <= x < |p.threads| ==> p'.threads[x].held == p.threads[x].held;
  }

  lemma SoundStep(p: Pool, m: Move, size: nat)
    requires Sound(p, size) && Possible(p, m)
    ensures Sound(Next(p, m), size)
  {
    match m
    case Acquire(t) =>
      TakeDistinct(p, t, size);
      TakeCounted(p, t, size);
    case Recheck(t) =>
      TakeDistinct(p, t, size);
      TakeCounted(p, t, size);
    case SpuriousWake(t) =>
      PhaseDistinct(p, t, Woken, size);
      WakeCounted(p, t, size);
    case Release(t, i) =>
      GiveBackDistinct(p, t, i, size);
      GiveBackCounted(p, t, i, size);
    case Notify(t, sleeper) =>
      NotifyCounted(p, t, sleeper, size);
      PhaseDistinct(p, t, Running, size);
      if sleeper.Some? {
        PhaseDistinct(SetPhase(p, t, Running), sleeper.value, Woken, size);
      }
  }

  lemma StartSound(size: nat, http: nat, workers: nat)
    ensures Sound(Start(size, http, workers), size)
  {
    SumOfZeros(HeldCounts(Start(size, http, workers).threads));
  }

  lemma LimitsKept(p: Pool, m: Move)
    requires Possible(p, m)
    ensures |Next(p, m).threads| == |p.threads|
    ensures forall t :: 0 <= t < |p.threads| ==> Next(p, m).threads[t].limit == p.threads[t].limit
  {
  }

  lemma {:induction false} LimitsRun(size: nat, http: nat, workers: nat, ms: seq<Move>)
    requires PossibleRun(Start(size, http, workers), ms)
    ensures var p := Run(Start(size, http, workers), ms);
            && |p.threads| == http + workers
            && forall t :: 0 <= t < http + workers ==> p.threads[t].limit == if t < http then 2 else 1
  {
    if ms != [] {
      LimitsRun(size, http, workers, ms[..|ms| - 1]);
      LimitsKept(Run(Start(size, http, workers), ms[..|ms| - 1]), ms[|ms| - 1]);
    }
  }

  lemma {:induction false} SoundRun(size: nat, http: nat, workers: nat, ms: seq<Move>)
    requires PossibleRun(Start(size, http, workers), ms)
    ensures Sound(Run(Start(size, http, workers), ms), size)
  {
    if ms == [] {
      StartSound(size, http, workers);
    } else {
      SoundRun(size, http, workers, ms[..|ms| - 1]);
      SoundStep(Run(Start(size, http, workers), ms[..|ms| - 1]), ms[|ms| - 1], size);
    }
  }

  // ---------------------------------------------------------------- main results

  /** While anybody sleeps, no more sessions are available than threads are on their way to look for one. */
  lemma NoLostWakeUp(size: nat, http: nat, workers: nat, ms: seq<Move>)
    requires PossibleRun(Start(size, http, workers), ms)
    requires SomeSleeper(Run(Start(size, http, workers), ms))
    ensures var p := Run(Start(size, http, workers), ms); |p.available| <= Sum(Alerts(p.threads))
  {
    SoundRun(size, http, workers, ms);
  }

  /** Sessions are conserved, and none is held by two threads, twice by one, or held and available. */
  lemma NeverHeldTwice(size: nat, http: nat, workers: nat, ms: seq<Move>)
    requires PossibleRun(Start(size, http, workers), ms)
    ensures var p := Run(Start(size, http, workers), ms);
            OnePlaceEach(p, size) && |p.available| + Sum(HeldCounts(p.threads)) == size
  {
    SoundRun(size, http, workers, ms);
  }

  /** Somebody sleeps and nobody can do anything about it: all others are outside the pool with empty hands. */
  predicate Stuck(p: Pool) {
    SomeSleeper(p) &&
    forall t :: 0 <= t < |p.threads| ==>
      p.threads[t].phase.Sleeping? || (p.threads[t].phase.Running? && p.threads[t].held == [])
  }

  lemma {:induction false} ExtrasOf(http: nat, workers: nat, threads: seq<Thread>)
    requires |threads| == http + workers
    requires forall t :: 0 <= t < |threads| ==> threads[t].limit == if t < http then 2 else 1
    ensures Sum(Extras(threads)) == http
    decreases |threads|
  {
    if threads != [] {
      var n := |threads| - 1;
      assert Extras(threads)[..n] == Extras(threads[..n]);
      if workers > 0 {
        ExtrasOf(http, workers - 1, threads[..n]);
      } else {
        ExtrasOf(http - 1, workers, threads[..n]);
      }
    }
  }

  /** With more sessions than HTTP threads the pool is never stuck, for any number of workers. */
  lemma NeverStuck(size: nat, http: nat, workers: nat, ms: seq<Move>)
    requires size > http && PossibleRun(Start(size, http, workers), ms)
    ensures !Stuck(Run(Start(size, http, workers), ms))
  {
    var p := Run(Start(size, http, workers), ms);
    SoundRun(size, http, workers, ms);
    LimitsRun(size, http, workers, ms);
    if Stuck(p) {
      SumMonotone(HeldCounts(p.threads), Extras(p.threads));
      ExtrasOf(http, workers, p.threads);
      SumOfZeros(Alerts(p.threads));
      assert false;
    }
  }

  /** `n` threads hold one session each and `asleep` of them sleep for a second one. */
  ghost predicate Jammed(p: Pool, size: nat, n: nat, asleep: nat) {
    && asleep <= n <= |p.threads| && n <= size && |p.available| == size - n
    && (forall t :: 0 <= t < n ==> |p.threads[t].held| == 1)
    && (forall t :: n <= t < |p.threads| ==> p.threads[t].held == [])
    && (forall t :: 0 <= t < |p.threads| ==> p.threads[t].phase == if t < asleep then Sleeping else Running)
  }

  lemma RunSnoc(p: Pool, ms: seq<Move>, m: Move)
    requires PossibleRun(p, ms) && Possible(Run(p, ms), m)
    ensures PossibleRun(p, ms + [m]) && Run(p, ms + [m]) == Next(Run(p, ms), m)
  {
    assert (ms + [m])[..|ms + [m]| - 1] == ms;
  }

  lemma {:induction false} FirstSessions(size: nat, http: nat, workers: nat, n: nat) returns (ms: seq<Move>)
    requires n <= size && n <= http
    ensures PossibleRun(Start(size, http, workers), ms) && Jammed(Run(Start(size, http, workers), ms), size, n, 0)
  {
    var p := Start(size, http, workers);
    if n == 0 {
      ms := [];
    } else {
      ms := FirstSessions(size, http, workers, n - 1);
      LimitsRun(size, http, workers, ms);
      RunSnoc(p, ms, Acquire(n - 1));
      ms := ms + [Acquire(n - 1)];
    }
  }

  lemma {:induction false} SecondSessions(size: nat, http: nat, workers: nat, asleep: nat) returns (ms: seq<Move>)
    requires asleep <= size <= http
    ensures PossibleRun(Start(size, http, workers), ms)
    ensures Jammed(Run(Start(size, http, workers), ms), size, size, asleep)
  {
    if asleep == 0 {
      ms := FirstSessions(size, http, workers, size);
    } else {
      ms := SecondSessions(size, http, workers, asleep - 1);
      LimitsRun(size, http, workers, ms);
      RunSnoc(Start(size, http, workers), ms, Acquire(asleep - 1));
      ms := ms + [Acquire(asleep - 1)];
    }
  }

  /** With no more sessions than HTTP threads, some schedule gets stuck. */
  lemma SomeScheduleSticks(size: nat, http: nat, workers: nat) returns (ms: seq<Move>)
    requires size <= http && http + workers > 0
    ensures PossibleRun(Start(size, http, workers), ms) && Stuck(Run(Start(size, http, workers), ms))
  {
    var p := Start(size, http, workers);
    if size == 0 {
      RunSnoc(p, [], Acquire(0));
      ms := [] + [Acquire(0)];
      assert Run(p, ms).threads[0].phase.Sleeping?;
    } else {
      ms := SecondSessions(size, http, workers, size);
      assert Run(p, ms).threads[0].phase.Sleeping?;
    }
  }

  /** Nothing is available, nobody is about to notify, and whoever holds a session waits for another one. */
  ghost predicate Frozen(p: Pool) {
    && p.available == []
    && forall t :: 0 <= t < |p.threads| ==>
         !p.threads[t].phase.Notifying? && (p.threads[t].phase.Running? ==> p.threads[t].held == [])
  }

  ghost predicate SameHands(p: Pool, p': Pool) {
    |p'.threads| == |p.threads| && forall t :: 0 <= t < |p.threads| ==> p'.threads[t].held == p.threads[t].held
  }

  lemma StuckIsFrozen(size: nat, http: nat, workers: nat, ms: seq<Move>)
    requires PossibleRun(Start(size, http, workers), ms) && Stuck(Run(Start(size, http, workers), ms))
    ensures Frozen(Run(Start(size, http, workers), ms))
  {
    SoundRun(size, http, workers, ms);
    SumOfZeros(Alerts(Run(Start(size, http, workers), ms).threads));
  }

  lemma FrozenStep(p: Pool, m: Move)
    requires Frozen(p) && Possible(p, m)
    ensures Frozen(Next(p, m)) && SameHands(p, Next(p, m))
  {
  }

  /**
   A stuck pool stays stuck: whatever wakes and arrivals follow, no session changes hands and none is available, so no
   `acquire` returns any more.
   */
  lemma {:induction false} StuckForever(size: nat, http: nat, workers: nat, ms: seq<Move>, more: seq<Move>)
    requires PossibleRun(Start(size, http, workers), ms) && Stuck(Run(Start(size, http, workers), ms))
    requires PossibleRun(Run(Start(size, http, workers), ms), more)
    ensures var p := Run(Start(size, http, workers), ms);
            Run(p, more).available == [] && SameHands(p, Run(p, more)) && Frozen(Run(p, more))
  {
    if more == [] {
      StuckIsFrozen(size, http, workers, ms);
    } else {
      var p := Run(Start(size, http, workers), ms);
      StuckForever(size, http, workers, ms, more[..|more| - 1]);
      FrozenStep(Run(p, more[..|more| - 1]), more[|more| - 1]);
    }
  }

  ghost predicate CanStick(size: nat, http: nat, workers: nat) {
    exists ms :: PossibleRun(Start(size, http, workers), ms) && Stuck(Run(Start(size, http, workers), ms))
  }

  /** The exact condition: the pool can get stuck if and only if it has no more sessions than HTTP threads. */
  lemma StuckIffTooFewSessions(size: nat, http: nat, workers: nat)
    requires http + workers > 0
    ensures CanStick(size, http, workers) <==> size <= http
  {
    if size <= http {
      var ms := SomeScheduleSticks(size, http, workers);
      assert PossibleRun(Start(size, http, workers), ms);
    } else {
      forall ms | PossibleRun(Start(size, http, workers), ms) ensures !Stuck(Run(Start(size, http, workers), ms)) {
        NeverStuck(size, http, workers, ms);
      }
    }
  }

  // ---------------------------------------------------------------- the classes

  /** `machine` is history: the thread machine whose queue this object is. */
  class ConnectionPool {
    var available: seq<Session>
    ghost var machine: Pool

    ghost predicate Valid()
      reads this
    {
      machine.available == available
    }

    constructor (size: nat, ghost http: nat, ghost workers: nat)
      ensures Valid() && available == seq(size, i => i) && machine == Start(size, http, workers)
    {
      var sessions: seq<Session> := [];
      for i := 0 to size
        invariant sessions == seq(i, k => k)
      {
        sessions := sessions + [i];
      }
      available := sessions;
      machine := Start(size, http, workers);
    }

    /**
     One pass of thread `t` through the locked section of `acquire`, as it enters or after it was woken: the machine's
     step. None means that the thread goes to sleep.
     */
    method TryAcquire(ghost t: nat) returns (handle: PooledSession?)
      requires Valid() && (InPhase(machine, t, Woken) || Possible(machine, Acquire(t)))
      modifies this
      ensures Valid()
      ensures machine == Next(old(machine), if InPhase(old(machine), t, Woken) then Recheck(t) else Acquire(t))
      ensures handle == null <==> old(available) == []
      ensures handle == null ==> InPhase(machine, t, Sleeping)
      ensures handle != null ==>
                fresh(handle) && handle.pool == this && handle.session == Some(old(available)[0])
                && machine.threads[t].held == old(machine).threads[t].held + [old(available)[0]]
    {
      machine := Take(machine, t);
      if available == [] {
        return null;
      }
      var session := available[0];
      available := available[1..];
      handle := new PooledSession(this, Some(session));
    }

    /** `release` by thread `t` of the `i`-th session it holds: push it under the lock, then notify one sleeper. */
    method ReleaseSession(session: Session, ghost t: nat, ghost i: nat)
      requires Valid() && Possible(machine, Release(t, i)) && machine.threads[t].held[i] == session
      modifies this
      ensures Valid() && available == old(available) + [session]
      ensures exists sleeper :: Released(old(machine), t, i, sleeper, machine)
    {
      available := available + [session];
      machine := GiveBack(machine, t, i);
      ghost var pushed := machine;
      NotifyOne(t);
      ghost var sleeper :| Possible(pushed, Notify(t, sleeper)) && machine == Next(pushed, Notify(t, sleeper));
      assert Released(old(machine), t, i, sleeper, machine);
    }

    /** `notify_one`, outside the lock. */
    ghost method NotifyOne(t: nat)
      requires Valid() && InPhase(machine, t, Notifying)
      modifies `machine
      ensures Valid()
      ensures exists sleeper :: Possible(old(machine), Notify(t, sleeper))
                                && machine == Next(old(machine), Notify(t, sleeper))
    {
      var sleeper: Option<nat> := None;
      if SomeSleeper(machine) {
        var x: nat :| x < |machine.threads| && machine.threads[x].phase.Sleeping?;
        sleeper := Some(x);
      }
      machine := Next(machine, Notify(t, sleeper));
    }
  }

  /** The two steps of a release, one after the other. */
  ghost predicate Released(p: Pool, t: nat, i: nat, sleeper: Option<nat>, p': Pool) {
    && Possible(p, Release(t, i))
    && Possible(Next(p, Release(t, i)), Notify(t, sleeper))
    && p' == Next(Next(p, Release(t, i)), Notify(t, sleeper))
  }

  class PooledSession {
    const pool: ConnectionPool
    var session: Option<Session>

    constructor (pool: ConnectionPool, session: Option<Session>)
      ensures this.pool == pool && this.session == session
    {
      this.pool := pool;
      this.session := session;
    }

    /** The move constructor: the new handle owns what this one owned, and this one owns nothing. */
    method MoveFrom() returns (handle: PooledSession)
      modifies this
      ensures fresh(handle) && handle.pool == pool && handle.session == old(session) && session == None
    {
      handle := new PooledSession(pool, session);
      session := None;
    }

    /** The destructor: a handle returns its session once, a moved-from handle returns nothing. */
    method Destroy(ghost t: nat, ghost i: nat)
      requires session.Some? ==>
                 && pool.Valid() && Possible(pool.machine, Release(t, i))
                 && pool.machine.threads[t].held[i] == session.value
      modifies this, pool
      ensures session == None
      ensures old(session).None? ==> pool.available == old(pool.available) && pool.machine == old(pool.machine)
      ensures old(session).Some? ==>
                && pool.Valid() && pool.available == old(pool.available) + [old(session).value]
                && exists sleeper :: Released(old(pool.machine), t, i, sleeper, pool.machine)
    {
      if session.Some? {
        pool.ReleaseSession(session.value, t, i);
        session := None;
      }
    }
  }

  /** A release leaves the other threads' sessions alone and its own thread running. */
  lemma ReleasedShape(p: Pool, t: nat, i: nat, sleeper: Option<nat>, p': Pool)
    requires Released(p, t, i, sleeper, p')
    ensures |p'.threads| == |p.threads| && InPhase(p', t, Running)
    ensures p'.threads[t].held == p.threads[t].held[..i] + p.threads[t].held[i + 1..]
    ensures p'.threads[t].limit == p.threads[t].limit
  {
  }

  /**
   The nested acquisition of `insertWithOutbox` by an HTTP thread. With two sessions at hand both come back, the inner
   one first, and the thread ends with empty hands; with fewer the thread sleeps on an empty pool, and the machine
   shows it asleep with what it holds. No other thread moves in between; the theorems above are about those that do.
   */
  method LookUpWhileHolding(pool: ConnectionPool, ghost t: nat) returns (done: bool)
    requires pool.Valid() && InPhase(pool.machine, t, Running)
    requires pool.machine.threads[t].held == [] && pool.machine.threads[t].limit == 2
    modifies pool
    ensures pool.Valid()
    ensures done <==> |old(pool.available)| >= 2
    ensures done ==> pool.available == old(pool.available)[2..] + [old(pool.available)[1], old(pool.available)[0]]
    ensures done ==> InPhase(pool.machine, t, Running) && pool.machine.threads[t].held == []
    ensures !done ==> pool.available == [] && InPhase(pool.machine, t, Sleeping)
                      && pool.machine.threads[t].held == old(pool.available)
  {
    var outer := pool.TryAcquire(t);
    if outer == null {
      return false;
    }
    var inner := pool.TryAcquire(t);
    if inner == null {
      return false;
    }
    var moved := inner.MoveFrom();
    inner.Destroy(t, 1);
    ghost var before := pool.machine;
    moved.Destroy(t, 1);
    ghost var sleeper :| Released(before, t, 1, sleeper, pool.machine);
    ReleasedShape(before, t, 1, sleeper, pool.machine);
    ghost var between := pool.machine;
    outer.Destroy(t, 0);
    sleeper :| Released(between, t, 0, sleeper, pool.machine);
    ReleasedShape(between, t, 0, sleeper, pool.machine);
    return true;
  }
}
