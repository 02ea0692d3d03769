/**
 The protocol as the workers really run it: one thread per worker, one AMQP connection with a prefetch of ten, and
 one FIFO of frames per connection whose unsent part is lost with it. A crash here ends the worker's process, the
 running call included, and the worker starts anew; a call that outlives its connection is the matter of module
 Survivors. Every run of this system is a run of module Protocol, so its guarantees hold here; and this system does
 not block either.
 */
module Wire {
  import opened Domain
  import opened Protocol
  import opened Agreement
  import opened Convergence
  import opened BoundedWork
  import opened Sums

  /** A frame waiting in a worker's socket, issued while handling delivery `copy`. */
  datatype Queued = Queued(copy: nat, frame: Frame)

  datatype System = System(core: State, sockets: seq<seq<Queued>>)

  datatype Event =
    | Outside(action: Action)            // clients, clocks, expiry
    | Take(copy: nat, worker: nat)       // the broker pushes a message to a consumer
    | RunHandler(copy: nat, outcome: Outcome)
    | Send(worker: nat)                  // the socket's first frame reaches the broker
    | Lose(worker: nat)                  // the worker's process dies, with its connection, and is started again

  const PREFETCH: nat := 10

  predicate HeldBy(c: Copy, w: nat) {
    c.place.Unacked? && c.place.worker == w
  }

  function HeldFlags(copies: seq<Copy>, w: nat): seq<nat> {
    seq(|copies|, t requires 0 <= t < |copies| => if HeldBy(copies[t], w) then 1 else 0)
  }

  /** The handler of `c` has begun and not returned. */
  predicate InProgress(c: Copy) {
    c.place.Unacked? && !c.place.pc.Received? && !c.place.pc.Done?
  }

  /** A worker's thread runs one onMessage call at a time. */
  ghost predicate ThreadFreeFor(s: State, t: nat)
    requires IsUnacked(s, t)
  {
    forall x :: 0 <= x < |s.copies| && x != t && HeldBy(s.copies[x], s.copies[t].place.worker)
      ==> !InProgress(s.copies[x])
  }

  ghost predicate CanOccur(cfg: Config, y: System, e: Event) {
    match e
    case Outside(a) => Outer(a) && Enabled(cfg, y.core, a)
    case Take(t, w) => Enabled(cfg, y.core, Deliver(t, w)) && Sum(HeldFlags(y.core.copies, w)) < PREFETCH
    case RunHandler(t, o) => Enabled(cfg, y.core, Handle(t, o)) && ThreadFreeFor(y.core, t)
                             && y.core.copies[t].place.worker < |y.sockets|
    case Send(w) => w < |y.sockets| && y.sockets[w] != []
    case Lose(w) => w < |y.sockets|
  }

  function Tag(t: nat, frames: seq<Frame>): seq<Queued> {
    seq(|frames|, i requires 0 <= i < |frames| => Queued(t, frames[i]))
  }

  /** The broker takes a frame for delivery `t`; it would ignore one for a delivery it no longer has. */
  function Receive(cfg: Config, s: State, p: Queued): State {
    if IsUnacked(s, p.copy) && s.copies[p.copy].place.unsent != [] then BrokerApply(cfg, s, p.copy, p.frame) else s
  }

  /** The broker requeues the deliveries of worker `w` among the first `n` copies. */
  function RequeueAll(s: State, w: nat, n: nat): State
    requires n <= |s.copies|
    ensures |RequeueAll(s, w, n).copies| == |s.copies|
  {
    if n == 0 then s
    else
      var s1 := RequeueAll(s, w, n - 1);
      if HeldBy(s1.copies[n - 1], w) then ReturnToMain(s1, n - 1) else s1
  }

  ghost function Occur(cfg: Config, y: System, e: Event): System
    requires CanOccur(cfg, y, e)
  {
    match e
    case Outside(a) => y.(core := Apply(cfg, y.core, a))
    case Take(t, w) => y.(core := Apply(cfg, y.core, Deliver(t, w)))
    case RunHandler(t, o) =>
      var c := y.core.copies[t];
      var w := c.place.worker;
      System(HandleStep(cfg, y.core, t, o),
             y.sockets[w := y.sockets[w] + Tag(t, FramesAfter(cfg, c.body, c.channel, c.place.pc))])
    case Send(w) => System(Receive(cfg, y.core, y.sockets[w][0]), y.sockets[w := y.sockets[w][1..]])
    case Lose(w) => System(RequeueAll(y.core, w, |y.core.copies|), y.sockets[w := []])
  }

  ghost function Boot(cfg: Config): System {
    System(Init(), seq(|cfg.workers|, _ => []))
  }

  ghost function Play(cfg: Config, es: seq<Event>): Option<System> {
    if es == [] then Some(Boot(cfg))
    else
      var y := Play(cfg, es[..|es| - 1]);
      if y.Some? && CanOccur(cfg, y.value, es[|es| - 1]) then Some(Occur(cfg, y.value, es[|es| - 1])) else None
  }

  // ---------------------------------------------------------------- sockets and handlers agree

  /** The frames of delivery `t` in a socket, in order. */
  function FramesOf(socket: seq<Queued>, t: nat): seq<Frame> {
    if socket == [] then []
    else FramesOf(socket[..|socket| - 1], t) +
         if socket[|socket| - 1].copy == t then [socket[|socket| - 1].frame] else []
  }

  lemma FramesSnoc(socket: seq<Queued>, p: Queued, t: nat)
    ensures FramesOf(socket + [p], t) == FramesOf(socket, t) + if p.copy == t then [p.frame] else []
  {
    assert (socket + [p])[..|socket + [p]| - 1] == socket;
  }

  lemma FramesTagged(socket: seq<Queued>, x: nat, frames: seq<Frame>, t: nat)
    requires |frames| <= 1
    ensures FramesOf(socket + Tag(x, frames), t) == FramesOf(socket, t) + if x == t then frames else []
  {
    if frames == [] {
      assert socket + Tag(x, frames) == socket;
    } else {
      assert Tag(x, frames) == [Queued(x, frames[0])];
      FramesSnoc(socket, Queued(x, frames[0]), t);
      assert frames == [frames[0]];
    }
  }

  lemma {:induction false} FramesTail(socket: seq<Queued>, t: nat)
    requires socket != []
    ensures FramesOf(socket, t) == (if socket[0].copy == t then [socket[0].frame] else []) + FramesOf(socket[1..], t)
  {
    var n := |socket| - 1;
    if n > 0 {
      FramesTail(socket[..n], t);
      assert socket[..n][1..] == socket[1..][..n - 1];
    }
  }

  /** A worker's thread is inside at most one onMessage call. */
  ghost predicate SingleThreaded(s: State) {
    forall x, z ::
      (0 <= x < |s.copies| && InProgress(s.copies[x]) && 0 <= z < |s.copies| && InProgress(s.copies[z])
       && s.copies[x].place.worker == s.copies[z].place.worker) ==> x == z
  }

  /** No handler begins. */
  ghost predicate NoneBegins(s: State, s': State) {
    forall x :: 0 <= x < |s'.copies| && InProgress(s'.copies[x]) ==>
      x < |s.copies| && InProgress(s.copies[x]) && s'.copies[x].place.worker == s.copies[x].place.worker
  }

  lemma NoneBeginsKeeps(s: State, s': State)
    requires SingleThreaded(s) && NoneBegins(s, s')
    ensures SingleThreaded(s')
  {
  }

  lemma HandlerKeeps(cfg: Config, s: State, t: nat, o: Outcome)
    requires SingleThreaded(s) && Enabled(cfg, s, Handle(t, o)) && ThreadFreeFor(s, t)
    ensures SingleThreaded(HandleStep(cfg, s, t, o))
  {
  }

  lemma SendBeginsNone(cfg: Config, y: System, w: nat)
    requires Agreed(cfg, y.core) && Wired(cfg, y) && CanOccur(cfg, y, Send(w))
    ensures NoneBegins(y.core, Occur(cfg, y, Send(w)).core)
  {
    HeadIsNext(cfg, y, w);
    FlushShapes(cfg, y.core, y.sockets[w][0].copy);
  }

  lemma StaysSingleThreaded(cfg: Config, y: System, e: Event)
    requires Agreed(cfg, y.core) && Wired(cfg, y) && SingleThreaded(y.core) && CanOccur(cfg, y, e)
    ensures SingleThreaded(Occur(cfg, y, e).core)
  {
    if e.RunHandler? {
      HandlerKeeps(cfg, y.core, e.copy, e.outcome);
    } else {
      if e.Send? {
        SendBeginsNone(cfg, y, e.worker);
      } else if e.Lose? {
        RequeueAllCopies(y.core, e.worker, |y.core.copies|);
      } else if e.Outside? {
        OutsideShape(cfg, y.core, e.action);
      }
      NoneBeginsKeeps(y.core, Occur(cfg, y, e).core);
    }
  }

  /** Each socket holds exactly the unsent frames of its worker's deliveries, each delivery's in order. */
  ghost predicate Wired(cfg: Config, y: System) {
    && |y.sockets| == |cfg.workers|
    && (forall t :: 0 <= t < |y.core.copies| && y.core.copies[t].place.Unacked? ==>
          && y.core.copies[t].place.worker < |y.sockets|
          && FramesOf(y.sockets[y.core.copies[t].place.worker], t) == y.core.copies[t].place.unsent)
    && (forall w, i :: 0 <= w < |y.sockets| && 0 <= i < |y.sockets[w]| ==>
          y.sockets[w][i].copy < |y.core.copies| && HeldBy(y.core.copies[y.sockets[w][i].copy], w))
  }

  /** A delivery without frames in a socket has none anywhere in it. */
  lemma {:induction false} NoFrames(socket: seq<Queued>, t: nat)
    requires forall i :: 0 <= i < |socket| ==> socket[i].copy != t
    ensures FramesOf(socket, t) == []
  {
    if socket != [] {
      NoFrames(socket[..|socket| - 1], t);
    }
  }

  lemma RunHandlerWired(cfg: Config, y: System, t: nat, o: Outcome)
    requires Agreed(cfg, y.core) && Wired(cfg, y) && CanOccur(cfg, y, RunHandler(t, o))
    ensures Wired(cfg, Occur(cfg, y, RunHandler(t, o)))
  {
    var y' := Occur(cfg, y, RunHandler(t, o));
    var c := y.core.copies[t];
    var w, frames := c.place.worker, FramesAfter(cfg, c.body, c.channel, c.place.pc);
    forall x | 0 <= x < |y'.core.copies| && y'.core.copies[x].place.Unacked?
      ensures FramesOf(y'.sockets[y'.core.copies[x].place.worker], x) == y'.core.copies[x].place.unsent
    {
      FramesTagged(y.sockets[w], t, frames, x);
      assert y.core.copies[x].place.Unacked?;
    }
    forall v, i | 0 <= v < |y'.sockets| && 0 <= i < |y'.sockets[v]|
      ensures y'.sockets[v][i].copy < |y'.core.copies| && HeldBy(y'.core.copies[y'.sockets[v][i].copy], v)
    {
      if v != w || i < |y.sockets[w]| {
        assert y'.sockets[v][i] == y.sockets[v][i];
      } else {
        assert y'.sockets[v][i] == Tag(t, frames)[i - |y.sockets[w]|];
      }
    }
  }

  /** The frame at the head of a socket is the next unsent frame of its delivery. */
  lemma HeadIsNext(cfg: Config, y: System, w: nat)
    requires Wired(cfg, y) && CanOccur(cfg, y, Send(w))
    ensures var p := y.sockets[w][0];
            && IsUnacked(y.core, p.copy) && y.core.copies[p.copy].place.unsent != []
            && y.core.copies[p.copy].place.unsent[0] == p.frame
            && y.core.copies[p.copy].place.unsent[1..] == FramesOf(y.sockets[w][1..], p.copy)
            && Occur(cfg, y, Send(w)).core == Apply(cfg, y.core, Flush(p.copy))
  {
    var p := y.sockets[w][0];
    FramesTail(y.sockets[w], p.copy);
    assert HeldBy(y.core.copies[p.copy], w);
  }

  lemma {:induction false} FrameInSocket(socket: seq<Queued>, t: nat, i: nat)
    requires i < |socket| && socket[i].copy == t
    ensures |FramesOf(socket, t)| >= 1
  {
    if i < |socket| - 1 {
      FrameInSocket(socket[..|socket| - 1], t, i);
    }
  }

  /** What the receipt of delivery `t`'s next frame does to the copies that existed. */
  lemma FlushShapes(cfg: Config, s: State, t: nat)
    requires Agreed(cfg, s) && Enabled(cfg, s, Flush(t))
    ensures var s' := Apply(cfg, s, Flush(t));
            && |s'.copies| >= |s.copies|
            && (forall x :: 0 <= x < |s.copies| && x != t ==> s'.copies[x] == s.copies[x])
            && (forall x :: |s.copies| <= x < |s'.copies| ==> !s'.copies[x].place.Unacked?)
            && (if s.copies[t].place.unsent[0].Ack?
                then s.copies[t].place.unsent[1..] == [] && !s'.copies[t].place.Unacked?
                else s'.copies[t].place == s.copies[t].place.(unsent := s.copies[t].place.unsent[1..]))
  {
    assert CopyOk(cfg, s, s.copies[t]);
  }

  lemma SendKeepsFrames(cfg: Config, y: System, w: nat, x: nat)
    requires Agreed(cfg, y.core) && Wired(cfg, y) && CanOccur(cfg, y, Send(w))
    requires var copies := Occur(cfg, y, Send(w)).core.copies; x < |copies| && copies[x].place.Unacked?
    ensures var y' := Occur(cfg, y, Send(w));
            && y'.core.copies[x].place.worker < |y'.sockets|
            && FramesOf(y'.sockets[y'.core.copies[x].place.worker], x) == y'.core.copies[x].place.unsent
  {
    HeadIsNext(cfg, y, w);
    FlushShapes(cfg, y.core, y.sockets[w][0].copy);
    assert HeldBy(y.core.copies[y.sockets[w][0].copy], w);
    FramesTail(y.sockets[w], x);
    assert y.core.copies[x].place.Unacked?;
  }

  lemma SendWired(cfg: Config, y: System, w: nat)
    requires Agreed(cfg, y.core) && Wired(cfg, y) && CanOccur(cfg, y, Send(w))
    ensures Wired(cfg, Occur(cfg, y, Send(w)))
  {
    var y' := Occur(cfg, y, Send(w));
    var t := y.sockets[w][0].copy;
    HeadIsNext(cfg, y, w);
    FlushShapes(cfg, y.core, t);
    assert HeldBy(y.core.copies[t], w);
    forall x | 0 <= x < |y'.core.copies| && y'.core.copies[x].place.Unacked?
      ensures y'.core.copies[x].place.worker < |y'.sockets|
      ensures FramesOf(y'.sockets[y'.core.copies[x].place.worker], x) == y'.core.copies[x].place.unsent
    {
      SendKeepsFrames(cfg, y, w, x);
    }
    forall v, i | 0 <= v < |y'.sockets| && 0 <= i < |y'.sockets[v]|
      ensures y'.sockets[v][i].copy < |y'.core.copies| && HeldBy(y'.core.copies[y'.sockets[v][i].copy], v)
    {
      var j := if v == w then i + 1 else i;
      assert y'.sockets[v][i] == y.sockets[v][j];
      assert HeldBy(y.core.copies[y.sockets[v][j].copy], v);
      if y'.sockets[v][i].copy == t {
        FrameInSocket(y.sockets[w][1..], t, i);
      }
    }
  }

  lemma {:induction false} RequeueAllCopies(s: State, w: nat, n: nat)
    requires n <= |s.copies|
    ensures forall x :: 0 <= x < |s.copies| ==>
              RequeueAll(s, w, n).copies[x] ==
              if x < n && HeldBy(s.copies[x], w) then s.copies[x].(place := Main) else s.copies[x]
    ensures RequeueAll(s, w, n).rows == s.rows && RequeueAll(s, w, n).attempts == s.attempts
  {
    if n > 0 {
      RequeueAllCopies(s, w, n - 1);
    }
  }

  lemma LoseWired(cfg: Config, y: System, w: nat)
    requires Wired(cfg, y) && CanOccur(cfg, y, Lose(w))
    ensures Wired(cfg, Occur(cfg, y, Lose(w)))
  {
    var y' := Occur(cfg, y, Lose(w));
    RequeueAllCopies(y.core, w, |y.core.copies|);
    forall v, i | 0 <= v < |y'.sockets| && 0 <= i < |y'.sockets[v]|
      ensures y'.sockets[v][i].copy < |y'.core.copies| && HeldBy(y'.core.copies[y'.sockets[v][i].copy], v)
    {
      assert v != w && y'.sockets[v][i] == y.sockets[v][i];
    }
  }

  /** Actions outside workers and sockets never touch a delivered copy. */
  lemma OutsideShape(cfg: Config, s: State, a: Action)
    requires Enabled(cfg, s, a) && Outer(a)
    ensures var s' := Apply(cfg, s, a);
            && |s'.copies| >= |s.copies|
            && (forall x :: 0 <= x < |s.copies| && s.copies[x].place.Unacked? ==> s'.copies[x] == s.copies[x])
            && (forall x :: 0 <= x < |s'.copies| && s'.copies[x].place.Unacked? ==>
                  x < |s.copies| && s'.copies[x] == s.copies[x])
  {
  }

  lemma OutsideWired(cfg: Config, y: System, a: Action)
    requires Wired(cfg, y) && CanOccur(cfg, y, Outside(a))
    ensures Wired(cfg, Occur(cfg, y, Outside(a)))
  {
    OutsideShape(cfg, y.core, a);
  }

  lemma TakeWired(cfg: Config, y: System, t: nat, w: nat)
    requires Wired(cfg, y) && CanOccur(cfg, y, Take(t, w))
    ensures Wired(cfg, Occur(cfg, y, Take(t, w)))
  {
    var y' := Occur(cfg, y, Take(t, w));
    NoFrames(y.sockets[w], t);
    forall v, i | 0 <= v < |y'.sockets| && 0 <= i < |y'.sockets[v]|
      ensures HeldBy(y'.core.copies[y'.sockets[v][i].copy], v)
    {
      assert HeldBy(y.core.copies[y.sockets[v][i].copy], v);
    }
  }

  // ---------------------------------------------------------------- refinement

  function Requeues(s: State, w: nat, n: nat): seq<Action>
    requires n <= |s.copies|
  {
    if n == 0 then []
    else Requeues(s, w, n - 1) + if HeldBy(s.copies[n - 1], w) then [Requeue(n - 1)] else []
  }

  lemma RequeueNext(cfg: Config, s: State, w: nat, n: nat)
    requires 1 <= n <= |s.copies| && HeldBy(s.copies[n - 1], w)
    ensures Enabled(cfg, RequeueAll(s, w, n - 1), Requeue(n - 1))
    ensures Apply(cfg, RequeueAll(s, w, n - 1), Requeue(n - 1)) == RequeueAll(s, w, n)
  {
    RequeueAllCopies(s, w, n - 1);
  }

  lemma RequeueSkip(s: State, w: nat, n: nat)
    requires 1 <= n <= |s.copies| && !HeldBy(s.copies[n - 1], w)
    ensures RequeueAll(s, w, n) == RequeueAll(s, w, n - 1)
  {
    RequeueAllCopies(s, w, n - 1);
  }

  lemma {:induction false} RequeuesRun(cfg: Config, s: State, w: nat, n: nat)
    requires n <= |s.copies|
    ensures Exec(cfg, s, Requeues(s, w, n)) == Some(RequeueAll(s, w, n))
  {
    if n > 0 {
      RequeuesRun(cfg, s, w, n - 1);
      if HeldBy(s.copies[n - 1], w) {
        RequeueNext(cfg, s, w, n);
        ExecSnoc(cfg, s, Requeues(s, w, n - 1), Requeue(n - 1));
      } else {
        RequeueSkip(s, w, n);
        assert Requeues(s, w, n) == Requeues(s, w, n - 1);
      }
    }
  }

  lemma {:induction false} RequeuesAreOuter(s: State, w: nat, n: nat)
    requires n <= |s.copies|
    ensures CountInternal(Requeues(s, w, n)) == 0
  {
    if n > 0 {
      RequeuesAreOuter(s, w, n - 1);
      if HeldBy(s.copies[n - 1], w) {
        assert Requeues(s, w, n)[..|Requeues(s, w, n)| - 1] == Requeues(s, w, n - 1);
      } else {
        assert Requeues(s, w, n) == Requeues(s, w, n - 1);
      }
    }
  }

  /** The Protocol actions that event `e` stands for. */
  function Meaning(y: System, e: Event): seq<Action>
    requires e.Send? ==> e.worker < |y.sockets| && y.sockets[e.worker] != []
  {
    match e
    case Outside(a) => [a]
    case Take(t, w) => [Deliver(t, w)]
    case RunHandler(t, o) => [Handle(t, o)]
    case Send(w) => [Flush(y.sockets[w][0].copy)]
    case Lose(w) => Requeues(y.core, w, |y.core.copies|)
  }

  lemma {:induction false} CountConcat(a: seq<Action>, b: seq<Action>)
    ensures CountInternal(a + b) == CountInternal(a) + CountInternal(b)
  {
    if b == [] {
      assert a + b == a;
    } else {
      CountConcat(a, b[..|b| - 1]);
      assert (a + b)[..|a + b| - 1] == a + b[..|b| - 1];
    }
  }

  lemma CountOne(a: Action)
    ensures CountInternal([a]) == if Internal(a) then 1 else 0
  {
    assert [a][..|[a]| - 1] == [];
  }

  predicate Progressing(e: Event) {
    e.Take? || e.RunHandler? || e.Send? || (e.Outside? && Internal(e.action))
  }

  function CountProgressing(es: seq<Event>): nat {
    if es == [] then 0
    else CountProgressing(es[..|es| - 1]) + if Progressing(es[|es| - 1]) then 1 else 0
  }

  lemma StaysWired(cfg: Config, y: System, e: Event)
    requires Agreed(cfg, y.core) && Wired(cfg, y) && CanOccur(cfg, y, e)
    ensures Wired(cfg, Occur(cfg, y, e))
  {
    match e
    case Outside(a) => OutsideWired(cfg, y, a);
    case Take(t, w) => TakeWired(cfg, y, t, w);
    case RunHandler(t, o) => RunHandlerWired(cfg, y, t, o);
    case Send(w) => SendWired(cfg, y, w);
    case Lose(w) => LoseWired(cfg, y, w);
  }

  /** One event is a run of Protocol. */
  lemma EventRefines(cfg: Config, y: System, e: Event)
    requires Wired(cfg, y) && CanOccur(cfg, y, e)
    ensures Exec(cfg, y.core, Meaning(y, e)) == Some(Occur(cfg, y, e).core)
  {
    match e
    case Outside(a) => ExecOne(cfg, y.core, a);
    case Take(t, w) => ExecOne(cfg, y.core, Deliver(t, w));
    case RunHandler(t, o) => ExecOne(cfg, y.core, Handle(t, o));
    case Send(w) =>
      HeadIsNext(cfg, y, w);
      ExecOne(cfg, y.core, Flush(y.sockets[w][0].copy));
    case Lose(w) => RequeuesRun(cfg, y.core, w, |y.core.copies|);
  }

  lemma EventCounts(cfg: Config, y: System, e: Event)
    requires CanOccur(cfg, y, e)
    ensures CountInternal(Meaning(y, e)) == if Progressing(e) then 1 else 0
  {
    if e.Lose? {
      RequeuesAreOuter(y.core, e.worker, |y.core.copies|);
    } else {
      CountOne(Meaning(y, e)[0]);
    }
  }

  /**
   Refinement: every run with real sockets, single-threaded workers, prefetch and whole-connection losses is a run
   of Protocol with the same database, queues and history, and as many internal actions.
   */
  lemma {:induction false} WireRefinesProtocol(cfg: Config, es: seq<Event>) returns (acts: seq<Action>)
    requires Play(cfg, es).Some?
    ensures Exec(cfg, Init(), acts) == Some(Play(cfg, es).value.core)
    ensures CountInternal(acts) == CountProgressing(es)
    ensures Wired(cfg, Play(cfg, es).value) && SingleThreaded(Play(cfg, es).value.core)
  {
    if es == [] {
      acts := [];
    } else {
      var y := Play(cfg, es[..|es| - 1]).value;
      var e := es[|es| - 1];
      var before := WireRefinesProtocol(cfg, es[..|es| - 1]);
      AgreedRun(cfg, before);
      EventRefines(cfg, y, e);
      EventCounts(cfg, y, e);
      StaysWired(cfg, y, e);
      StaysSingleThreaded(cfg, y, e);
      ExecConcat(cfg, Init(), before, Meaning(y, e));
      CountConcat(before, Meaning(y, e));
      acts := before + Meaning(y, e);
    }
  }

  // ---------------------------------------------------------------- prefetch bounds a crash

  lemma NoneHeld(copies: seq<Copy>, w: nat)
    requires forall t :: 0 <= t < |copies| ==> !HeldBy(copies[t], w)
    ensures Sum(HeldFlags(copies, w)) == 0
  {
    SumOfZeros(HeldFlags(copies, w));
  }

  /** No delivery begins. */
  ghost predicate NoneTaken(s: State, s': State) {
    |s'.copies| >= |s.copies| &&
    forall x, w :: 0 <= x < |s'.copies| && HeldBy(s'.copies[x], w) ==> x < |s.copies| && HeldBy(s.copies[x], w)
  }

  ghost predicate WithinPrefetch(s: State) {
    forall w: nat :: Sum(HeldFlags(s.copies, w)) <= PREFETCH
  }

  lemma {:induction false} HeldNotMore(before: seq<Copy>, after: seq<Copy>, w: nat)
    requires |after| >= |before|
    requires forall x :: 0 <= x < |after| && HeldBy(after[x], w) ==> x < |before| && HeldBy(before[x], w)
    ensures Sum(HeldFlags(after, w)) <= Sum(HeldFlags(before, w))
    decreases |after|
  {
    if |after| == |before| {
      SumMonotone(HeldFlags(after, w), HeldFlags(before, w));
    } else {
      var n := |after| - 1;
      assert HeldFlags(after, w) == HeldFlags(after[..n], w) + [0];
      SumSnoc(HeldFlags(after[..n], w), 0);
      HeldNotMore(before, after[..n], w);
    }
  }

  lemma TakeWithinPrefetch(cfg: Config, y: System, t: nat, w: nat)
    requires WithinPrefetch(y.core) && CanOccur(cfg, y, Take(t, w))
    ensures WithinPrefetch(Occur(cfg, y, Take(t, w)).core)
  {
    var copies, copies' := y.core.copies, Occur(cfg, y, Take(t, w)).core.copies;
    forall v: nat ensures Sum(HeldFlags(copies', v)) <= PREFETCH {
      var flag := if v == w then 1 else 0;
      assert HeldFlags(copies', v) == HeldFlags(copies, v)[t := flag];
      SumUpdate(HeldFlags(copies, v), t, flag);
    }
  }

  lemma OthersTakeNone(cfg: Config, y: System, e: Event)
    requires Agreed(cfg, y.core) && Wired(cfg, y) && CanOccur(cfg, y, e) && !e.Take?
    ensures NoneTaken(y.core, Occur(cfg, y, e).core)
  {
    if e.Send? {
      HeadIsNext(cfg, y, e.worker);
      FlushShapes(cfg, y.core, y.sockets[e.worker][0].copy);
    } else if e.Lose? {
      RequeueAllCopies(y.core, e.worker, |y.core.copies|);
    } else if e.Outside? {
      OutsideShape(cfg, y.core, e.action);
    }
  }

  lemma StaysWithinPrefetch(cfg: Config, y: System, e: Event)
    requires Agreed(cfg, y.core) && Wired(cfg, y) && WithinPrefetch(y.core) && CanOccur(cfg, y, e)
    ensures WithinPrefetch(Occur(cfg, y, e).core)
  {
    if e.Take? {
      TakeWithinPrefetch(cfg, y, e.copy, e.worker);
    } else {
      OthersTakeNone(cfg, y, e);
      forall w: nat ensures Sum(HeldFlags(Occur(cfg, y, e).core.copies, w)) <= PREFETCH {
        HeldNotMore(y.core.copies, Occur(cfg, y, e).core.copies, w);
      }
    }
  }

  lemma HeldSnoc(copies: seq<Copy>, w: nat, n: nat)
    requires 1 <= n <= |copies|
    ensures Sum(HeldFlags(copies[..n], w)) ==
            Sum(HeldFlags(copies[..n - 1], w)) + if HeldBy(copies[n - 1], w) then 1 else 0
  {
    var flag := if HeldBy(copies[n - 1], w) then 1 else 0;
    assert HeldFlags(copies[..n], w) == HeldFlags(copies[..n - 1], w) + [flag];
    SumSnoc(HeldFlags(copies[..n - 1], w), flag);
  }

  lemma BroughtSnoc(acts: seq<Action>, a: Action)
    ensures CountBrought(acts + [a]) == CountBrought(acts) + if BringsWork(a) then 1 else 0
  {
    assert (acts + [a])[..|acts + [a]| - 1] == acts;
  }

  lemma {:induction false} RequeuesBring(s: State, w: nat, n: nat)
    requires n <= |s.copies|
    ensures CountBrought(Requeues(s, w, n)) == Sum(HeldFlags(s.copies[..n], w))
  {
    if n > 0 {
      RequeuesBring(s, w, n - 1);
      HeldSnoc(s.copies, w, n);
      if HeldBy(s.copies[n - 1], w) {
        BroughtSnoc(Requeues(s, w, n - 1), Requeue(n - 1));
      } else {
        assert Requeues(s, w, n) == Requeues(s, w, n - 1);
      }
    }
  }

  lemma {:induction false} BroughtConcat(a: seq<Action>, b: seq<Action>)
    ensures CountBrought(a + b) == CountBrought(a) + CountBrought(b)
  {
    if b == [] {
      assert a + b == a;
    } else {
      BroughtConcat(a, b[..|b| - 1]);
      assert (a + b)[..|a + b| - 1] == a + b[..|b| - 1];
    }
  }

  /** What an event can bring into the main queues: one message per published POST, a prefetch per lost worker. */
  function Brings(e: Event): nat {
    if e.Lose? then PREFETCH else if e.Outside? && e.action.FlushPost? then 1 else 0
  }

  function TotalBrings(es: seq<Event>): nat {
    if es == [] then 0 else TotalBrings(es[..|es| - 1]) + Brings(es[|es| - 1])
  }

  /** Messages of POSTs that reached the broker. */
  function CountSubmissions(es: seq<Event>): nat {
    if es == [] then 0
    else
      var e := es[|es| - 1];
      CountSubmissions(es[..|es| - 1]) + if e.Outside? && e.action.FlushPost? then 1 else 0
  }

  /** Deaths of workers. */
  function CountLosses(es: seq<Event>): nat {
    if es == [] then 0 else CountLosses(es[..|es| - 1]) + if es[|es| - 1].Lose? then 1 else 0
  }

  lemma {:induction false} TotalBringsCounted(es: seq<Event>)
    ensures TotalBrings(es) == CountSubmissions(es) + 10 * CountLosses(es)
  {
    if es != [] {
      TotalBringsCounted(es[..|es| - 1]);
    }
  }

  lemma EventBrings(cfg: Config, y: System, e: Event)
    requires WithinPrefetch(y.core) && CanOccur(cfg, y, e)
    ensures CountBrought(Meaning(y, e)) <= Brings(e)
  {
    if e.Lose? {
      RequeuesBring(y.core, e.worker, |y.core.copies|);
      assert y.core.copies[..|y.core.copies|] == y.core.copies;
    } else {
      assert Meaning(y, e)[..0] == [];
    }
  }

  lemma {:induction false} RunBrings(cfg: Config, es: seq<Event>) returns (acts: seq<Action>)
    requires Play(cfg, es).Some?
    ensures Exec(cfg, Init(), acts) == Some(Play(cfg, es).value.core)
    ensures CountInternal(acts) == CountProgressing(es) && CountBrought(acts) <= TotalBrings(es)
    ensures Wired(cfg, Play(cfg, es).value) && WithinPrefetch(Play(cfg, es).value.core)
  {
    if es == [] {
      acts := [];
      forall w: nat ensures Sum(HeldFlags([], w)) <= PREFETCH {
        NoneHeld([], w);
      }
    } else {
      var y := Play(cfg, es[..|es| - 1]).value;
      var e := es[|es| - 1];
      var before := RunBrings(cfg, es[..|es| - 1]);
      AgreedRun(cfg, before);
      EventRefines(cfg, y, e);
      EventCounts(cfg, y, e);
      StaysWired(cfg, y, e);
      StaysWithinPrefetch(cfg, y, e);
      EventBrings(cfg, y, e);
      ExecConcat(cfg, Init(), before, Meaning(y, e));
      CountConcat(before, Meaning(y, e));
      BroughtConcat(before, Meaning(y, e));
      acts := before + Meaning(y, e);
    }
  }

  /**
   The running system does a bounded amount of work: at most 12 * (maxRetries + 1) steps for each published POST,
   and ten times that for each lost connection, because a connection holds at most ten deliveries.
   */
  lemma SystemRunsDry(cfg: Config, es: seq<Event>)
    requires Play(cfg, es).Some?
    ensures CountProgressing(es) <= (CountSubmissions(es) + 10 * CountLosses(es)) * (12 * (Retries(cfg) + 1))
  {
    var acts := RunBrings(cfg, es);
    InternalActionsAtMost(cfg, acts);
    TotalBringsCounted(es);
    ProductMonotone(CountBrought(acts), TotalBrings(es), PER_ATTEMPT * (Retries(cfg) + 1));
  }

  lemma ProductMonotone(a: nat, b: nat, unit: nat)
    requires a <= b
    ensures a * unit <= b * unit
  {
  }

  // ---------------------------------------------------------------- main results

  /** The broker still has the message: queued, on the ladder, unacknowledged or dead-lettered. */
  predicate KeptFor(c: Copy, id: Id) {
    c.body.id == id && (c.place.Main? || c.place.Retry? || c.place.Unacked? || c.place.DeadLetter?)
  }

  /**
   No loss with buffered frames: whatever part of a socket a crash drops, every published notification that is not
   SENT has a copy in a main queue, on the ladder, with a consumer, or in the dead-letter queue.
   */
  lemma NoLossWithBufferedFrames(cfg: Config, es: seq<Event>, id: Id)
    requires LadderCoversRetries(cfg) && Play(cfg, es).Some?
    requires TallyOf(Play(cfg, es).value.core, id).published > 0
    ensures var s := Play(cfg, es).value.core;
            && id in s.rows
            && (s.rows[id].status.Sent? || exists t :: 0 <= t < |s.copies| && KeptFor(s.copies[t], id))
  {
    var s := Play(cfg, es).value.core;
    var acts := WireRefinesProtocol(cfg, es);
    NothingLostRun(cfg, acts);
    assert Covered(s, id);
    if !s.rows[id].status.Sent? {
      var t :| 0 <= t < |s.copies| && Covers(s.copies[t], id, s.rows[id].status);
      assert KeptFor(s.copies[t], id);
    }
  }

  /** Brokers, sockets and workers have nothing left to do, even if they wait. */
  ghost predicate Idle(cfg: Config, y: System) {
    forall wait: nat, e: Event :: Progressing(e) ==> !CanOccur(cfg, After(cfg, y, wait), e)
  }

  ghost function After(cfg: Config, y: System, wait: nat): System {
    Occur(cfg, y, Outside(Tick(wait)))
  }

  lemma IdleForbids(cfg: Config, y: System, wait: nat, e: Event)
    requires Idle(cfg, y) && Progressing(e)
    ensures !CanOccur(cfg, After(cfg, y, wait), e)
  {
  }

  /** With an empty socket, some delivery of a worker that holds any can be handled further. */
  lemma WorkerCanGoOn(cfg: Config, y: System, t: nat) returns (e: Event)
    requires Agreed(cfg, y.core) && Wired(cfg, y) && SingleThreaded(y.core) && IsUnacked(y.core, t)
    ensures Progressing(e) && CanOccur(cfg, y, e)
  {
    var s := y.core;
    var w := s.copies[t].place.worker;
    if y.sockets[w] != [] {
      e := Send(w);
    } else if u :| 0 <= u < |s.copies| && HeldBy(s.copies[u], w) && InProgress(s.copies[u]) {
      e := RunHandler(u, Accepted);
    } else {
      assert CopyOk(cfg, s, s.copies[t]);
      assert FramesOf(y.sockets[w], t) == [];
      e := RunHandler(t, Accepted);
    }
  }

  /** Some worker consumes every channel. */
  ghost predicate Staffed(cfg: Config) {
    forall c: Channel :: HasWorker(cfg, c)
  }

  predicate HasWorker(cfg: Config, c: Channel) {
    exists w :: 0 <= w < |cfg.workers| && cfg.workers[w] == c
  }

  /** A system with nothing left to do is at rest: no socket, prefetch or single thread holds anything up. */
  lemma IdleIsQuiescent(cfg: Config, y: System)
    requires Agreed(cfg, y.core) && Wired(cfg, y) && SingleThreaded(y.core) && Idle(cfg, y) && Staffed(cfg)
    ensures Quiescent(y.core)
  {
    var s := y.core;
    assert After(cfg, y, 0) == y;
    forall t | 0 <= t < |s.copies| ensures !s.copies[t].place.Unacked? {
      if s.copies[t].place.Unacked? {
        var e := WorkerCanGoOn(cfg, y, t);
        IdleForbids(cfg, y, 0, e);
      }
    }
    forall t | 0 <= t < |s.copies| ensures AtRest(s.copies[t]) {
      assert CopyOk(cfg, s, s.copies[t]);
      if s.copies[t].place.Main? {
        assert HasWorker(cfg, s.copies[t].channel);
        var w :| 0 <= w < |cfg.workers| && cfg.workers[w] == s.copies[t].channel;
        NoneHeld(s.copies, w);
        IdleForbids(cfg, y, 0, Take(t, w));
      } else if s.copies[t].place.Retry? {
        var wait := cfg.retryDelaysMs[s.copies[t].place.rung - 1];
        IdleForbids(cfg, y, wait, Outside(Expire(t)));
      }
    }
  }

  /**
   Convergence: once brokers, sockets and workers have nothing left to do, a notification is SENT or DEAD_LETTERED
   if and only if a message of it was published, and a DEAD_LETTERED one is in the dead-letter queue.
   */
  lemma IdleSystemIsSettled(cfg: Config, es: seq<Event>, id: Id)
    requires LadderCoversRetries(cfg) && Staffed(cfg) && Play(cfg, es).Some? && Idle(cfg, Play(cfg, es).value)
    requires id in Play(cfg, es).value.core.rows
    ensures var s := Play(cfg, es).value.core;
            && (s.rows[id].status in {Sent, DeadLettered} <==> TallyOf(s, id).published > 0)
            && (s.rows[id].status.DeadLettered? ==> InDlq(s, id))
            && (TallyOf(s, id).published == 0 ==> s.rows[id].status.Pending? && s.rows[id].attemptCount == 0)
  {
    var acts := WireRefinesProtocol(cfg, es);
    AgreedRun(cfg, acts);
    IdleIsQuiescent(cfg, Play(cfg, es).value);
    SettledIffPublished(cfg, acts, id);
  }
}
