/**
 What a wedged breaker does to deliveries. The breaker of a channel and the delivery protocol run together: every
 send on the channel gets the answer the breaker lets through. From a wedged breaker on, no notification of the
 channel, submitted before or after, ever becomes SENT unless it was already on its way there; and the breaker can
 wedge under every configuration that serves the channel.
 */
module WedgedChannel {
  import opened Domain
  import opened Protocol
  import opened Agreement
  import opened Convergence
  import opened Budget
  import opened BoundedWork
  import opened DuplicateDelivery
  import opened LosingRuns
  import Breaker = CircuitBreaking
  import opened Service

  /** An action, with the times of a send and what the provider would answer in case the action is one. */
  datatype Timed = Timed(action: Action, start: nat, finish: nat, provided: Outcome)

  predicate SendsOn(s: State, a: Action, c: Channel) {
    a.Handle? && IsUnacked(s, a.copy) && s.copies[a.copy].place.pc.Sending? && s.copies[a.copy].channel == c
  }

  /** Protocol and the breaker of channel `c`, side by side. */
  datatype Joint = Joint(state: State, machine: Breaker.Machine)

  predicate CanGo(cfg: Config, settings: Breaker.Settings, c: Channel, j: Joint, x: Timed) {
    && Enabled(cfg, j.state, x.action)
    && (SendsOn(j.state, x.action, c) ==>
          && x.start >= j.machine.clock && x.finish >= x.start
          && x.action.outcome == SendAnswer(settings, j.machine, x.start, x.provided))
  }

  ghost function Go(cfg: Config, settings: Breaker.Settings, c: Channel, j: Joint, x: Timed): Joint
    requires CanGo(cfg, settings, c, j, x)
  {
    Joint(Apply(cfg, j.state, x.action),
          if SendsOn(j.state, x.action, c) then SendEffect(settings, j.machine, x.start, x.finish, x.provided)
          else j.machine)
  }

  ghost function GoOn(cfg: Config, settings: Breaker.Settings, c: Channel, j: Joint, xs: seq<Timed>): Option<Joint> {
    if xs == [] then Some(j)
    else
      var m := GoOn(cfg, settings, c, j, xs[..|xs| - 1]);
      if m.Some? && CanGo(cfg, settings, c, m.value, xs[|xs| - 1])
      then Some(Go(cfg, settings, c, m.value, xs[|xs| - 1])) else None
  }

  function Actions(xs: seq<Timed>): seq<Action> {
    seq(|xs|, i requires 0 <= i < |xs| => xs[i].action)
  }

  /** A wedged breaker answers every send with a transient error, and stays wedged. */
  lemma WedgedAnswers(settings: Breaker.Settings, m: Breaker.Machine, start: nat, finish: nat, provided: Outcome)
    requires Breaker.Wedged(m)
    ensures SendAnswer(settings, m, start, provided) == TransientError
    ensures start >= m.clock && finish >= start ==> Breaker.Wedged(SendEffect(settings, m, start, finish, provided))
  {
  }

  /** The notification is not SENT, and no accepted send of it waits for its markSent. */
  ghost predicate NotWon(s: State, c: Channel, id: Id) {
    id in s.rows && s.rows[id].channel == c && !IsSent(s, id) && !SomeInWindow(s, id)
  }

  lemma StepNotWon(cfg: Config, s: State, a: Action, c: Channel, id: Id)
    requires Agreed(cfg, s) && Enabled(cfg, s, a) && NotWon(s, c, id)
    requires SendsOn(s, a, c) ==> a.outcome.TransientError?
    ensures NotWon(Apply(cfg, s, a), c, id)
    ensures Successes(TallyOf(Apply(cfg, s, a), id).outcomes) == Successes(TallyOf(s, id).outcomes)
  {
    StepKeepsRows(cfg, s, a);
    if a.Handle? {
      HandleNotWon(cfg, s, a.copy, a.outcome, c, id);
    } else if a.Requeue? {
      RequeueNotWon(cfg, s, a.copy, id);
    } else {
      OtherKeepsHandlers(cfg, s, a, id);
      OtherKeepsRecords(cfg, s, a, id);
      WindowKept(s, Apply(cfg, s, a), id);
    }
  }

  lemma HandleNotWon(cfg: Config, s: State, t: nat, o: Outcome, c: Channel, id: Id)
    requires Agreed(cfg, s) && Enabled(cfg, s, Handle(t, o)) && NotWon(s, c, id)
    requires SendsOn(s, Handle(t, o), c) ==> o.TransientError?
    ensures var s' := HandleStep(cfg, s, t, o);
            && !IsSent(s', id) && !SomeInWindow(s', id)
            && Successes(TallyOf(s', id).outcomes) == Successes(TallyOf(s, id).outcomes)
  {
    var s' := HandleStep(cfg, s, t, o);
    assert CopyOk(cfg, s, s.copies[t]);
    assert !InWindow(s.copies[t], id);
    forall x | 0 <= x < |s'.copies| ensures !InWindow(s'.copies[x], id) {
      if x != t {
        assert !InWindow(s.copies[x], id);
      }
    }
    SuccessesSnoc(TallyOf(s, id).outcomes, o);
  }

  lemma RequeueNotWon(cfg: Config, s: State, t: nat, id: Id)
    requires Enabled(cfg, s, Requeue(t)) && !IsSent(s, id) && !SomeInWindow(s, id)
    ensures var s' := ReturnToMain(s, t);
            && !IsSent(s', id) && !SomeInWindow(s', id) && TallyOf(s', id).outcomes == TallyOf(s, id).outcomes
  {
    forall x | 0 <= x < |s.copies| ensures !InWindow(ReturnToMain(s, t).copies[x], id) {
      assert !InWindow(s.copies[x], id);
    }
  }

  /** If the notification exists and is one of channel `c`, it is not won; its row may be yet to come. */
  ghost predicate Unwon(s: State, c: Channel, id: Id) {
    id in s.rows && s.rows[id].channel == c ==> NotWon(s, c, id)
  }

  /** A row that appears is PENDING, and nobody handles its notification. */
  lemma NewRowNotWon(cfg: Config, s: State, a: Action, c: Channel, id: Id)
    requires Agreed(cfg, s) && Enabled(cfg, s, a) && id !in s.rows
    ensures Unwon(Apply(cfg, s, a), c, id)
    ensures TallyOf(Apply(cfg, s, a), id).outcomes == TallyOf(s, id).outcomes
  {
    var s' := Apply(cfg, s, a);
    if a.Handle? {
      assert CopyOk(cfg, s, s.copies[a.copy]);
    }
    if id in s'.rows {
      assert a.Insert? && s'.copies == s.copies;
      forall x | 0 <= x < |s.copies| ensures !InWindow(s'.copies[x], id) {
        assert CopyOk(cfg, s, s.copies[x]);
      }
    }
  }

  lemma StepUnwon(cfg: Config, s: State, a: Action, c: Channel, id: Id)
    requires Agreed(cfg, s) && Enabled(cfg, s, a) && Unwon(s, c, id)
    requires SendsOn(s, a, c) ==> a.outcome.TransientError?
    ensures var s' := Apply(cfg, s, a);
            && Unwon(s', c, id)
            && ((id in s'.rows ==> s'.rows[id].channel == c) ==>
                  && (id in s.rows ==> s.rows[id].channel == c)
                  && Successes(TallyOf(s', id).outcomes) == Successes(TallyOf(s, id).outcomes))
  {
    StepKeepsRows(cfg, s, a);
    if id !in s.rows {
      NewRowNotWon(cfg, s, a, c, id);
    } else if s.rows[id].channel == c {
      StepNotWon(cfg, s, a, c, id);
    }
  }

  lemma {:induction false} GoOnUnwon(cfg: Config, settings: Breaker.Settings, c: Channel, acts: seq<Action>, j: Joint,
                                     xs: seq<Timed>, id: Id)
    requires Exec(cfg, Init(), acts) == Some(j.state) && Breaker.Wedged(j.machine) && Unwon(j.state, c, id)
    requires GoOn(cfg, settings, c, j, xs).Some?
    ensures var end := GoOn(cfg, settings, c, j, xs).value;
            && Exec(cfg, Init(), acts + Actions(xs)) == Some(end.state)
            && Breaker.Wedged(end.machine) && Unwon(end.state, c, id)
            && ((id in end.state.rows ==> end.state.rows[id].channel == c) ==>
                  Successes(TallyOf(end.state, id).outcomes) == Successes(TallyOf(j.state, id).outcomes))
  {
    if xs == [] {
      assert acts + Actions(xs) == acts;
    } else {
      var n := |xs| - 1;
      var m := GoOn(cfg, settings, c, j, xs[..n]).value;
      GoOnUnwon(cfg, settings, c, acts, j, xs[..n], id);
      assert acts + Actions(xs) == acts + Actions(xs[..n]) + [xs[n].action];
      GoUnwon(cfg, settings, c, acts + Actions(xs[..n]), m, xs[n], id);
    }
  }

  lemma GoUnwon(cfg: Config, settings: Breaker.Settings, c: Channel, acts: seq<Action>, j: Joint, x: Timed, id: Id)
    requires Exec(cfg, Init(), acts) == Some(j.state) && Breaker.Wedged(j.machine) && Unwon(j.state, c, id)
    requires CanGo(cfg, settings, c, j, x)
    ensures var end := Go(cfg, settings, c, j, x);
            && Exec(cfg, Init(), acts + [x.action]) == Some(end.state)
            && Breaker.Wedged(end.machine) && Unwon(end.state, c, id)
            && ((id in end.state.rows ==> end.state.rows[id].channel == c) ==>
                  && (id in j.state.rows ==> j.state.rows[id].channel == c)
                  && Successes(TallyOf(end.state, id).outcomes) == Successes(TallyOf(j.state, id).outcomes))
  {
    ExecSnoc(cfg, Init(), acts, x.action);
    AgreedRun(cfg, acts);
    WedgedAnswers(settings, j.machine, x.start, x.finish, x.provided);
    StepUnwon(cfg, j.state, x.action, c, id);
  }

  // ---------------------------------------------------------------- the way there

  /** Nothing has happened yet. */
  function Fresh(): Joint {
    Joint(Init(), Breaker.Start())
  }

  ghost predicate Arrives(cfg: Config, settings: Breaker.Settings, c: Channel, xs: seq<Timed>, j: Joint) {
    GoOn(cfg, settings, c, Fresh(), xs) == Some(j)
  }

  lemma ArriveOn(cfg: Config, settings: Breaker.Settings, c: Channel, xs: seq<Timed>, j: Joint, x: Timed)
    requires Arrives(cfg, settings, c, xs, j) && CanGo(cfg, settings, c, j, x)
    ensures Arrives(cfg, settings, c, xs + [x], Go(cfg, settings, c, j, x))
  {
    assert (xs + [x])[..|xs + [x]| - 1] == xs;
  }

  /** An action that is no send. */
  function Plain(a: Action): Timed {
    Timed(a, 0, 0, Accepted)
  }

  /** Notifications 0 to n-1 exist, one POST and one message each, and the calls on these messages have returned. */
  ghost predicate Served(s: State, n: nat) {
    && |s.posts| == n && |s.copies| >= n
    && (forall id: Id :: id in s.rows <==> id < n)
    && (forall id: Id :: id in s.rows ==> s.rows[id].key == id)
    && (forall t :: 0 <= t < n ==> s.copies[t].place.Unacked? && s.copies[t].place.pc.Done?)
  }

  /** And then notification n, submitted for channel `c`, its message at `place`. */
  ghost predicate Front(s: State, n: nat, c: Channel, place: Place, status: Status) {
    && |s.posts| == n + 1 && |s.copies| == n + 1
    && (forall id: Id :: id in s.rows <==> id <= n)
    && (forall id: Id :: id in s.rows ==> s.rows[id].key == id)
    && (forall t :: 0 <= t < n ==> s.copies[t].place.Unacked? && s.copies[t].place.pc.Done?)
    && s.copies[n].body == Message(n, 1, 3) && s.copies[n].channel == c && s.copies[n].place == place
    && s.rows[n].channel == c && s.rows[n].status == status && TallyOf(s, n).published > 0
  }

  /** POST number n, up to the receipt of its message. */
  lemma Posts(cfg: Config, settings: Breaker.Settings, c: Channel, xs: seq<Timed>, j: Joint, n: nat)
    returns (xs': seq<Timed>, j': Joint)
    requires Arrives(cfg, settings, c, xs, j) && Served(j.state, n) && |j.state.copies| == n
    ensures Arrives(cfg, settings, c, xs', j') && j'.machine == j.machine
    ensures Front(j'.state, n, c, Main, Pending)
  {
    var acts := [Arrive(n, c, Normal), LookUp(n, None), Insert(n, n), PublishPost(n)];
    xs', j' := xs, j;
    for i := 0 to 4
      invariant Arrives(cfg, settings, c, xs', j') && j'.machine == j.machine
      invariant j'.state.copies == j.state.copies && |j'.state.posts| == if i == 0 then n else n + 1
      invariant i == 1 ==> j'.state.posts[n] == Post(n, c, Normal, Arrived)
      invariant i == 2 ==> j'.state.posts[n] == Post(n, c, Normal, KeyFree)
      invariant i == 3 ==> j'.state.posts[n].stage == Stored(n, c, Normal)
      invariant i == 4 ==> j'.state.posts[n].stage == Publishing(n, c, Normal)
      invariant j'.state.rows == if i <= 2 then j.state.rows else j.state.rows[n := Row(n, c, Normal, Pending, 0)]
    {
      ArriveOn(cfg, settings, c, xs', j', Plain(acts[i]));
      xs', j' := xs' + [Plain(acts[i])], Go(cfg, settings, c, j', Plain(acts[i]));
    }
    ArriveOn(cfg, settings, c, xs', j', Plain(FlushPost(n)));
    xs', j' := xs' + [Plain(FlushPost(n))], Go(cfg, settings, c, j', Plain(FlushPost(n)));
  }

  lemma Delivers(cfg: Config, settings: Breaker.Settings, c: Channel, xs: seq<Timed>, j: Joint, n: nat, w: nat)
    returns (xs': seq<Timed>, j': Joint)
    requires w < |cfg.workers| && cfg.workers[w] == c
    requires Arrives(cfg, settings, c, xs, j) && Front(j.state, n, c, Main, Pending)
    ensures Arrives(cfg, settings, c, xs', j') && j'.machine == j.machine
    ensures Front(j'.state, n, c, Unacked(w, Received, []), Pending)
  {
    ArriveOn(cfg, settings, c, xs, j, Plain(Deliver(n, w)));
    xs', j' := xs + [Plain(Deliver(n, w))], Go(cfg, settings, c, j, Plain(Deliver(n, w)));
  }

  /** A statement of notification n's handler other than the send. */
  lemma Statement(cfg: Config, settings: Breaker.Settings, c: Channel, xs: seq<Timed>, j: Joint, n: nat, w: nat, pc: Pc,
                  unsent: seq<Frame>, status: Status)
    returns (xs': seq<Timed>, j': Joint, unsent': seq<Frame>)
    requires Arrives(cfg, settings, c, xs, j) && Front(j.state, n, c, Unacked(w, pc, unsent), status)
    requires !pc.Sending? && !pc.Done? && (pc.Received? ==> status == Pending)
    ensures Arrives(cfg, settings, c, xs', j') && j'.machine == j.machine
    ensures unsent' == unsent + FramesAfter(cfg, Message(n, 1, 3), c, pc)
    ensures Front(j'.state, n, c,
                  Unacked(w, if pc.Received? then Admitted else NextPc(cfg, map[], Message(n, 1, 3), pc, Accepted),
                          unsent'),
                  StatusAfter(pc, status))
  {
    var x := Plain(Handle(n, Accepted));
    ArriveOn(cfg, settings, c, xs, j, x);
    xs', j' := xs + [x], Go(cfg, settings, c, j, x);
    unsent' := unsent + FramesAfter(cfg, Message(n, 1, 3), c, pc);
  }

  /** The rest of a call, from the answer to the return. */
  lemma {:induction false} Returns(cfg: Config, settings: Breaker.Settings, c: Channel, xs: seq<Timed>, j: Joint,
                                   n: nat, w: nat, pc: Pc, unsent: seq<Frame>, status: Status)
    returns (xs': seq<Timed>, j': Joint)
    requires Arrives(cfg, settings, c, xs, j) && Front(j.state, n, c, Unacked(w, pc, unsent), status)
    requires !pc.Received? && !pc.Admitted? && !pc.Sending?
    ensures Arrives(cfg, settings, c, xs', j') && j'.machine == j.machine
    ensures Served(j'.state, n + 1) && |j'.state.copies| == n + 1
    decreases StepsLeft(pc)
  {
    if pc.Done? {
      xs', j' := xs, j;
    } else {
      var unsent';
      xs', j', unsent' := Statement(cfg, settings, c, xs, j, n, w, pc, unsent, status);
      xs', j' := Returns(cfg, settings, c, xs', j', n, w, NextPc(cfg, map[], Message(n, 1, 3), pc, Accepted), unsent',
                         StatusAfter(pc, status));
    }
  }

  /** The send: the breaker is consulted at `now` and the handler gets its answer. */
  lemma Asks(cfg: Config, settings: Breaker.Settings, c: Channel, xs: seq<Timed>, j: Joint, n: nat, w: nat, now: nat,
             provided: Outcome)
    returns (xs': seq<Timed>, j': Joint, pc': Pc)
    requires Arrives(cfg, settings, c, xs, j) && Front(j.state, n, c, Unacked(w, Sending, []), Processing)
    requires now >= j.machine.clock
    ensures Arrives(cfg, settings, c, xs', j')
    ensures j'.machine == SendEffect(settings, j.machine, now, now, provided)
    ensures Front(j'.state, n, c, Unacked(w, pc', []), Processing)
    ensures !pc'.Received? && !pc'.Admitted? && !pc'.Sending?
  {
    var answer := SendAnswer(settings, j.machine, now, provided);
    var x := Timed(Handle(n, answer), now, now, provided);
    ArriveOn(cfg, settings, c, xs, j, x);
    xs', j' := xs + [x], Go(cfg, settings, c, j, x);
    pc' := NextPc(cfg, map[], Message(n, 1, 3), Sending, answer);
  }

  /** One more notification is submitted, sent once and its call finished. */
  lemma Round(cfg: Config, settings: Breaker.Settings, c: Channel, xs: seq<Timed>, j: Joint, n: nat, w: nat, now: nat,
              provided: Outcome)
    returns (xs': seq<Timed>, j': Joint)
    requires w < |cfg.workers| && cfg.workers[w] == c
    requires Arrives(cfg, settings, c, xs, j) && Served(j.state, n) && |j.state.copies| == n && now >= j.machine.clock
    ensures Arrives(cfg, settings, c, xs', j') && Served(j'.state, n + 1) && |j'.state.copies| == n + 1
    ensures j'.machine == SendEffect(settings, j.machine, now, now, provided)
  {
    xs', j' := Posts(cfg, settings, c, xs, j, n);
    xs', j' := Delivers(cfg, settings, c, xs', j', n, w);
    var unsent, pc;
    xs', j', unsent := Statement(cfg, settings, c, xs', j', n, w, Received, [], Pending);
    xs', j', unsent := Statement(cfg, settings, c, xs', j', n, w, Admitted, unsent, Pending);
    xs', j', pc := Asks(cfg, settings, c, xs', j', n, w, now, provided);
    xs', j' := Returns(cfg, settings, c, xs', j', n, w, pc, [], Processing);
  }

  /** `n` transient failures short of the threshold. */
  lemma {:induction false} Failures(cfg: Config, settings: Breaker.Settings, c: Channel, w: nat, n: nat)
    returns (xs: seq<Timed>, j: Joint)
    requires w < |cfg.workers| && cfg.workers[w] == c && (n == 0 || n < settings.threshold)
    ensures Arrives(cfg, settings, c, xs, j) && Served(j.state, n) && |j.state.copies| == n
    ensures j.machine.breaker == Breaker.Breaker(Breaker.Closed, n, false, 0)
    ensures j.machine.outstanding == 0 && j.machine.clock == 0
  {
    if n == 0 {
      xs, j := [], Fresh();
    } else {
      xs, j := Failures(cfg, settings, c, w, n - 1);
      FailureCounts(settings, j.machine, n - 1);
      xs, j := Round(cfg, settings, c, xs, j, n - 1, w, 0, TransientError);
    }
  }

  lemma FailureCounts(settings: Breaker.Settings, m: Breaker.Machine, n: nat)
    requires m.breaker == Breaker.Breaker(Breaker.Closed, n, false, 0) && m.outstanding == 0 && m.clock == 0
    ensures var m' := SendEffect(settings, m, 0, 0, TransientError);
            && m'.outstanding == 0 && m'.clock == 0
            && m'.breaker == if n + 1 >= settings.threshold then Breaker.Breaker(Breaker.Open, 0, false, 0)
                             else Breaker.Breaker(Breaker.Closed, n + 1, false, 0)
  {
  }

  /** Two permanently rejected probes. */
  lemma ProbesWedge(settings: Breaker.Settings, m: Breaker.Machine)
    requires m.breaker == Breaker.Breaker(Breaker.Open, 0, false, 0) && m.outstanding == 0 && m.clock == 0
    ensures var d := settings.openDuration;
            var m1 := SendEffect(settings, m, d, d, PermanentError);
            m1.clock == d && Breaker.Wedged(SendEffect(settings, m1, d, d, PermanentError))
  {
  }

  /** The breaker is wedged and `n` notifications are done with. */
  lemma Wedges(cfg: Config, settings: Breaker.Settings, c: Channel, w: nat)
    returns (xs: seq<Timed>, j: Joint, n: nat)
    requires w < |cfg.workers| && cfg.workers[w] == c
    ensures Arrives(cfg, settings, c, xs, j) && Breaker.Wedged(j.machine)
    ensures Served(j.state, n) && |j.state.copies| == n
  {
    n := if settings.threshold >= 1 then settings.threshold - 1 else 0;
    xs, j := Failures(cfg, settings, c, w, n);
    FailureCounts(settings, j.machine, n);
    xs, j := Round(cfg, settings, c, xs, j, n, w, 0, TransientError);
    ProbesWedge(settings, j.machine);
    xs, j := Round(cfg, settings, c, xs, j, n + 1, w, settings.openDuration, PermanentError);
    xs, j := Round(cfg, settings, c, xs, j, n + 2, w, settings.openDuration, PermanentError);
    n := n + 3;
  }

  // ---------------------------------------------------------------- main results

  /**
   Under every configuration with a worker for the channel, and every breaker setting, a run from the start leads to a
   wedged breaker beside a published notification that nobody has attempted.
   */
  lemma WedgeBesideUndecided(cfg: Config, settings: Breaker.Settings, c: Channel, w: nat)
    returns (xs: seq<Timed>, j: Joint, id: Id)
    requires w < |cfg.workers| && cfg.workers[w] == c
    ensures Arrives(cfg, settings, c, xs, j) && Breaker.Wedged(j.machine)
    ensures id in j.state.rows && j.state.rows[id].channel == c && j.state.rows[id].status.Pending?
    ensures TallyOf(j.state, id).published > 0 && NotWon(j.state, c, id)
  {
    xs, j, id := Wedges(cfg, settings, c, w);
    xs, j := Posts(cfg, settings, c, xs, j, id);
    assert forall t :: 0 <= t < |j.state.copies| ==> !InWindow(j.state.copies[t], id);
  }

  /**
   Once the breaker of a channel is wedged, the provider accepts none of its notifications any more, submitted before
   or after: one that is not SENT, nor on its way there, never becomes SENT, and with a ladder that covers the retries
   every such notification that was published is DEAD_LETTERED, with a copy in the queue, when the system comes to rest.
   */
  lemma WedgedChannelDeadLetters(cfg: Config, settings: Breaker.Settings, c: Channel, acts: seq<Action>, j: Joint,
                                 xs: seq<Timed>, id: Id)
    requires Exec(cfg, Init(), acts) == Some(j.state) && Breaker.Wedged(j.machine) && Unwon(j.state, c, id)
    requires GoOn(cfg, settings, c, j, xs).Some?
    ensures var end := GoOn(cfg, settings, c, j, xs).value;
            && Breaker.Wedged(end.machine)
            && (id in end.state.rows && end.state.rows[id].channel == c ==>
                  && !IsSent(end.state, id)
                  && Successes(TallyOf(end.state, id).outcomes) == Successes(TallyOf(j.state, id).outcomes)
                  && (LadderCoversRetries(cfg) && Quiescent(end.state) && TallyOf(end.state, id).published > 0 ==>
                        end.state.rows[id].status.DeadLettered? && InDlq(end.state, id)))
  {
    GoOnUnwon(cfg, settings, c, acts, j, xs, id);
    var end := GoOn(cfg, settings, c, j, xs).value;
    if LadderCoversRetries(cfg) && Quiescent(end.state) && id in end.state.rows {
      SettledIffPublished(cfg, acts + Actions(xs), id);
    }
  }
}
