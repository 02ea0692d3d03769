/**
 The circuit breaker shared by all callers of a channel. Calls overlap freely: a call admitted in one state may
 report in any later one, and a permanent rejection is never reported at all.
 */
module CircuitBreaking {
  import Domain

  datatype Mode = Closed | Open | HalfOpen

  datatype Settings = Settings(threshold: int, openDuration: nat)

  /** The fields of CircuitBreaker. */
  datatype Breaker = Breaker(mode: Mode, failures: nat, probeInFlight: bool, openedAt: nat)

  /** What has happened, in order: requests and the ends of the calls they admitted. */
  datatype Entry =
    | Admitted(at: nat)
    | Refused(at: nat)
    | Succeeded
    | Failed(at: nat, tripped: bool)
    | Unreported  // a permanent rejection by the provider

  /** The breaker among its callers: `outstanding` calls are admitted and not finished. */
  datatype Machine = Machine(breaker: Breaker, clock: nat, outstanding: nat, history: seq<Entry>)

  datatype Event = Request(now: nat) | Success | Failure(now: nat) | Rejection

  function Start(): Machine {
    Machine(Breaker(Closed, 0, false, 0), 0, 0, [])
  }

  // ---------------------------------------------------------------- the methods, on values

  function Trip(b: Breaker, now: nat): Breaker {
    b.(mode := Open, openedAt := now, failures := 0)
  }

  function Allow(cfg: Settings, b: Breaker, now: nat): (Breaker, bool) {
    match b.mode
    case Closed => (b, true)
    case Open => if now >= b.openedAt + cfg.openDuration then (b.(mode := HalfOpen), true) else (b, false)
    case HalfOpen => if b.probeInFlight then (b, false) else (b.(probeInFlight := true), true)
  }

  function Succeed(b: Breaker): Breaker {
    b.(failures := 0, probeInFlight := false, mode := Closed)
  }

  predicate Trips(cfg: Settings, b: Breaker) {
    b.mode.HalfOpen? || b.failures + 1 >= cfg.threshold
  }

  function Fail(cfg: Settings, b: Breaker, now: nat): Breaker {
    var b1 := b.(probeInFlight := false);
    if b.mode.HalfOpen? then Trip(b1, now)
    else
      var b2 := b1.(failures := b.failures + 1);
      if b2.failures >= cfg.threshold then Trip(b2, now) else b2
  }

  // ---------------------------------------------------------------- all interleavings

  predicate Possible(m: Machine, e: Event) {
    match e
    case Request(now) => now >= m.clock
    case Success => m.outstanding > 0
    case Failure(now) => m.outstanding > 0 && now >= m.clock
    case Rejection => m.outstanding > 0
  }

  function Step(cfg: Settings, m: Machine, e: Event): Machine
    requires Possible(m, e)
  {
    match e
    case Request(now) =>
      var (b, ok) := Allow(cfg, m.breaker, now);
      Machine(b, now, m.outstanding + (if ok then 1 else 0), m.history + [if ok then Admitted(now) else Refused(now)])
    case Success => Machine(Succeed(m.breaker), m.clock, m.outstanding - 1, m.history + [Succeeded])
    case Failure(now) =>
      Machine(Fail(cfg, m.breaker, now), now, m.outstanding - 1, m.history + [Failed(now, Trips(cfg, m.breaker))])
    case Rejection => m.(outstanding := m.outstanding - 1, history := m.history + [Unreported])
  }

  ghost predicate PossibleRun(cfg: Settings, m: Machine, es: seq<Event>)
    decreases |es|
  {
    es == [] || (Possible(m, es[0]) && PossibleRun(cfg, Step(cfg, m, es[0]), es[1..]))
  }

  ghost function Run(cfg: Settings, m: Machine, es: seq<Event>): Machine
    requires PossibleRun(cfg, m, es)
    decreases |es|
  {
    if es == [] then m else Run(cfg, Step(cfg, m, es[0]), es[1..])
  }

  lemma {:induction false} RunConcat(cfg: Settings, m: Machine, a: seq<Event>, b: seq<Event>)
    requires PossibleRun(cfg, m, a) && PossibleRun(cfg, Run(cfg, m, a), b)
    ensures PossibleRun(cfg, m, a + b) && Run(cfg, m, a + b) == Run(cfg, Run(cfg, m, a), b)
    decreases |a|
  {
    if a == [] {
      assert a + b == b;
    } else {
      RunConcat(cfg, Step(cfg, m, a[0]), a[1..], b);
      assert (a + b)[1..] == a[1..] + b;
    }
  }

  // ---------------------------------------------------------------- reference reading of the history

  /** Failures since the last success or trip. */
  function TrailingFailures(h: seq<Entry>): nat {
    if h == [] then 0
    else match h[|h| - 1]
         case Succeeded => 0
         case Failed(_, tripped) => if tripped then 0 else TrailingFailures(h[..|h| - 1]) + 1
         case _ => TrailingFailures(h[..|h| - 1])
  }

  /** The time of the last trip; 0, the initial value of openedAt_, before any. */
  function LastTrip(h: seq<Entry>): nat {
    if h == [] then 0
    else match h[|h| - 1]
         case Failed(at, tripped) => if tripped then at else LastTrip(h[..|h| - 1])
         case _ => LastTrip(h[..|h| - 1])
  }

  /** The two readings of a history. */
  datatype Reading = Reading(trailing: nat, lastTrip: nat)

  function Read(h: seq<Entry>): Reading {
    Reading(TrailingFailures(h), LastTrip(h))
  }

  /** How the readings change with one more entry. */
  function ReadNext(r: Reading, e: Entry): Reading {
    match e
    case Succeeded => r.(trailing := 0)
    case Failed(at, tripped) => if tripped then Reading(0, at) else r.(trailing := r.trailing + 1)
    case _ => r
  }

  lemma ReadOneMore(h: seq<Entry>, e: Entry)
    ensures Read(h + [e]) == ReadNext(Read(h), e)
  {
    assert (h + [e])[..|h + [e]| - 1] == h;
  }

  /** The breaker's fields agree with what the history reads. */
  predicate Consistent(cfg: Settings, b: Breaker, clock: nat, r: Reading) {
    && b.failures == r.trailing
    && (cfg.threshold >= 1 ==> b.failures < cfg.threshold)
    && (cfg.threshold < 1 ==> b.failures == 0)
    && b.openedAt == r.lastTrip && b.openedAt <= clock
    && (b.probeInFlight ==> b.mode.HalfOpen?)
  }

  predicate Faithful(cfg: Settings, m: Machine) {
    Consistent(cfg, m.breaker, m.clock, Read(m.history))
  }

  lemma RequestConsistent(cfg: Settings, b: Breaker, clock: nat, r: Reading, now: nat)
    requires Consistent(cfg, b, clock, r) && now >= clock
    ensures var (b', ok) := Allow(cfg, b, now);
            Consistent(cfg, b', now, ReadNext(r, if ok then Admitted(now) else Refused(now)))
  {
  }

  lemma FailureConsistent(cfg: Settings, b: Breaker, clock: nat, r: Reading, now: nat)
    requires Consistent(cfg, b, clock, r) && now >= clock
    ensures Consistent(cfg, Fail(cfg, b, now), now, ReadNext(r, Failed(now, Trips(cfg, b))))
  {
  }

  lemma FaithfulStep(cfg: Settings, m: Machine, e: Event)
    requires Faithful(cfg, m) && Possible(m, e)
    ensures Faithful(cfg, Step(cfg, m, e))
  {
    var r := Read(m.history);
    match e
    case Request(now) =>
      ReadOneMore(m.history, if Allow(cfg, m.breaker, now).1 then Admitted(now) else Refused(now));
      RequestConsistent(cfg, m.breaker, m.clock, r, now);
    case Success => ReadOneMore(m.history, Succeeded);
    case Failure(now) =>
      ReadOneMore(m.history, Failed(now, Trips(cfg, m.breaker)));
      FailureConsistent(cfg, m.breaker, m.clock, r, now);
    case Rejection => ReadOneMore(m.history, Unreported);
  }

  lemma {:induction false} FaithfulRun(cfg: Settings, m: Machine, es: seq<Event>)
    requires Faithful(cfg, m) && PossibleRun(cfg, m, es)
    ensures Faithful(cfg, Run(cfg, m, es))
    decreases |es|
  {
    if es != [] {
      FaithfulStep(cfg, m, es[0]);
      FaithfulRun(cfg, Step(cfg, m, es[0]), es[1..]);
    }
  }

  // ---------------------------------------------------------------- main results

  /**
   In every interleaving `failureCount_` is the number of failures since the last success or trip, and a failure
   outside HalfOpen trips exactly when it brings that number to the threshold (every failure does when the
   threshold is below one).
   */
  lemma CounterRefinesHistory(cfg: Settings, es: seq<Event>, now: nat)
    requires PossibleRun(cfg, Start(), es) && Possible(Run(cfg, Start(), es), Failure(now))
    ensures var m := Run(cfg, Start(), es);
            var m' := Step(cfg, m, Failure(now));
            && m.breaker.failures == TrailingFailures(m.history)
            && (cfg.threshold >= 1 ==> m.breaker.failures < cfg.threshold)
            && (!m.breaker.mode.HalfOpen? ==>
                  (m'.breaker.mode.Open? && m'.breaker.openedAt == now && m'.breaker.failures == 0
                     && m'.history == m.history + [Failed(now, true)])
                  || (m'.breaker == m.breaker.(failures := m.breaker.failures + 1)
                     && m'.history == m.history + [Failed(now, false)]))
            && (!m.breaker.mode.HalfOpen? && cfg.threshold >= 1 ==>
                  (m'.history == m.history + [Failed(now, true)] <==> TrailingFailures(m.history) + 1 == cfg.threshold))
            && (m.breaker.mode.HalfOpen? ==> m'.breaker.mode.Open? && m'.breaker.openedAt == now)
  {
    FaithfulRun(cfg, Start(), es);
    var m := Run(cfg, Start(), es);
    assert (m.history + [Failed(now, true)])[|m.history|] != (m.history + [Failed(now, false)])[|m.history|];
  }

  // ---------------------------------------------------------------- which call is which

  /** The machine with its calls told apart: `episode` holds the calls the current half-open episode admitted. */
  datatype Tracked = Tracked(machine: Machine, next: nat, open: set<nat>, episode: set<nat>, rejected: set<nat>)

  datatype CallEvent = Ask(now: nat) | End(call: nat, how: Event)

  predicate CallPossible(m: Tracked, e: CallEvent) {
    match e
    case Ask(now) => Possible(m.machine, Request(now))
    case End(call, how) => call in m.open && !how.Request? && Possible(m.machine, how)
  }

  function CallStep(cfg: Settings, m: Tracked, e: CallEvent): Tracked
    requires CallPossible(m, e)
  {
    match e
    case Ask(now) =>
      var machine := Step(cfg, m.machine, Request(now));
      if !Allow(cfg, m.machine.breaker, now).1 then m.(machine := machine)
      else Tracked(machine, m.next + 1, m.open + {m.next},
                   if m.machine.breaker.mode.Open? then {m.next}
                   else if m.machine.breaker.mode.HalfOpen? then m.episode + {m.next} else {},
                   m.rejected)
    case End(call, how) =>
      var machine := Step(cfg, m.machine, how);
      Tracked(machine, m.next, m.open - {call}, if machine.breaker.mode.HalfOpen? then m.episode else {},
              if how.Rejection? then m.rejected + {call} else m.rejected)
  }

  ghost function Follow(cfg: Settings, es: seq<CallEvent>): Domain.Option<Tracked> {
    if es == [] then Domain.Some(Tracked(Start(), 0, {}, {}, {}))
    else
      var m := Follow(cfg, es[..|es| - 1]);
      if m.Some? && CallPossible(m.value, es[|es| - 1]) then Domain.Some(CallStep(cfg, m.value, es[|es| - 1]))
      else Domain.None
  }

  /** An episode's calls are outstanding, unless a permanent rejection ended them without a report. */
  ghost predicate EpisodeOk(m: Tracked) {
    && |m.open| == m.machine.outstanding
    && (forall c :: c in m.open || c in m.episode || c in m.rejected ==> c < m.next)
    && (m.machine.breaker.probeInFlight ==> m.machine.breaker.mode.HalfOpen?)
    && (m.machine.breaker.mode.HalfOpen? ==>
          && |m.episode| == (if m.machine.breaker.probeInFlight then 2 else 1)
          && m.episode <= m.open + m.rejected)
  }

  lemma AskEpisode(cfg: Settings, m: Tracked, now: nat)
    requires EpisodeOk(m) && CallPossible(m, Ask(now))
    ensures EpisodeOk(CallStep(cfg, m, Ask(now)))
  {
    assert m.next !in m.open && m.next !in m.episode;
    assert |m.open + {m.next}| == |m.open| + 1;
    assert |m.episode + {m.next}| == |m.episode| + 1;
  }

  lemma EndEpisode(cfg: Settings, m: Tracked, call: nat, how: Event)
    requires EpisodeOk(m) && CallPossible(m, End(call, how))
    ensures EpisodeOk(CallStep(cfg, m, End(call, how)))
  {
    assert |m.open - {call}| == |m.open| - 1;
  }

  lemma EpisodeStep(cfg: Settings, m: Tracked, e: CallEvent)
    requires EpisodeOk(m) && CallPossible(m, e)
    ensures EpisodeOk(CallStep(cfg, m, e))
  {
    match e
    case Ask(now) => AskEpisode(cfg, m, now);
    case End(call, how) => EndEpisode(cfg, m, call, how);
  }

  /**
   Half-open discipline. The probe flag implies HalfOpen, an episode admits one or two calls, and while none of these
   was permanently rejected one of them (in fact each) is outstanding, whatever calls of earlier times still do.
   */
  lemma {:induction false} HalfOpenDiscipline(cfg: Settings, es: seq<CallEvent>)
    requires Follow(cfg, es).Some?
    ensures var m := Follow(cfg, es).value;
            && EpisodeOk(m)
            && (m.machine.breaker.probeInFlight ==> m.machine.breaker.mode.HalfOpen?)
            && (m.machine.breaker.mode.HalfOpen? ==>
                  && 1 <= |m.episode| <= 2
                  && (m.episode !! m.rejected ==> m.episode <= m.open && m.machine.outstanding >= |m.episode|))
  {
    if es != [] {
      HalfOpenDiscipline(cfg, es[..|es| - 1]);
      EpisodeStep(cfg, Follow(cfg, es[..|es| - 1]).value, es[|es| - 1]);
    }
    var m := Follow(cfg, es).value;
    if m.machine.breaker.mode.HalfOpen? {
      NotEmpty(m.episode);
      if m.episode !! m.rejected {
        Smaller(m.episode, m.open);
      }
    }
  }

  lemma NotEmpty(s: set<nat>)
    ensures |s| >= 1 <==> s != {}
  {
  }

  lemma {:induction false} Smaller(s: set<nat>, t: set<nat>)
    requires s <= t
    ensures |s| <= |t|
  {
    if s != {} {
      var x :| x in s;
      Smaller(s - {x}, t - {x});
    }
  }

  /** Telling calls apart loses nothing: every run of the machine is one in which the reporting calls have names. */
  lemma {:induction false} RunFollows(cfg: Settings, es: seq<Event>) returns (cs: seq<CallEvent>)
    requires PossibleRun(cfg, Start(), es)
    ensures Follow(cfg, cs).Some? && Follow(cfg, cs).value.machine == Run(cfg, Start(), es)
    decreases |es|
  {
    if es == [] {
      cs := [];
    } else {
      var n := |es| - 1;
      RunInit(cfg, Start(), es);
      cs := RunFollows(cfg, es[..n]);
      HalfOpenDiscipline(cfg, cs);
      var m := Follow(cfg, cs).value;
      var e := es[n];
      var c: CallEvent;
      if e.Request? {
        c := Ask(e.now);
      } else {
        NotEmpty(m.open);
        var call :| call in m.open;
        c := End(call, e);
      }
      assert (cs + [c])[..|cs + [c]| - 1] == cs;
      cs := cs + [c];
    }
  }

  lemma {:induction false} RunInit(cfg: Settings, m: Machine, es: seq<Event>)
    requires PossibleRun(cfg, m, es) && es != []
    ensures PossibleRun(cfg, m, es[..|es| - 1])
    ensures Possible(Run(cfg, m, es[..|es| - 1]), es[|es| - 1])
    ensures Run(cfg, m, es) == Step(cfg, Run(cfg, m, es[..|es| - 1]), es[|es| - 1])
    decreases |es|
  {
    if |es| > 1 {
      RunInit(cfg, Step(cfg, m, es[0]), es[1..]);
      assert es[1..][..|es[1..]| - 1] == es[..|es| - 1][1..];
    } else {
      assert es[..0] == [];
      assert es[1..] == [];
    }
  }

  /**
   The documented "exactly one probe" does not hold: from every reachable open state, once the window is over, two
   requests in a row are admitted and the third is refused.
   */
  lemma TwoProbesAdmitted(cfg: Settings, es: seq<Event>, now: nat)
    requires PossibleRun(cfg, Start(), es) && Run(cfg, Start(), es).breaker.mode.Open?
    requires now >= Run(cfg, Start(), es).clock
    requires now >= Run(cfg, Start(), es).breaker.openedAt + cfg.openDuration
    ensures var m := Run(cfg, Start(), es);
            var m1 := Step(cfg, m, Request(now));
            var m2 := Step(cfg, m1, Request(now));
            && m1.history == m.history + [Admitted(now)]
            && m2.history == m1.history + [Admitted(now)]
            && Step(cfg, m2, Request(now)).history == m2.history + [Refused(now)]
  {
    FaithfulRun(cfg, Start(), es);
  }

  // ---------------------------------------------------------------- recovery

  function CountFailures(es: seq<Event>): nat {
    if es == [] then 0 else CountFailures(es[1..]) + if es[0].Failure? then 1 else 0
  }

  /** No request entered after position `from` of the history was refused. */
  ghost predicate NoneRefused(h: seq<Entry>, from: nat) {
    forall i :: from <= i < |h| ==> !h[i].Refused?
  }

  lemma {:induction false} ClosedAdmitsAll(cfg: Settings, m: Machine, from: nat, es: seq<Event>)
    requires m.breaker.mode.Closed? && m.breaker.failures + CountFailures(es) < cfg.threshold
    requires PossibleRun(cfg, m, es) && from <= |m.history| && NoneRefused(m.history, from)
    ensures Run(cfg, m, es).breaker.mode.Closed? && NoneRefused(Run(cfg, m, es).history, from)
    decreases |es|
  {
    if es != [] {
      ClosedAdmitsAll(cfg, Step(cfg, m, es[0]), from, es[1..]);
    }
  }

  /**
   Recovery. Whatever state the breaker is in, the success of any outstanding call closes it and forgets all failures,
   and in every continuation with fewer failures than the threshold it stays closed and refuses no request.
   */
  lemma SuccessRecovers(cfg: Settings, m: Machine, es: seq<Event>)
    requires Possible(m, Success) && PossibleRun(cfg, Step(cfg, m, Success), es) && CountFailures(es) < cfg.threshold
    ensures var closed := Step(cfg, m, Success);
            && closed.history == m.history + [Succeeded] && closed.outstanding == m.outstanding - 1
            && closed.breaker.mode.Closed? && closed.breaker.failures == 0 && !closed.breaker.probeInFlight
            && Run(cfg, closed, es).breaker.mode.Closed?
            && NoneRefused(Run(cfg, closed, es).history, |closed.history|)
  {
    var closed := Step(cfg, m, Success);
    ClosedAdmitsAll(cfg, closed, |closed.history|, es);
  }

  /** No call can be admitted any more. */
  predicate Wedged(m: Machine) {
    m.breaker.mode.HalfOpen? && m.breaker.probeInFlight && m.outstanding == 0
  }

  function CountAdmitted(h: seq<Entry>): nat {
    if h == [] then 0 else CountAdmitted(h[..|h| - 1]) + if h[|h| - 1].Admitted? then 1 else 0
  }

  lemma CountAdmittedStep(cfg: Settings, m: Machine, e: Event)
    requires Possible(m, e)
    ensures CountAdmitted(Step(cfg, m, e).history) == CountAdmitted(m.history) +
            if e.Request? && Allow(cfg, m.breaker, e.now).1 then 1 else 0
  {
    var m' := Step(cfg, m, e);
    assert m'.history[..|m'.history| - 1] == m.history;
  }

  lemma {:induction false} WedgedForever(cfg: Settings, m: Machine, es: seq<Event>)
    requires Wedged(m) && PossibleRun(cfg, m, es)
    ensures Wedged(Run(cfg, m, es)) && CountAdmitted(Run(cfg, m, es).history) == CountAdmitted(m.history)
    decreases |es|
  {
    if es != [] {
      CountAdmittedStep(cfg, m, es[0]);
      WedgedForever(cfg, Step(cfg, m, es[0]), es[1..]);
    }
  }

  /** Some continuation admits another call. */
  ghost predicate CanAdmit(cfg: Settings, m: Machine) {
    exists es :: PossibleRun(cfg, m, es) && CountAdmitted(Run(cfg, m, es).history) > CountAdmitted(m.history)
  }

  lemma UnwedgedAdmits(cfg: Settings, m: Machine) returns (es: seq<Event>)
    requires !Wedged(m)
    ensures PossibleRun(cfg, m, es) && CountAdmitted(Run(cfg, m, es).history) > CountAdmitted(m.history)
  {
    var ask := Request(m.clock + m.breaker.openedAt + cfg.openDuration);
    if m.breaker.mode.HalfOpen? && m.breaker.probeInFlight {
      es := [Success, ask];
      var m1 := Step(cfg, m, Success);
      CountAdmittedStep(cfg, m, Success);
      CountAdmittedStep(cfg, m1, ask);
      assert es[1..] == [ask] && [ask][1..] == [];
      assert PossibleRun(cfg, m1, [ask]) && Run(cfg, m1, [ask]) == Step(cfg, m1, ask);
    } else {
      es := [ask];
      CountAdmittedStep(cfg, m, ask);
      assert es[1..] == [];
    }
  }

  /**
   The exact condition under which the breaker is stuck: it refuses every later call, however long it is asked,
   if and only if it is half-open with its probe flag set and no admitted call is left to report.
   */
  lemma StuckIffWedged(cfg: Settings, m: Machine)
    ensures CanAdmit(cfg, m) <==> !Wedged(m)
  {
    if Wedged(m) {
      forall es | PossibleRun(cfg, m, es) ensures CountAdmitted(Run(cfg, m, es).history) == CountAdmitted(m.history) {
        WedgedForever(cfg, m, es);
      }
    } else {
      var es := UnwedgedAdmits(cfg, m);
    }
  }

  /** The failures that open a closed breaker. */
  ghost function Failures(n: nat): seq<Event> {
    if n == 0 then [] else Failures(n - 1) + [Request(0), Failure(0)]
  }

  lemma RunTwo(cfg: Settings, m: Machine, d: Event, e: Event)
    requires Possible(m, d) && Possible(Step(cfg, m, d), e)
    ensures PossibleRun(cfg, m, [d, e]) && Run(cfg, m, [d, e]) == Step(cfg, Step(cfg, m, d), e)
  {
    var m1 := Step(cfg, m, d);
    assert [d, e][1..] == [e] && [e][1..] == [];
    assert PossibleRun(cfg, m1, [e]) && Run(cfg, m1, [e]) == Step(cfg, m1, e);
  }

  lemma {:induction false} FailuresCount(cfg: Settings, n: nat)
    requires n < cfg.threshold
    ensures PossibleRun(cfg, Start(), Failures(n))
    ensures var m := Run(cfg, Start(), Failures(n));
            m.breaker == Breaker(Closed, n, false, 0) && m.outstanding == 0 && m.clock == 0
  {
    if n > 0 {
      FailuresCount(cfg, n - 1);
      var m := Run(cfg, Start(), Failures(n - 1));
      RunTwo(cfg, m, Request(0), Failure(0));
      RunConcat(cfg, Start(), Failures(n - 1), [Request(0), Failure(0)]);
    }
  }

  lemma FailuresOpen(cfg: Settings) returns (es: seq<Event>)
    ensures PossibleRun(cfg, Start(), es)
    ensures var m := Run(cfg, Start(), es);
            m.breaker == Breaker(Open, 0, false, 0) && m.outstanding == 0 && m.clock == 0
  {
    var n: nat := if cfg.threshold >= 1 then cfg.threshold - 1 else 0;
    if cfg.threshold >= 1 {
      FailuresCount(cfg, n);
    }
    RunTwo(cfg, Run(cfg, Start(), Failures(n)), Request(0), Failure(0));
    RunConcat(cfg, Start(), Failures(n), [Request(0), Failure(0)]);
    es := Failures(n) + [Request(0), Failure(0)];
  }

  /** Under every setting two permanently rejected probes wedge the breaker. */
  lemma WedgeIsReachable(cfg: Settings) returns (es: seq<Event>)
    ensures PossibleRun(cfg, Start(), es) && Wedged(Run(cfg, Start(), es))
  {
    es := FailuresOpen(cfg);
    var m := Run(cfg, Start(), es);
    var ask := Request(cfg.openDuration);
    RunTwo(cfg, m, ask, ask);
    RunConcat(cfg, Start(), es, [ask, ask]);
    es := es + [ask, ask];
    m := Run(cfg, Start(), es);
    RunTwo(cfg, m, Rejection, Rejection);
    RunConcat(cfg, Start(), es, [Rejection, Rejection]);
    es := es + [Rejection, Rejection];
  }

  // ---------------------------------------------------------------- fail fast

  ghost predicate NoSuccess(es: seq<Event>) {
    forall i :: 0 <= i < |es| ==> !es[i].Success?
  }

  /** Admissions entered after position `from` of the history are no earlier than `time`. */
  ghost predicate AdmittedNotBefore(h: seq<Entry>, from: nat, time: nat) {
    forall i :: from <= i < |h| && h[i].Admitted? ==> h[i].at >= time
  }

  /** Not closed again since a trip at `t`: still open since then, or half-open with the window over. */
  ghost predicate InWindow(cfg: Settings, m: Machine, t: nat) {
    && m.clock >= t && m.breaker.openedAt >= t
    && (m.breaker.mode.Open? || (m.breaker.mode.HalfOpen? && m.clock >= t + cfg.openDuration))
  }

  lemma InWindowStep(cfg: Settings, m: Machine, t: nat, e: Event)
    requires InWindow(cfg, m, t) && Possible(m, e) && !e.Success?
    ensures InWindow(cfg, Step(cfg, m, e), t)
    ensures e.Request? && Allow(cfg, m.breaker, e.now).1 ==> e.now >= t + cfg.openDuration
  {
  }

  lemma {:induction false} InWindowRun(cfg: Settings, m: Machine, t: nat, from: nat, es: seq<Event>)
    requires InWindow(cfg, m, t) && PossibleRun(cfg, m, es) && NoSuccess(es)
    requires from <= |m.history| && AdmittedNotBefore(m.history, from, t + cfg.openDuration)
    ensures InWindow(cfg, Run(cfg, m, es), t)
    ensures AdmittedNotBefore(Run(cfg, m, es).history, from, t + cfg.openDuration)
    decreases |es|
  {
    if es != [] {
      InWindowStep(cfg, m, t, es[0]);
      InWindowRun(cfg, Step(cfg, m, es[0]), t, from, es[1..]);
    }
  }

  /**
   After a trip at time t nothing is admitted before t + openDuration, whatever requests, failures and rejections
   follow, as long as no earlier call succeeds.
   */
  lemma FailFast(cfg: Settings, m: Machine, t: nat, es: seq<Event>)
    requires Possible(m, Failure(t)) && Trips(cfg, m.breaker)
    requires PossibleRun(cfg, Step(cfg, m, Failure(t)), es) && NoSuccess(es)
    ensures var open := Step(cfg, m, Failure(t));
            && open.breaker.mode.Open? && open.breaker.openedAt == t
            && AdmittedNotBefore(Run(cfg, open, es).history, |open.history|, t + cfg.openDuration)
            && !Run(cfg, open, es).breaker.mode.Closed?
  {
    var open := Step(cfg, m, Failure(t));
    InWindowRun(cfg, open, t, |open.history|, es);
  }

  /** Nothing in the run reports a success or trips the breaker, and all its requests are too early. */
  ghost predicate LeavesOpen(cfg: Settings, m: Machine, es: seq<Event>)
    requires PossibleRun(cfg, m, es)
    decreases |es|
  {
    es == [] ||
    (&& !es[0].Success?
     && (es[0].Failure? ==> !Trips(cfg, m.breaker))
     && (es[0].Request? ==> es[0].now < m.breaker.openedAt + cfg.openDuration)
     && LeavesOpen(cfg, Step(cfg, m, es[0]), es[1..]))
  }

  /**
   The window stands. After whatever early requests, rejections and failures short of a trip, the breaker is open with
   the same window, and the next request is admitted if and only if it comes at the window's end or later.
   */
  lemma {:induction false} WindowStands(cfg: Settings, m: Machine, es: seq<Event>, now: nat)
    requires m.breaker.mode.Open? && PossibleRun(cfg, m, es) && LeavesOpen(cfg, m, es)
    requires now >= Run(cfg, m, es).clock
    ensures var m' := Run(cfg, m, es);
            && m'.breaker.mode.Open? && m'.breaker.openedAt == m.breaker.openedAt
            && (Step(cfg, m', Request(now)).history == m'.history + [Admitted(now)] <==>
                now >= m.breaker.openedAt + cfg.openDuration)
    decreases |es|
  {
    if es == [] {
      assert (m.history + [Admitted(now)])[|m.history|] != (m.history + [Refused(now)])[|m.history|];
    } else {
      WindowStands(cfg, Step(cfg, m, es[0]), es[1..], now);
    }
  }

  // ---------------------------------------------------------------- the class

  class CircuitBreaker {
    const settings: Settings
    var state: Mode
    var failureCount: int
    var probeInFlight: bool
    var openedAt: int
    ghost var machine: Machine

    ghost predicate Valid()
      reads this
    {
      && failureCount >= 0 && openedAt >= 0
      && machine.breaker == Breaker(state, failureCount, probeInFlight, openedAt)
    }

    constructor (failureThreshold: int, openDuration: nat)
      ensures Valid() && machine == Start() && settings == Settings(failureThreshold, openDuration)
    {
      settings := Settings(failureThreshold, openDuration);
      state, failureCount, probeInFlight, openedAt := Closed, 0, false, 0;
      machine := Start();
    }

    method AllowRequest(now: nat) returns (allowed: bool)
      requires Valid() && Possible(machine, Request(now))
      modifies this
      ensures Valid() && machine == Step(settings, old(machine), Request(now))
      ensures machine.history == old(machine.history) + [if allowed then Admitted(now) else Refused(now)]
    {
      machine := Step(settings, machine, Request(now));
      if state == Closed {
        return true;
      }
      if state == Open {
        var elapsed := now - openedAt;
        if elapsed >= settings.openDuration {
          state := HalfOpen;
          return true;
        }
        return false;
      }
      if probeInFlight {
        return false;
      }
      probeInFlight := true;
      return true;
    }

    method OnSuccess()
      requires Valid() && Possible(machine, Success)
      modifies this
      ensures Valid() && machine == Step(settings, old(machine), Success)
      ensures state == Closed && failureCount == 0 && !probeInFlight && openedAt == old(openedAt)
      ensures machine.history == old(machine.history) + [Succeeded]
    {
      failureCount := 0;
      probeInFlight := false;
      state := Closed;
      machine := Step(settings, machine, Success);
    }

    method OnFailure(now: nat)
      requires Valid() && Possible(machine, Failure(now))
      modifies this
      ensures Valid() && machine == Step(settings, old(machine), Failure(now))
    {
      machine := Step(settings, machine, Failure(now));
      probeInFlight := false;
      if state == HalfOpen {
        TripAt(now);
        return;
      }
      failureCount := failureCount + 1;
      if failureCount >= settings.threshold {
        TripAt(now);
      }
    }

    method TripAt(now: nat)
      modifies `state, `openedAt, `failureCount
      ensures state == Open && openedAt == now && failureCount == 0
    {
      state := Open;
      openedAt := now;
      failureCount := 0;
    }

    /** A permanent rejection leaves every field alone; only the history knows of it. */
    ghost method EndUnreported()
      requires Valid() && Possible(machine, Rejection)
      modifies `machine
      ensures Valid() && machine == Step(settings, old(machine), Rejection)
    {
      machine := Step(settings, machine, Rejection);
    }
  }
}
