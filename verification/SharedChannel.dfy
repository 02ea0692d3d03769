/**
 When SENT is final, in the runs of Wire. A worker's thread runs one call at a time, so handlings of a notification can
 overlap only if two workers consume its channel: exactly then some run overwrites SENT, and exactly then some run has
 the provider accept a notification more often than its lost deliveries explain. Modules Survivors and SurvivorBounds
 say the same of runs in which calls outlive their connections, where more than the lost deliveries has to be counted.
 */
module SharedChannel {
  import opened Domain
  import opened Protocol
  import opened Agreement
  import opened Budget
  import opened DuplicateDelivery
  import opened LosingRuns
  import opened Wire
  import Service

  /** Two workers consume the same channel. */
  ghost predicate Shared(cfg: Config) {
    exists v, w :: 0 <= v < w < |cfg.workers| && cfg.workers[v] == cfg.workers[w]
  }

  // ---------------------------------------------------------------- one worker per channel

  /** Two busy handlers of a notification are calls of the one thread that consumes its channel. */
  lemma UnsharedNoOverlap(cfg: Config, s: State, id: Id)
    requires !Shared(cfg) && Agreed(cfg, s) && SingleThreaded(s)
    ensures NoOverlap(s, id)
  {
    forall i, j | 0 <= i < |s.copies| && 0 <= j < |s.copies| && Busy(s.copies[i], id) && Busy(s.copies[j], id)
      ensures i == j
    {
      assert CopyOk(cfg, s, s.copies[i]) && CopyOk(cfg, s, s.copies[j]);
      assert InProgress(s.copies[i]) && InProgress(s.copies[j]);
    }
  }

  /** Losing a connection only ends handlings. */
  lemma {:induction false} RequeueAllAccounted(cfg: Config, s: State, w: nat, n: nat, id: Id)
    requires n <= |s.copies| && NoOverlap(s, id) && SuccessesAccounted(s, id)
    ensures SuccessesAccounted(RequeueAll(s, w, n), id)
    ensures IsSent(s, id) ==> IsSent(RequeueAll(s, w, n), id)
  {
    if n > 0 {
      RequeueAllAccounted(cfg, s, w, n - 1, id);
      var s1 := RequeueAll(s, w, n - 1);
      RequeueAllCopies(s, w, n - 1);
      if HeldBy(s1.copies[n - 1], w) {
        assert NoOverlap(s1, id);
        RequeueAccounted(cfg, s1, n - 1, id);
      }
    }
  }

  lemma EventAccounted(cfg: Config, y: System, e: Event, id: Id)
    requires Agreed(cfg, y.core) && Wired(cfg, y) && NoOverlap(y.core, id) && SuccessesAccounted(y.core, id)
    requires CanOccur(cfg, y, e)
    ensures SuccessesAccounted(Occur(cfg, y, e).core, id)
    ensures IsSent(y.core, id) ==> IsSent(Occur(cfg, y, e).core, id)
  {
    match e
    case Outside(a) => AccountedStep(cfg, y.core, a, id);
    case Take(t, w) => AccountedStep(cfg, y.core, Deliver(t, w), id);
    case RunHandler(t, o) => AccountedStep(cfg, y.core, Handle(t, o), id);
    case Send(w) =>
      HeadIsNext(cfg, y, w);
      AccountedStep(cfg, y.core, Flush(y.sockets[w][0].copy), id);
    case Lose(w) => RequeueAllAccounted(cfg, y.core, w, |y.core.copies|, id);
  }

  lemma {:induction false} UnsharedAccounted(cfg: Config, es: seq<Event>, id: Id)
    requires !Shared(cfg) && Play(cfg, es).Some?
    ensures NoOverlap(Play(cfg, es).value.core, id) && SuccessesAccounted(Play(cfg, es).value.core, id)
  {
    var acts := WireRefinesProtocol(cfg, es);
    AgreedRun(cfg, acts);
    UnsharedNoOverlap(cfg, Play(cfg, es).value.core, id);
    if es != [] {
      var y := Play(cfg, es[..|es| - 1]).value;
      var before := WireRefinesProtocol(cfg, es[..|es| - 1]);
      AgreedRun(cfg, before);
      UnsharedAccounted(cfg, es[..|es| - 1], id);
      EventAccounted(cfg, y, es[|es| - 1], id);
    }
  }

  /** With one worker per channel no event ever ends SENT. */
  lemma UnsharedSentIsFinal(cfg: Config, es: seq<Event>, e: Event, id: Id)
    requires !Shared(cfg) && Play(cfg, es).Some? && CanOccur(cfg, Play(cfg, es).value, e)
    requires IsSent(Play(cfg, es).value.core, id)
    ensures IsSent(Occur(cfg, Play(cfg, es).value, e).core, id)
  {
    var acts := WireRefinesProtocol(cfg, es);
    AgreedRun(cfg, acts);
    UnsharedAccounted(cfg, es, id);
    EventAccounted(cfg, Play(cfg, es).value, e, id);
  }

  /** With one worker per channel every success but one is paid for by a crash in its window. */
  lemma UnsharedSuccessesAtMost(cfg: Config, es: seq<Event>, id: Id)
    requires !Shared(cfg) && Play(cfg, es).Some?
    ensures var tally := TallyOf(Play(cfg, es).value.core, id); Successes(tally.outcomes) <= 1 + tally.lostSuccesses
  {
    var s := Play(cfg, es).value.core;
    UnsharedAccounted(cfg, es, id);
    if SomeInWindow(s, id) {
      var t :| 0 <= t < |s.copies| && InWindow(s.copies[t], id);
      assert Busy(s.copies[t], id);
    }
  }

  // ---------------------------------------------------------------- two workers on a channel

  ghost predicate Plays(cfg: Config, es: seq<Event>, y: System) {
    Play(cfg, es) == Some(y)
  }

  lemma PlayOn(cfg: Config, es: seq<Event>, y: System, e: Event)
    requires Plays(cfg, es, y) && CanOccur(cfg, y, e)
    ensures Plays(cfg, es + [e], Occur(cfg, y, e))
  {
    assert (es + [e])[..|es + [e]| - 1] == es;
  }

  /** What clients and clocks can do in Protocol they can do here. */
  lemma {:induction false} OutsidePlays(cfg: Config, acts: seq<Action>, s: State) returns (es: seq<Event>)
    requires Reaches(cfg, acts, s) && AllOuter(acts)
    ensures Plays(cfg, es, System(s, Boot(cfg).sockets))
  {
    if acts == [] {
      es := [];
    } else {
      var n := |acts| - 1;
      LastStep(cfg, Init(), acts);
      var before := Exec(cfg, Init(), acts[..n]).value;
      es := OutsidePlays(cfg, acts[..n], before);
      PlayOn(cfg, es, System(before, Boot(cfg).sockets), Outside(acts[n]));
      es := es + [Outside(acts[n])];
    }
  }

  /** Workers v and w each hold a message of notification 0, nothing is on a socket, `sends` came back. */
  ghost predicate Duo(cfg: Config, y: System, v: nat, w: nat, pcs: (Pc, Pc), status: Status, sends: seq<Outcome>) {
    && v < w < |cfg.workers| && |y.sockets| == |cfg.workers|
    && (forall x :: 0 <= x < |y.sockets| ==> y.sockets[x] == [])
    && |y.core.copies| == 2 && 0 in y.core.rows && y.core.rows[0].status == status
    && y.core.copies[0].body.id == 0 && y.core.copies[0].place == Unacked(v, pcs.0, [])
    && y.core.copies[1].body.id == 0 && y.core.copies[1].place == Unacked(w, pcs.1, [])
    && TallyOf(y.core, 0).outcomes == sends && TallyOf(y.core, 0).lostSuccesses == 0
  }

  /** The statement at `pc` on the way to markSent. */
  function Onward(pc: Pc): Pc {
    match pc
    case Received => Admitted
    case Admitted => Sending
    case Sending => SendOk
    case SendOk => RecordedOk
    case _ => MarkedSent
  }

  lemma FirstSteps(cfg: Config, es: seq<Event>, y: System, v: nat, w: nat, pcs: (Pc, Pc), status: Status,
                   sends: seq<Outcome>) returns (es': seq<Event>, y': System)
    requires Plays(cfg, es, y) && Duo(cfg, y, v, w, pcs, status, sends)
    requires pcs.0 in {Admitted, Sending, SendOk, RecordedOk} || (pcs.0 == Received && status == Pending)
    ensures Plays(cfg, es', y')
    ensures Duo(cfg, y', v, w, (Onward(pcs.0), pcs.1),
                if pcs.0 == Admitted then Processing else if pcs.0 == RecordedOk then Sent else status,
                sends + if pcs.0 == Sending then [Accepted] else [])
  {
    PlayOn(cfg, es, y, RunHandler(0, Accepted));
    es', y' := es + [RunHandler(0, Accepted)], Occur(cfg, y, RunHandler(0, Accepted));
  }

  lemma SecondSteps(cfg: Config, es: seq<Event>, y: System, v: nat, w: nat, pcs: (Pc, Pc), status: Status,
                    sends: seq<Outcome>) returns (es': seq<Event>, y': System)
    requires Plays(cfg, es, y) && Duo(cfg, y, v, w, pcs, status, sends)
    requires pcs.1 in {Admitted, Sending} || (pcs.1 == Received && status == Pending)
    ensures Plays(cfg, es', y') && es' == es + [RunHandler(1, Accepted)] && CanOccur(cfg, y, RunHandler(1, Accepted))
    ensures y' == Occur(cfg, y, RunHandler(1, Accepted))
    ensures Duo(cfg, y', v, w, (pcs.0, Onward(pcs.1)), if pcs.1 == Admitted then Processing else status,
                sends + if pcs.1 == Sending then [Accepted] else [])
  {
    PlayOn(cfg, es, y, RunHandler(1, Accepted));
    es', y' := es + [RunHandler(1, Accepted)], Occur(cfg, y, RunHandler(1, Accepted));
  }

  /** A repeated POST, and both of its messages delivered. */
  lemma BothDelivered(cfg: Config, v: nat, w: nat) returns (es: seq<Event>, y: System)
    requires v < w < |cfg.workers| && cfg.workers[v] == cfg.workers[w]
    ensures Plays(cfg, es, y) && Duo(cfg, y, v, w, (Received, Received), Pending, [])
  {
    var acts, s := Resubmits(cfg, cfg.workers[v]);
    es := OutsidePlays(cfg, acts, s);
    y := System(s, Boot(cfg).sockets);
    NoneHeld(y.core.copies, v);
    PlayOn(cfg, es, y, Take(0, v));
    es, y := es + [Take(0, v)], Occur(cfg, y, Take(0, v));
    NoneHeld(y.core.copies, w);
    PlayOn(cfg, es, y, Take(1, w));
    es, y := es + [Take(1, w)], Occur(cfg, y, Take(1, w));
  }

  /** Worker w is past its status test, worker v about to send. */
  lemma SendingBesideAdmitted(cfg: Config, v: nat, w: nat) returns (es: seq<Event>, y: System)
    requires v < w < |cfg.workers| && cfg.workers[v] == cfg.workers[w]
    ensures Plays(cfg, es, y) && Duo(cfg, y, v, w, (Sending, Admitted), Processing, [])
  {
    es, y := BothDelivered(cfg, v, w);
    es, y := SecondSteps(cfg, es, y, v, w, (Received, Received), Pending, []);
    es, y := FirstSteps(cfg, es, y, v, w, (Received, Admitted), Pending, []);
    es, y := FirstSteps(cfg, es, y, v, w, (Admitted, Admitted), Pending, []);
  }

  /** Worker v delivers while worker w, past its status test, has yet to mark PROCESSING. */
  lemma SentBesideAdmitted(cfg: Config, v: nat, w: nat) returns (es: seq<Event>, y: System)
    requires v < w < |cfg.workers| && cfg.workers[v] == cfg.workers[w]
    ensures Plays(cfg, es, y) && Duo(cfg, y, v, w, (MarkedSent, Admitted), Sent, [Accepted])
  {
    es, y := SendingBesideAdmitted(cfg, v, w);
    es, y := FirstSteps(cfg, es, y, v, w, (Sending, Admitted), Processing, []);
    es, y := FirstSteps(cfg, es, y, v, w, (SendOk, Admitted), Processing, [Accepted]);
    es, y := FirstSteps(cfg, es, y, v, w, (RecordedOk, Admitted), Processing, [Accepted]);
  }

  lemma TwoSuccesses()
    ensures Successes([Accepted] + [Accepted]) == 2
  {
    SuccessesSnoc([Accepted], Accepted);
    SuccessesSnoc([], Accepted);
    assert [] + [Accepted] == [Accepted];
  }

  /** Worker w goes on and delivers once more. */
  lemma SecondSuccess(cfg: Config, v: nat, w: nat) returns (es: seq<Event>)
    requires v < w < |cfg.workers| && cfg.workers[v] == cfg.workers[w]
    ensures DeliversUnexplained(cfg, es, 0)
  {
    var y;
    es, y := SentBesideAdmitted(cfg, v, w);
    es, y := SecondSteps(cfg, es, y, v, w, (MarkedSent, Admitted), Sent, [Accepted]);
    es, y := SecondSteps(cfg, es, y, v, w, (MarkedSent, Sending), Processing, [Accepted]);
    TwoSuccesses();
  }

  // ---------------------------------------------------------------- main results

  /** Some event of some run turns SENT into something else. */
  ghost predicate CanOverwriteSent(cfg: Config) {
    exists es: seq<Event>, e: Event, id: Id :: OverwritesSent(cfg, es, e, id)
  }

  ghost predicate OverwritesSent(cfg: Config, es: seq<Event>, e: Event, id: Id) {
    && Play(cfg, es).Some? && CanOccur(cfg, Play(cfg, es).value, e)
    && IsSent(Play(cfg, es).value.core, id) && !IsSent(Occur(cfg, Play(cfg, es).value, e).core, id)
  }

  /** Some run has the provider accept a notification more often than its crashes explain. */
  ghost predicate CanDeliverUnexplained(cfg: Config) {
    exists es: seq<Event>, id: Id :: DeliversUnexplained(cfg, es, id)
  }

  ghost predicate DeliversUnexplained(cfg: Config, es: seq<Event>, id: Id) {
    && Play(cfg, es).Some?
    && var tally := TallyOf(Play(cfg, es).value.core, id);
    Successes(tally.outcomes) > 1 + tally.lostSuccesses
  }

  /** The exact condition: SENT can be overwritten if and only if two workers consume the same channel. */
  lemma SentOverwrittenIffShared(cfg: Config)
    ensures CanOverwriteSent(cfg) <==> Shared(cfg)
  {
    if Shared(cfg) {
      var v, w :| 0 <= v < w < |cfg.workers| && cfg.workers[v] == cfg.workers[w];
      var es, y := SentBesideAdmitted(cfg, v, w);
      var es', y' := SecondSteps(cfg, es, y, v, w, (MarkedSent, Admitted), Sent, [Accepted]);
      assert OverwritesSent(cfg, es, RunHandler(1, Accepted), 0);
    } else {
      forall es: seq<Event>, e: Event, id: Id ensures !OverwritesSent(cfg, es, e, id) {
        if OverwritesSent(cfg, es, e, id) {
          UnsharedSentIsFinal(cfg, es, e, id);
        }
      }
    }
  }

  /** The same condition decides whether duplicates can go beyond one per crash in the success window. */
  lemma UnexplainedDeliveryIffShared(cfg: Config)
    ensures CanDeliverUnexplained(cfg) <==> Shared(cfg)
  {
    if Shared(cfg) {
      var v, w :| 0 <= v < w < |cfg.workers| && cfg.workers[v] == cfg.workers[w];
      var es := SecondSuccess(cfg, v, w);
    } else {
      forall es: seq<Event>, id: Id ensures !DeliversUnexplained(cfg, es, id) {
        if DeliversUnexplained(cfg, es, id) {
          UnsharedSuccessesAtMost(cfg, es, id);
        }
      }
    }
  }

  /** In the configuration's own terms: with WorkerPool's workers, exactly from two workers per channel on. */
  lemma SentOverwrittenIffTwoPerChannel(cfg: Config, workersPerChannel: int)
    requires cfg.workers == Service.Pool(3, workersPerChannel)
    ensures CanOverwriteSent(cfg) <==> workersPerChannel >= 2
    ensures CanDeliverUnexplained(cfg) <==> workersPerChannel >= 2
  {
    SentOverwrittenIffShared(cfg);
    UnexplainedDeliveryIffShared(cfg);
    PoolSharedIff(cfg, workersPerChannel);
  }

  lemma PoolSharedIff(cfg: Config, n: int)
    requires cfg.workers == Service.Pool(3, n)
    ensures Shared(cfg) <==> n >= 2
  {
    Service.PoolLayout(n);
    if n >= 2 {
      assert cfg.workers[0] == cfg.workers[1];
    }
  }
}
