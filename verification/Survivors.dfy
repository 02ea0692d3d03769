/**
 Handlers that outlive their connection. When a worker's connection dies and its process does not, the broker takes
 the worker's deliveries back while the thread goes on with the calls it has, writing to the database and publishing
 into a dead socket; `run` never reconnects, so the worker takes nothing more until its process is restarted.

 The row, key and trail guarantees of the other modules survive this. The no-loss guarantee does not: a surviving
 handler can overwrite the final status of a notification whose messages are all gone, and it can do so exactly when
 another worker consumes the same channel.
 */
module Survivors {
  import opened Domain
  import opened Protocol
  import opened Agreement
  import opened Convergence
  import opened AuditTrail
  import opened DuplicateDelivery
  import opened LosingRuns
  import opened Wire
  import opened SharedChannel
  import opened Submission

  /** `survivors` maps (worker, delivery) to the handling that goes on; `down` are the workers without a connection. */
  datatype Plant = Plant(sys: System, survivors: map<(nat, nat), Copy>, down: set<nat>)

  datatype Happening =
    | Usual(event: Event)                     // Lose ends the worker's process, which starts again
    | Cut(worker: nat)                         // the connection dies, the process lives on
    | Survive(handling: (nat, nat), outcome: Outcome)

  /** The database as a surviving handling sees it, with nothing but its own delivery. */
  ghost function Apart(p: Plant, k: (nat, nat)): State
    requires k in p.survivors
  {
    p.sys.core.(copies := [p.survivors[k]])
  }

  ghost predicate CanHappen(cfg: Config, p: Plant, h: Happening) {
    match h
    case Usual(e) => CanOccur(cfg, p.sys, e) && (e.Take? ==> e.worker !in p.down)
    case Cut(w) => w < |p.sys.sockets| && w !in p.down
    case Survive(k, o) =>
      && k in p.survivors && Enabled(cfg, Apart(p, k), Handle(0, o))
      && forall l :: l in p.survivors && l.0 == k.0 && l != k ==> !InProgress(p.survivors[l])
  }

  /** What worker `w`'s thread has at hand: calls begun, and messages already received. */
  ghost function AtHand(copies: seq<Copy>, w: nat): map<(nat, nat), Copy> {
    map t: nat | t < |copies| && HeldBy(copies[t], w) && !copies[t].place.pc.Done? :: (w, t) := copies[t]
  }

  ghost function Happen(cfg: Config, p: Plant, h: Happening): Plant
    requires CanHappen(cfg, p, h)
  {
    match h
    case Usual(e) =>
      if e.Lose?
      then Plant(Occur(cfg, p.sys, e),
                 map k | k in p.survivors && k.0 != e.worker :: p.survivors[k],
                 p.down - {e.worker})
      else p.(sys := Occur(cfg, p.sys, e))
    case Cut(w) => Plant(Occur(cfg, p.sys, Lose(w)), p.survivors + AtHand(p.sys.core.copies, w), p.down + {w})
    case Survive(k, o) =>
      var s := HandleStep(cfg, Apart(p, k), 0, o);
      Plant(p.sys.(core := s.(copies := p.sys.core.copies)), p.survivors[k := s.copies[0]], p.down)
  }

  ghost function Operate(cfg: Config, hs: seq<Happening>): Option<Plant> {
    if hs == [] then Some(Plant(Boot(cfg), map[], {}))
    else
      var p := Operate(cfg, hs[..|hs| - 1]);
      if p.Some? && CanHappen(cfg, p.value, hs[|hs| - 1]) then Some(Happen(cfg, p.value, hs[|hs| - 1])) else None
  }

  // ---------------------------------------------------------------- what survives: rows and trail

  /** Nothing that a copy relies on was taken away. */
  ghost predicate Grown(s: State, s': State) {
    RowsKept(s.rows, s'.rows) && s.attempts.Keys <= s'.attempts.Keys && s.now <= s'.now
  }

  lemma StepGrows(cfg: Config, s: State, a: Action)
    requires Enabled(cfg, s, a)
    ensures Grown(s, Apply(cfg, s, a))
  {
    StepKeepsRows(cfg, s, a);
    AttemptsGrow(cfg, s, a);
    NowGrows(cfg, s, a);
  }

  lemma GrownTrans(s: State, m: State, s': State)
    requires Grown(s, m) && Grown(m, s')
    ensures Grown(s, s')
  {
    forall id | id in s.rows
      ensures id in s'.rows && s'.rows[id].key == s.rows[id].key && s'.rows[id].channel == s.rows[id].channel
              && s'.rows[id].priority == s.rows[id].priority && s'.rows[id].attemptCount >= s.rows[id].attemptCount
    {
      assert id in m.rows;
    }
  }

  ghost predicate Sane(cfg: Config, s: State) {
    Agreed(cfg, s) && Trail(cfg, s)
  }

  lemma {:induction false} ExecSane(cfg: Config, s: State, acts: seq<Action>)
    requires Sane(cfg, s) && Exec(cfg, s, acts).Some?
    ensures Sane(cfg, Exec(cfg, s, acts).value) && Grown(s, Exec(cfg, s, acts).value)
  {
    if acts != [] {
      var n := |acts| - 1;
      LastStep(cfg, s, acts);
      ExecSane(cfg, s, acts[..n]);
      var m := Exec(cfg, s, acts[..n]).value;
      TrailStep(cfg, m, acts[n]);
      StepGrows(cfg, m, acts[n]);
      GrownTrans(s, m, Apply(cfg, m, acts[n]));
    }
  }

  /** A copy that was right stays right while the database grows. */
  ghost predicate Right(cfg: Config, s: State, c: Copy) {
    CopyOk(cfg, s, c) && CopyTrail(s, c)
  }

  lemma StaysRight(cfg: Config, s: State, s': State, c: Copy)
    requires Right(cfg, s, c) && Grown(s, s')
    ensures Right(cfg, s', c)
  {
    StillMatches(cfg, s, s', c);
  }

  /** Whatever copies the state shows, the rows and the trail are the same. */
  lemma SaneWith(cfg: Config, s: State, copies: seq<Copy>)
    requires Sane(cfg, s) && forall t :: 0 <= t < |copies| ==> Right(cfg, s, copies[t])
    ensures Sane(cfg, s.(copies := copies))
  {
    var s' := s.(copies := copies);
    forall t | 0 <= t < |copies| ensures CopyOk(cfg, s', copies[t]) && CopyTrail(s', copies[t]) {
      assert Right(cfg, s, copies[t]);
    }
    assert Agreed(cfg, s');
    forall k | k in s'.attempts ensures RowTrail(cfg, s', k) {
      assert RowTrail(cfg, s, k);
    }
  }

  ghost predicate PlantSane(cfg: Config, p: Plant) {
    && Sane(cfg, p.sys.core) && Wired(cfg, p.sys)
    && forall k :: k in p.survivors ==>
         && p.survivors[k].place.Unacked? && p.survivors[k].place.worker == k.0 && k.0 in p.down
         && Right(cfg, p.sys.core, p.survivors[k])
  }

  /** The handling's own view of its statement is a step of Protocol. */
  lemma ApartSane(cfg: Config, p: Plant, k: (nat, nat), o: Outcome)
    requires PlantSane(cfg, p) && k in p.survivors && Enabled(cfg, Apart(p, k), Handle(0, o))
    ensures var s' := HandleStep(cfg, Apart(p, k), 0, o);
            && Sane(cfg, s') && Grown(p.sys.core, s') && |s'.copies| == 1 && Right(cfg, s', s'.copies[0])
            && s'.copies[0].place.Unacked? && s'.copies[0].place.worker == p.survivors[k].place.worker
  {
    var s := Apart(p, k);
    SaneWith(cfg, p.sys.core, [p.survivors[k]]);
    TrailStep(cfg, s, Handle(0, o));
    StepGrows(cfg, s, Handle(0, o));
    assert Right(cfg, Apply(cfg, s, Handle(0, o)), Apply(cfg, s, Handle(0, o)).copies[0]);
  }

  /** So is the database that the handling leaves to the others. */
  lemma SurviveCoreSane(cfg: Config, p: Plant, k: (nat, nat), o: Outcome)
    requires PlantSane(cfg, p) && CanHappen(cfg, p, Survive(k, o))
    ensures var p' := Happen(cfg, p, Survive(k, o));
            && Sane(cfg, p'.sys.core) && Grown(p.sys.core, p'.sys.core)
            && p'.survivors == p.survivors[k := p'.survivors[k]] && Right(cfg, p'.sys.core, p'.survivors[k])
            && p'.survivors[k].place.Unacked? && p'.survivors[k].place.worker == k.0
  {
    var p' := Happen(cfg, p, Survive(k, o));
    var s' := HandleStep(cfg, Apart(p, k), 0, o);
    ApartSane(cfg, p, k, o);
    forall t | 0 <= t < |p.sys.core.copies| ensures Right(cfg, s', p.sys.core.copies[t]) {
      StaysRight(cfg, p.sys.core, s', p.sys.core.copies[t]);
    }
    SaneWith(cfg, s', p.sys.core.copies);
    StaysRight(cfg, s', p'.sys.core, p'.survivors[k]);
  }

  lemma SurviveKeepsWired(cfg: Config, p: Plant, k: (nat, nat), o: Outcome)
    requires Wired(cfg, p.sys) && CanHappen(cfg, p, Survive(k, o))
    ensures Wired(cfg, Happen(cfg, p, Survive(k, o)).sys) && Happen(cfg, p, Survive(k, o)).down == p.down
  {
  }

  lemma SurviveSane(cfg: Config, p: Plant, k: (nat, nat), o: Outcome)
    requires PlantSane(cfg, p) && CanHappen(cfg, p, Survive(k, o))
    ensures PlantSane(cfg, Happen(cfg, p, Survive(k, o)))
  {
    var p' := Happen(cfg, p, Survive(k, o));
    SurviveCoreSane(cfg, p, k, o);
    SurviveKeepsWired(cfg, p, k, o);
    forall l | l in p'.survivors ensures Right(cfg, p'.sys.core, p'.survivors[l]) {
      if l != k {
        StaysRight(cfg, p.sys.core, p'.sys.core, p.survivors[l]);
      }
    }
  }

  lemma EventSane(cfg: Config, y: System, e: Event)
    requires Sane(cfg, y.core) && Wired(cfg, y) && CanOccur(cfg, y, e)
    ensures Sane(cfg, Occur(cfg, y, e).core) && Wired(cfg, Occur(cfg, y, e)) && Grown(y.core, Occur(cfg, y, e).core)
  {
    EventRefines(cfg, y, e);
    StaysWired(cfg, y, e);
    ExecSane(cfg, y.core, Meaning(y, e));
  }

  /** Every survivor was one before, or has just lost its delivery. */
  lemma SurvivorSource(cfg: Config, p: Plant, h: Happening, k: (nat, nat))
    requires PlantSane(cfg, p) && CanHappen(cfg, p, h) && !h.Survive? && k in Happen(cfg, p, h).survivors
    ensures var c := Happen(cfg, p, h).survivors[k];
            && c.place.Unacked? && c.place.worker == k.0 && k.0 in Happen(cfg, p, h).down
            && Right(cfg, p.sys.core, c)
  {
    if h.Cut? && k in AtHand(p.sys.core.copies, h.worker) {
      assert Right(cfg, p.sys.core, p.sys.core.copies[k.1]);
    }
  }

  lemma HappenSane(cfg: Config, p: Plant, h: Happening)
    requires PlantSane(cfg, p) && CanHappen(cfg, p, h)
    ensures PlantSane(cfg, Happen(cfg, p, h))
  {
    if h.Survive? {
      SurviveSane(cfg, p, h.handling, h.outcome);
    } else {
      var p' := Happen(cfg, p, h);
      EventSane(cfg, p.sys, if h.Cut? then Lose(h.worker) else h.event);
      forall k | k in p'.survivors
        ensures p'.survivors[k].place.Unacked? && p'.survivors[k].place.worker == k.0 && k.0 in p'.down
        ensures Right(cfg, p'.sys.core, p'.survivors[k])
      {
        SurvivorSource(cfg, p, h, k);
        StaysRight(cfg, p.sys.core, p'.sys.core, p'.survivors[k]);
      }
    }
  }

  lemma {:induction false} OperateSane(cfg: Config, hs: seq<Happening>)
    requires Operate(cfg, hs).Some?
    ensures PlantSane(cfg, Operate(cfg, hs).value)
  {
    if hs != [] {
      OperateSane(cfg, hs[..|hs| - 1]);
      HappenSane(cfg, Operate(cfg, hs[..|hs| - 1]).value, hs[|hs| - 1]);
    }
  }

  /**
   Surviving handlers or not: messages agree with rows, recorded attempts are 1..r with r at most maxRetries + 1 and
   attempt_count + 1, every message at attempt k has rows 1..k-1, every dead-lettered message has its row.
   */
  lemma TrailSurvives(cfg: Config, hs: seq<Happening>, id: Id) returns (r: nat)
    requires Operate(cfg, hs).Some? && id in Operate(cfg, hs).value.sys.core.rows
    ensures Agreed(cfg, Operate(cfg, hs).value.sys.core) && GapFree(cfg, Operate(cfg, hs).value.sys.core, id, r)
  {
    OperateSane(cfg, hs);
    r := TrailIsGapFree(cfg, Operate(cfg, hs).value.sys.core, id);
  }

  // ---------------------------------------------------------------- what survives: keys and the outbox

  ghost predicate Submitted(s: State) {
    OneRowPerKey(s) && OneEventPerRow(s)
  }

  lemma {:induction false} ExecSubmitted(cfg: Config, s: State, acts: seq<Action>)
    requires Submitted(s) && Exec(cfg, s, acts).Some?
    ensures Submitted(Exec(cfg, s, acts).value)
  {
    if acts != [] {
      var n := |acts| - 1;
      LastStep(cfg, s, acts);
      ExecSubmitted(cfg, s, acts[..n]);
      SubmissionStep(cfg, Exec(cfg, s, acts[..n]).value, acts[n]);
    }
  }

  lemma SurviveSubmitted(cfg: Config, p: Plant, k: (nat, nat), o: Outcome)
    requires Submitted(p.sys.core) && CanHappen(cfg, p, Survive(k, o))
    ensures Submitted(Happen(cfg, p, Survive(k, o)).sys.core)
  {
    var s, s' := p.sys.core, Happen(cfg, p, Survive(k, o)).sys.core;
    assert s'.outbox == s.outbox && s'.rows.Keys == s.rows.Keys;
    assert forall id :: id in s.rows ==> s'.rows[id].key == s.rows[id].key;
    forall id | id in s'.rows ensures HasEvent(s', id) {
      assert HasEvent(s, id);
      var e :| 0 <= e < |s.outbox| && s.outbox[e].notification == id;
      assert s'.outbox[e].notification == id;
    }
  }

  /** One row per key, one outbox event per row and one answer per key, with surviving handlers too. */
  lemma {:induction false} SubmissionSurvives(cfg: Config, hs: seq<Happening>)
    requires Operate(cfg, hs).Some?
    ensures var s := Operate(cfg, hs).value.sys.core;
            OneRowPerKey(s) && OneEventPerRow(s) && SameAnswerPerKey(s)
  {
    OperateSane(cfg, hs);
    if hs != [] {
      var p, h := Operate(cfg, hs[..|hs| - 1]).value, hs[|hs| - 1];
      SubmissionSurvives(cfg, hs[..|hs| - 1]);
      OperateSane(cfg, hs[..|hs| - 1]);
      if h.Survive? {
        SurviveSubmitted(cfg, p, h.handling, h.outcome);
      } else {
        var e := if h.Cut? then Lose(h.worker) else h.event;
        EventRefines(cfg, p.sys, e);
        ExecSubmitted(cfg, p.sys.core, Meaning(p.sys, e));
      }
    }
    AnswersAgree(cfg, Operate(cfg, hs).value.sys.core);
  }

  // ---------------------------------------------------------------- one worker per channel

  /** The message of a surviving handling is back in its queue and waits for the worker's restart. */
  ghost predicate Anchored(s: State, id: Id) {
    exists t :: 0 <= t < |s.copies| && s.copies[t].body.id == id && s.copies[t].place.Main?
  }

  ghost predicate Sheltered(p: Plant) {
    && NothingLost(p.sys.core)
    && (forall k :: k in p.survivors ==> Anchored(p.sys.core, p.survivors[k].body.id))
    && DownIdle(p)
  }

  /** A worker without a connection holds no delivery. */
  ghost predicate DownIdle(p: Plant) {
    forall t, w :: 0 <= t < |p.sys.core.copies| && w in p.down ==> !HeldBy(p.sys.core.copies[t], w)
  }

  lemma {:induction false} ExecNothingLost(cfg: Config, s: State, acts: seq<Action>)
    requires LadderCoversRetries(cfg) && Agreed(cfg, s) && NothingLost(s) && Exec(cfg, s, acts).Some?
    ensures Agreed(cfg, Exec(cfg, s, acts).value) && NothingLost(Exec(cfg, s, acts).value)
  {
    if acts != [] {
      var n := |acts| - 1;
      LastStep(cfg, s, acts);
      ExecNothingLost(cfg, s, acts[..n]);
      NothingLostStep(cfg, Exec(cfg, s, acts[..n]).value, acts[n]);
      AgreedStep(cfg, Exec(cfg, s, acts[..n]).value, acts[n]);
    }
  }

  /** A queued message stays where it is until a worker takes it. */
  lemma QueuedStays(cfg: Config, y: System, e: Event, t: nat)
    requires Agreed(cfg, y.core) && Wired(cfg, y) && CanOccur(cfg, y, e)
    requires t < |y.core.copies| && y.core.copies[t].place.Main? && !(e.Take? && e.copy == t)
    ensures t < |Occur(cfg, y, e).core.copies| && Occur(cfg, y, e).core.copies[t] == y.core.copies[t]
  {
    if e.Outside? {
      OuterKeepsQueued(cfg, y.core, e.action, t);
    } else if e.Send? {
      SendKeepsQueued(cfg, y, e.worker, t);
    } else if e.Lose? {
      RequeueAllCopies(y.core, e.worker, |y.core.copies|);
    }
  }

  lemma SendKeepsQueued(cfg: Config, y: System, w: nat, t: nat)
    requires Agreed(cfg, y.core) && Wired(cfg, y) && CanOccur(cfg, y, Send(w))
    requires t < |y.core.copies| && y.core.copies[t].place.Main?
    ensures t < |Occur(cfg, y, Send(w)).core.copies| && Occur(cfg, y, Send(w)).core.copies[t] == y.core.copies[t]
  {
    HeadIsNext(cfg, y, w);
    FlushShapes(cfg, y.core, y.sockets[w][0].copy);
  }

  lemma OuterKeepsQueued(cfg: Config, s: State, a: Action, t: nat)
    requires Enabled(cfg, s, a) && Outer(a) && t < |s.copies| && s.copies[t].place.Main?
    ensures t < |Apply(cfg, s, a).copies| && Apply(cfg, s, a).copies[t] == s.copies[t]
  {
  }

  /** The one worker that could take the message is down. */
  lemma NobodyTakes(cfg: Config, p: Plant, t: nat, v: nat, w: nat)
    requires !Shared(cfg) && t < |p.sys.core.copies| && w in p.down && w < |cfg.workers|
    requires p.sys.core.copies[t].channel == cfg.workers[w]
    ensures !CanHappen(cfg, p, Usual(Take(t, v)))
  {
  }

  lemma SameChannel(cfg: Config, s: State, c: Copy, d: Copy)
    requires CopyOk(cfg, s, c) && CopyOk(cfg, s, d) && c.body.id == d.body.id && c.place.Unacked?
    ensures c.place.worker < |cfg.workers| && cfg.workers[c.place.worker] == d.channel
  {
  }

  lemma AnchorHolds(cfg: Config, p: Plant, e: Event, k: (nat, nat))
    requires !Shared(cfg) && PlantSane(cfg, p) && Sheltered(p) && CanHappen(cfg, p, Usual(e)) && k in p.survivors
    ensures Anchored(Occur(cfg, p.sys, e).core, p.survivors[k].body.id)
  {
    var s := p.sys.core;
    var t :| 0 <= t < |s.copies| && s.copies[t].body.id == p.survivors[k].body.id && s.copies[t].place.Main?;
    SameChannel(cfg, s, p.survivors[k], s.copies[t]);
    if e.Take? {
      NobodyTakes(cfg, p, t, e.worker, k.0);
    }
    QueuedStays(cfg, p.sys, e, t);
  }

  /** Nobody but a worker with a connection takes messages. */
  lemma DownHoldNothing(cfg: Config, p: Plant, e: Event, t: nat, w: nat)
    requires PlantSane(cfg, p) && DownIdle(p) && CanHappen(cfg, p, Usual(e)) && w in p.down
    requires t < |Occur(cfg, p.sys, e).core.copies|
    ensures !HeldBy(Occur(cfg, p.sys, e).core.copies[t], w)
  {
    if !e.Take? {
      OthersTakeNone(cfg, p.sys, e);
    }
  }

  lemma NormalSheltered(cfg: Config, p: Plant, e: Event)
    requires LadderCoversRetries(cfg) && !Shared(cfg)
    requires PlantSane(cfg, p) && Sheltered(p) && CanHappen(cfg, p, Usual(e))
    ensures Sheltered(Happen(cfg, p, Usual(e)))
  {
    var p' := Happen(cfg, p, Usual(e));
    EventRefines(cfg, p.sys, e);
    ExecNothingLost(cfg, p.sys.core, Meaning(p.sys, e));
    forall k | k in p'.survivors ensures Anchored(p'.sys.core, p'.survivors[k].body.id) {
      AnchorHolds(cfg, p, e, k);
    }
    forall t, w | 0 <= t < |p'.sys.core.copies| && w in p'.down ensures !HeldBy(p'.sys.core.copies[t], w) {
      DownHoldNothing(cfg, p, e, t, w);
    }
  }

  lemma CutQueues(cfg: Config, y: System, w: nat, t: nat)
    requires CanOccur(cfg, y, Lose(w)) && t < |y.core.copies| && HeldBy(y.core.copies[t], w)
    ensures Anchored(Occur(cfg, y, Lose(w)).core, y.core.copies[t].body.id)
  {
    RequeueAllCopies(y.core, w, |y.core.copies|);
    assert Occur(cfg, y, Lose(w)).core.copies[t].place.Main?;
  }

  lemma CutAnchors(cfg: Config, p: Plant, w: nat, k: (nat, nat))
    requires !Shared(cfg) && PlantSane(cfg, p) && Sheltered(p) && CanHappen(cfg, p, Cut(w))
    requires k in Happen(cfg, p, Cut(w)).survivors
    ensures Anchored(Occur(cfg, p.sys, Lose(w)).core, Happen(cfg, p, Cut(w)).survivors[k].body.id)
  {
    if k in AtHand(p.sys.core.copies, w) {
      CutQueues(cfg, p.sys, w, k.1);
    } else {
      AnchorHolds(cfg, p, Lose(w), k);
    }
  }

  lemma CutFrees(cfg: Config, p: Plant, w: nat)
    requires DownIdle(p) && CanHappen(cfg, p, Cut(w))
    ensures forall t, v :: 0 <= t < |p.sys.core.copies| && v in p.down + {w} ==>
              !HeldBy(Occur(cfg, p.sys, Lose(w)).core.copies[t], v)
  {
    RequeueAllCopies(p.sys.core, w, |p.sys.core.copies|);
  }

  lemma CutSheltered(cfg: Config, p: Plant, w: nat)
    requires LadderCoversRetries(cfg) && !Shared(cfg)
    requires PlantSane(cfg, p) && Sheltered(p) && CanHappen(cfg, p, Cut(w))
    ensures Sheltered(Happen(cfg, p, Cut(w)))
  {
    var p' := Happen(cfg, p, Cut(w));
    EventRefines(cfg, p.sys, Lose(w));
    ExecNothingLost(cfg, p.sys.core, Meaning(p.sys, Lose(w)));
    forall k | k in p'.survivors ensures Anchored(p'.sys.core, p'.survivors[k].body.id) {
      CutAnchors(cfg, p, w, k);
    }
    CutFrees(cfg, p, w);
  }

  /** A surviving handling changes one row and no message. */
  lemma SurviveChanges(cfg: Config, p: Plant, k: (nat, nat), o: Outcome)
    requires PlantSane(cfg, p) && CanHappen(cfg, p, Survive(k, o)) && NothingLost(p.sys.core)
    ensures var s, s', mine := p.sys.core, Happen(cfg, p, Survive(k, o)).sys.core, p.survivors[k].body.id;
            && s'.copies == s.copies && mine in s.rows
            && s'.rows.Keys == s.rows.Keys
            && (forall id :: id in s.rows && id != mine ==> s'.rows[id] == s.rows[id])
            && LiveStatus(s'.rows[mine].status)
            && (forall id :: TallyOf(s', id).published == TallyOf(s, id).published)
    ensures Happen(cfg, p, Survive(k, o)).survivors.Keys == p.survivors.Keys
    ensures forall l :: l in p.survivors ==> Happen(cfg, p, Survive(k, o)).survivors[l].body == p.survivors[l].body
  {
    assert Right(cfg, p.sys.core, p.survivors[k]);
  }

  /** With all else unchanged, a queued message makes up for any change of its own row. */
  lemma OneRowChanged(s: State, s': State, mine: Id)
    requires NothingLost(s) && Anchored(s, mine)
    requires s'.copies == s.copies && mine in s.rows && s'.rows.Keys == s.rows.Keys
    requires forall id :: id in s.rows && id != mine ==> s'.rows[id] == s.rows[id]
    requires LiveStatus(s'.rows[mine].status)
    requires forall id :: TallyOf(s', id).published == TallyOf(s, id).published
    ensures NothingLost(s')
  {
    forall id | id in s'.rows && TallyOf(s', id).published > 0 ensures Covered(s', id) {
      assert Covered(s, id);
      if id == mine {
        var t :| 0 <= t < |s.copies| && s.copies[t].body.id == mine && s.copies[t].place.Main?;
        assert Covers(s'.copies[t], id, s'.rows[id].status);
      } else if !s.rows[id].status.Sent? {
        var t :| 0 <= t < |s.copies| && Covers(s.copies[t], id, s.rows[id].status);
        assert Covers(s'.copies[t], id, s'.rows[id].status);
      }
    }
    forall t | 0 <= t < |s'.copies| && ParkedAndSent(s'.copies[t]) ensures InDlq(s', s'.copies[t].body.id) {
      assert InDlq(s, s.copies[t].body.id);
    }
  }

  lemma SurviveSheltered(cfg: Config, p: Plant, k: (nat, nat), o: Outcome)
    requires PlantSane(cfg, p) && Sheltered(p) && CanHappen(cfg, p, Survive(k, o))
    ensures Sheltered(Happen(cfg, p, Survive(k, o)))
  {
    var p' := Happen(cfg, p, Survive(k, o));
    SurviveChanges(cfg, p, k, o);
    OneRowChanged(p.sys.core, p'.sys.core, p.survivors[k].body.id);
    forall l | l in p'.survivors ensures Anchored(p'.sys.core, p'.survivors[l].body.id) {
      assert Anchored(p.sys.core, p.survivors[l].body.id);
    }
  }

  lemma {:induction false} OperateSheltered(cfg: Config, hs: seq<Happening>)
    requires LadderCoversRetries(cfg) && !Shared(cfg) && Operate(cfg, hs).Some?
    ensures Sheltered(Operate(cfg, hs).value)
  {
    if hs != [] {
      var p, h := Operate(cfg, hs[..|hs| - 1]).value, hs[|hs| - 1];
      OperateSheltered(cfg, hs[..|hs| - 1]);
      OperateSane(cfg, hs[..|hs| - 1]);
      match h
      case Usual(e) => NormalSheltered(cfg, p, e);
      case Cut(w) => CutSheltered(cfg, p, w);
      case Survive(k, o) => SurviveSheltered(cfg, p, k, o);
    }
  }

  // ---------------------------------------------------------------- one worker per channel: SENT

  /** No thread is inside two calls, with its connection or without. */
  ghost predicate OneCallEach(p: Plant) {
    && SingleThreaded(p.sys.core) && DownIdle(p)
    && forall k, l ::
         (k in p.survivors && l in p.survivors && k.0 == l.0
          && InProgress(p.survivors[k]) && InProgress(p.survivors[l])) ==> k == l
  }

  lemma OneCallEachStep(cfg: Config, p: Plant, h: Happening)
    requires PlantSane(cfg, p) && OneCallEach(p) && CanHappen(cfg, p, h)
    ensures OneCallEach(Happen(cfg, p, h))
  {
    var p' := Happen(cfg, p, h);
    match h
    case Usual(e) =>
      StaysSingleThreaded(cfg, p.sys, e);
      forall t, w | 0 <= t < |p'.sys.core.copies| && w in p'.down ensures !HeldBy(p'.sys.core.copies[t], w) {
        DownHoldNothing(cfg, p, e, t, w);
      }
    case Cut(w) =>
      StaysSingleThreaded(cfg, p.sys, Lose(w));
      CutFrees(cfg, p, w);
      CutOneCallEach(cfg, p, w);
    case Survive(k, o) =>
      assert p'.sys.core.copies == p.sys.core.copies;
      forall l | l in p.survivors ensures l != k ==> p'.survivors[l] == p.survivors[l] {}
  }

  lemma CutOneCallEach(cfg: Config, p: Plant, w: nat)
    requires PlantSane(cfg, p) && OneCallEach(p) && CanHappen(cfg, p, Cut(w))
    ensures var p' := Happen(cfg, p, Cut(w));
            forall k, l ::
              (k in p'.survivors && l in p'.survivors && k.0 == l.0
               && InProgress(p'.survivors[k]) && InProgress(p'.survivors[l])) ==> k == l
  {
    var p' := Happen(cfg, p, Cut(w));
    forall k, l | k in p'.survivors && l in p'.survivors && k.0 == l.0
                  && InProgress(p'.survivors[k]) && InProgress(p'.survivors[l])
      ensures k == l
    {
      if k.0 == w {
        assert k in AtHand(p.sys.core.copies, w) && l in AtHand(p.sys.core.copies, w);
      }
    }
  }

  ghost predicate NoneBusy(p: Plant, id: Id) {
    && (forall t :: 0 <= t < |p.sys.core.copies| ==> !Busy(p.sys.core.copies[t], id))
    && (forall k :: k in p.survivors ==> !Busy(p.survivors[k], id))
  }

  /** A row that is SENT is SENT for good: no handler still means to write its status. */
  ghost predicate QuietIfSent(p: Plant, id: Id) {
    IsSent(p.sys.core, id) ==> NoneBusy(p, id)
  }

  /** All busy handlers of a notification belong to the one thread of its channel. */
  lemma OneBusyCopy(cfg: Config, p: Plant, id: Id, t: nat)
    requires !Shared(cfg) && PlantSane(cfg, p) && OneCallEach(p)
    requires t < |p.sys.core.copies| && Busy(p.sys.core.copies[t], id)
    ensures forall x :: 0 <= x < |p.sys.core.copies| && x != t ==> !Busy(p.sys.core.copies[x], id)
    ensures forall k :: k in p.survivors ==> !Busy(p.survivors[k], id)
  {
    var s := p.sys.core;
    UnsharedNoOverlap(cfg, s, id);
    SameChannel(cfg, s, s.copies[t], s.copies[t]);
    assert s.copies[t].place.worker !in p.down by {
      assert HeldBy(s.copies[t], s.copies[t].place.worker);
    }
    forall k | k in p.survivors ensures !Busy(p.survivors[k], id) {
      if p.survivors[k].body.id == id {
        SameChannel(cfg, s, p.survivors[k], s.copies[t]);
      }
    }
  }

  lemma OneBusySurvivor(cfg: Config, p: Plant, id: Id, k: (nat, nat))
    requires !Shared(cfg) && PlantSane(cfg, p) && OneCallEach(p)
    requires k in p.survivors && Busy(p.survivors[k], id)
    ensures forall x :: 0 <= x < |p.sys.core.copies| ==> !Busy(p.sys.core.copies[x], id)
    ensures forall l :: l in p.survivors && l != k ==> !Busy(p.survivors[l], id)
  {
    var s := p.sys.core;
    forall x | 0 <= x < |s.copies| ensures !Busy(s.copies[x], id) {
      if Busy(s.copies[x], id) {
        OneBusyCopy(cfg, p, id, x);
      }
    }
    SameChannel(cfg, s, p.survivors[k], p.survivors[k]);
    forall l | l in p.survivors && l != k ensures !Busy(p.survivors[l], id) {
      if p.survivors[l].body.id == id {
        SameChannel(cfg, s, p.survivors[l], p.survivors[k]);
      }
    }
  }

  /** What one action can do to SENT and to the handlers that may end it. */
  lemma HandleAndSent(cfg: Config, s: State, t: nat, o: Outcome, id: Id)
    requires Enabled(cfg, s, Handle(t, o))
    ensures var s' := HandleStep(cfg, s, t, o);
            && (IsSent(s, id) && !IsSent(s', id) ==> Busy(s.copies[t], id))
            && (IsSent(s', id) && !IsSent(s, id) ==> Busy(s.copies[t], id) && !Busy(s'.copies[t], id))
            && (Busy(s'.copies[t], id) && !Busy(s.copies[t], id) ==> !IsSent(s, id) && !IsSent(s', id))
  {
  }

  lemma EventAndSent(cfg: Config, y: System, e: Event, id: Id)
    requires Agreed(cfg, y.core) && Wired(cfg, y) && CanOccur(cfg, y, e) && !e.RunHandler?
    ensures var s, s' := y.core, Occur(cfg, y, e).core;
            && IsSent(s', id) == IsSent(s, id)
            && forall t :: 0 <= t < |s'.copies| && Busy(s'.copies[t], id) ==> t < |s.copies| && Busy(s.copies[t], id)
  {
    if e.Lose? {
      RequeueAllCopies(y.core, e.worker, |y.core.copies|);
    } else {
      var a := Meaning(y, e)[0];
      if e.Send? {
        HeadIsNext(cfg, y, e.worker);
      }
      OtherKeepsHandlers(cfg, y.core, a, id);
      OtherKeepsRecords(cfg, y.core, a, id);
    }
  }

  lemma EventQuiet(cfg: Config, p: Plant, e: Event, id: Id)
    requires !Shared(cfg) && PlantSane(cfg, p) && OneCallEach(p) && QuietIfSent(p, id) && CanHappen(cfg, p, Usual(e))
    ensures QuietIfSent(Happen(cfg, p, Usual(e)), id)
    ensures IsSent(p.sys.core, id) ==> IsSent(Happen(cfg, p, Usual(e)).sys.core, id)
  {
    if e.RunHandler? {
      HandleAndSent(cfg, p.sys.core, e.copy, e.outcome, id);
      if Busy(p.sys.core.copies[e.copy], id) {
        OneBusyCopy(cfg, p, id, e.copy);
      }
    } else {
      EventAndSent(cfg, p.sys, e, id);
    }
  }

  lemma CutQuiet(cfg: Config, p: Plant, w: nat, id: Id)
    requires PlantSane(cfg, p) && QuietIfSent(p, id) && CanHappen(cfg, p, Cut(w))
    ensures QuietIfSent(Happen(cfg, p, Cut(w)), id)
    ensures IsSent(p.sys.core, id) ==> IsSent(Happen(cfg, p, Cut(w)).sys.core, id)
  {
    EventAndSent(cfg, p.sys, Lose(w), id);
  }

  lemma SurviveQuiet(cfg: Config, p: Plant, k: (nat, nat), o: Outcome, id: Id)
    requires !Shared(cfg) && PlantSane(cfg, p) && OneCallEach(p) && QuietIfSent(p, id)
    requires CanHappen(cfg, p, Survive(k, o))
    ensures QuietIfSent(Happen(cfg, p, Survive(k, o)), id)
    ensures IsSent(p.sys.core, id) ==> IsSent(Happen(cfg, p, Survive(k, o)).sys.core, id)
  {
    HandleAndSent(cfg, Apart(p, k), 0, o, id);
    if Busy(p.survivors[k], id) {
      OneBusySurvivor(cfg, p, id, k);
    }
  }

  lemma HappenQuiet(cfg: Config, p: Plant, h: Happening, id: Id)
    requires !Shared(cfg) && PlantSane(cfg, p) && OneCallEach(p) && QuietIfSent(p, id) && CanHappen(cfg, p, h)
    ensures QuietIfSent(Happen(cfg, p, h), id)
    ensures IsSent(p.sys.core, id) ==> IsSent(Happen(cfg, p, h).sys.core, id)
  {
    match h
    case Usual(e) => EventQuiet(cfg, p, e, id);
    case Cut(w) => CutQuiet(cfg, p, w, id);
    case Survive(k, o) => SurviveQuiet(cfg, p, k, o, id);
  }

  lemma {:induction false} OperateQuiet(cfg: Config, hs: seq<Happening>, id: Id)
    requires !Shared(cfg) && Operate(cfg, hs).Some?
    ensures PlantSane(cfg, Operate(cfg, hs).value) && OneCallEach(Operate(cfg, hs).value)
    ensures QuietIfSent(Operate(cfg, hs).value, id)
  {
    OperateSane(cfg, hs);
    if hs != [] {
      OperateQuiet(cfg, hs[..|hs| - 1], id);
      OneCallEachStep(cfg, Operate(cfg, hs[..|hs| - 1]).value, hs[|hs| - 1]);
      HappenQuiet(cfg, Operate(cfg, hs[..|hs| - 1]).value, hs[|hs| - 1], id);
    }
  }

  // ---------------------------------------------------------------- two workers on a channel

  ghost predicate Operates(cfg: Config, hs: seq<Happening>, p: Plant) {
    Operate(cfg, hs) == Some(p)
  }

  lemma OperateOn(cfg: Config, hs: seq<Happening>, p: Plant, h: Happening)
    requires Operates(cfg, hs, p) && CanHappen(cfg, p, h)
    ensures Operates(cfg, hs + [h], Happen(cfg, p, h))
  {
    assert (hs + [h])[..|hs + [h]| - 1] == hs;
  }

  function UsualRun(es: seq<Event>): seq<Happening> {
    if es == [] then [] else UsualRun(es[..|es| - 1]) + [Usual(es[|es| - 1])]
  }

  /** A run of Wire is a run here in which no handler survives its connection. */
  lemma {:induction false} PlayOperates(cfg: Config, es: seq<Event>, y: System)
    requires Plays(cfg, es, y)
    ensures Operates(cfg, UsualRun(es), Plant(y, map[], {}))
  {
    if es != [] {
      var e, before := es[|es| - 1], Play(cfg, es[..|es| - 1]).value;
      PlayOperates(cfg, es[..|es| - 1], before);
      OperateOn(cfg, UsualRun(es[..|es| - 1]), Plant(before, map[], {}), Usual(e));
      assert Happen(cfg, Plant(before, map[], {}), Usual(e)) == Plant(y, map[], {});
    }
  }

  /** Worker v's handling of notification 0 stands at `pc` without a connection; the message is at `place`. */
  ghost predicate Story(cfg: Config, p: Plant, v: nat, w: nat, pc: Pc, place: Place, status: Status) {
    && v < w < |cfg.workers| && |p.sys.sockets| == |cfg.workers| && p.down == {v}
    && p.survivors.Keys == {(v, 0)} && p.survivors[(v, 0)].body == Message(0, 1, 3)
    && p.survivors[(v, 0)].place.Unacked? && p.survivors[(v, 0)].place.worker == v && p.survivors[(v, 0)].place.pc == pc
    && |p.sys.core.copies| == 1 && p.sys.core.copies[0].body == Message(0, 1, 3)
    && p.sys.core.copies[0].channel == cfg.workers[w] && p.sys.core.copies[0].place == place
    && 0 in p.sys.core.rows && p.sys.core.rows[0].status == status && TallyOf(p.sys.core, 0).published > 0
  }

  lemma SurvivorSteps(cfg: Config, hs: seq<Happening>, p: Plant, v: nat, w: nat, pc: Pc, place: Place, status: Status,
                      o: Outcome) returns (hs': seq<Happening>, p': Plant)
    requires Operates(cfg, hs, p) && Story(cfg, p, v, w, pc, place, status) && !pc.Received? && !pc.Done?
    ensures Operates(cfg, hs', p')
    ensures Story(cfg, p', v, w, NextPc(cfg, map[], Message(0, 1, 3), pc, o), place, StatusAfter(pc, status))
  {
    OperateOn(cfg, hs, p, Survive((v, 0), o));
    hs', p' := hs + [Survive((v, 0), o)], Happen(cfg, p, Survive((v, 0), o));
  }

  lemma QuietStep(cfg: Config, y: System, w: nat, at: Pc)
    requires w < |y.sockets| && y.sockets[w] == [] && |y.core.copies| == 1 && 0 in y.core.rows
    requires y.core.copies[0].body == Message(0, 1, 3) && y.core.copies[0].place == Unacked(w, at, [])
    requires at in {Admitted, Sending, SendOk, RecordedOk, MarkedSent}
             || (at == Received && y.core.rows[0].status == Pending)
    ensures CanOccur(cfg, y, RunHandler(0, Accepted))
    ensures var y' := Occur(cfg, y, RunHandler(0, Accepted));
            && y'.sockets == y.sockets
            && y'.core.copies == y.core.copies[0 := y.core.copies[0].(place := Unacked(w, Delivering(at), []))]
            && 0 in y'.core.rows && y'.core.rows[0].status == StatusAfter(at, y.core.rows[0].status)
            && TallyOf(y'.core, 0).published == TallyOf(y.core, 0).published
  {
    assert y.sockets[w] + Tag(0, []) == y.sockets[w];
  }

  /** Worker w's statements of a successful handling, as far as they put nothing on the socket. */
  lemma WorkerSteps(cfg: Config, hs: seq<Happening>, p: Plant, v: nat, w: nat, at: Pc, status: Status)
    returns (hs': seq<Happening>, p': Plant)
    requires Operates(cfg, hs, p) && Story(cfg, p, v, w, Admitted, Unacked(w, at, []), status) && p.sys.sockets[w] == []
    requires at in {Admitted, Sending, SendOk, RecordedOk, MarkedSent} || (at == Received && status == Pending)
    ensures Operates(cfg, hs', p')
    ensures Story(cfg, p', v, w, Admitted, Unacked(w, Delivering(at), []), StatusAfter(at, status))
    ensures p'.sys.sockets[w] == []
  {
    QuietStep(cfg, p.sys, w, at);
    OperateOn(cfg, hs, p, Usual(RunHandler(0, Accepted)));
    hs', p' := hs + [Usual(RunHandler(0, Accepted))], Happen(cfg, p, Usual(RunHandler(0, Accepted)));
  }

  function Delivering(pc: Pc): Pc {
    if pc.MarkedSent? then ReadyToAck(Delivered) else Onward(pc)
  }

  /** How many statements are left until the ack. */
  function Left(pc: Pc): nat {
    match pc
    case Received => 6
    case Admitted => 5
    case Sending => 4
    case SendOk => 3
    case RecordedOk => 2
    case MarkedSent => 1
    case _ => 0
  }

  lemma {:induction false} WorkerWalks(cfg: Config, hs: seq<Happening>, p: Plant, v: nat, w: nat, at: Pc,
                                       status: Status)
    returns (hs': seq<Happening>, p': Plant)
    requires Operates(cfg, hs, p) && Story(cfg, p, v, w, Admitted, Unacked(w, at, []), status) && p.sys.sockets[w] == []
    requires at in {Admitted, Sending, SendOk, RecordedOk} || (at == Received && status == Pending)
             || (at in {MarkedSent, ReadyToAck(Delivered)} && status == Sent)
    ensures Operates(cfg, hs', p')
    ensures Story(cfg, p', v, w, Admitted, Unacked(w, ReadyToAck(Delivered), []), Sent)
    ensures p'.sys.sockets[w] == []
    decreases Left(at)
  {
    if at.ReadyToAck? {
      hs', p' := hs, p;
    } else {
      hs', p' := WorkerSteps(cfg, hs, p, v, w, at, status);
      hs', p' := WorkerWalks(cfg, hs', p', v, w, Delivering(at), StatusAfter(at, status));
    }
  }

  /** Worker v passes the status test. */
  lemma PassesTest(cfg: Config, v: nat) returns (es: seq<Event>, y: System)
    requires v < |cfg.workers|
    ensures Plays(cfg, es, y) && y.sockets == Boot(cfg).sockets
    ensures |y.core.copies| == 1 && y.core.copies[0].body == Message(0, 1, 3)
    ensures y.core.copies[0].place == Unacked(v, Admitted, []) && y.core.copies[0].channel == cfg.workers[v]
    ensures 0 in y.core.rows && y.core.rows[0].status == Pending && TallyOf(y.core, 0).published > 0
    ensures TallyOf(y.core, 0).outcomes == [] && TallyOf(y.core, 0).lostSuccesses == 0
  {
    var acts, s := Submits(cfg, cfg.workers[v]);
    es := OutsidePlays(cfg, acts, s);
    y := System(s, Boot(cfg).sockets);
    NoneHeld(y.core.copies, v);
    PlayOn(cfg, es, y, Take(0, v));
    es, y := es + [Take(0, v)], Occur(cfg, y, Take(0, v));
    PlayOn(cfg, es, y, RunHandler(0, Accepted));
    es, y := es + [RunHandler(0, Accepted)], Occur(cfg, y, RunHandler(0, Accepted));
    assert Boot(cfg).sockets[v] + Tag(0, []) == [];
    assert y.sockets == Boot(cfg).sockets;
  }

  lemma CutTells(cfg: Config, y: System, v: nat, w: nat)
    requires v < w < |cfg.workers| && cfg.workers[v] == cfg.workers[w] && y.sockets == Boot(cfg).sockets
    requires |y.core.copies| == 1 && y.core.copies[0].body == Message(0, 1, 3)
    requires y.core.copies[0].place == Unacked(v, Admitted, []) && y.core.copies[0].channel == cfg.workers[v]
    requires 0 in y.core.rows && y.core.rows[0].status == Pending && TallyOf(y.core, 0).published > 0
    ensures CanHappen(cfg, Plant(y, map[], {}), Cut(v))
    ensures Story(cfg, Happen(cfg, Plant(y, map[], {}), Cut(v)), v, w, Admitted, Main, Pending)
    ensures Happen(cfg, Plant(y, map[], {}), Cut(v)).sys.sockets[w] == []
  {
    RequeueAllCopies(y.core, v, 1);
    assert RequeueAll(y.core, v, 0) == y.core;
  }

  /** Worker v passes the status test and loses its connection. */
  lemma CutOff(cfg: Config, v: nat, w: nat) returns (hs: seq<Happening>, p: Plant)
    requires v < w < |cfg.workers| && cfg.workers[v] == cfg.workers[w]
    ensures Operates(cfg, hs, p) && Story(cfg, p, v, w, Admitted, Main, Pending)
    ensures p.sys.sockets[w] == []
  {
    var es, y := PassesTest(cfg, v);
    PlayOperates(cfg, es, y);
    CutTells(cfg, y, v, w);
    OperateOn(cfg, UsualRun(es), Plant(y, map[], {}), Cut(v));
    hs, p := UsualRun(es) + [Cut(v)], Happen(cfg, Plant(y, map[], {}), Cut(v));
  }

  /** And worker w gets the message. */
  lemma CutAfterTest(cfg: Config, v: nat, w: nat) returns (hs: seq<Happening>, p: Plant)
    requires v < w < |cfg.workers| && cfg.workers[v] == cfg.workers[w]
    ensures Operates(cfg, hs, p)
    ensures Story(cfg, p, v, w, Admitted, Unacked(w, Received, []), Pending)
    ensures p.sys.sockets[w] == []
  {
    hs, p := CutOff(cfg, v, w);
    NoneHeld(p.sys.core.copies, w);
    OperateOn(cfg, hs, p, Usual(Take(0, w)));
    hs, p := hs + [Usual(Take(0, w))], Happen(cfg, p, Usual(Take(0, w)));
  }

  lemma AckIssued(cfg: Config, y: System, w: nat)
    requires w < |y.sockets| && y.sockets[w] == [] && |y.core.copies| == 1
    requires y.core.copies[0].place == Unacked(w, ReadyToAck(Delivered), [])
    ensures CanOccur(cfg, y, RunHandler(0, Accepted))
    ensures var y' := Occur(cfg, y, RunHandler(0, Accepted));
            && y'.sockets == y.sockets[w := [Queued(0, Ack)]]
            && y'.core.copies == y.core.copies[0 := y.core.copies[0].(place := Unacked(w, Done(Delivered), [Ack]))]
            && y'.core.rows == y.core.rows && TallyOf(y'.core, 0).published == TallyOf(y.core, 0).published
  {
    assert Tag(0, [Ack]) == [Queued(0, Ack)];
    assert y.sockets[w] + Tag(0, [Ack]) == [Queued(0, Ack)];
    assert [] + [Ack] == [Ack];
  }

  lemma CallsAck(cfg: Config, hs: seq<Happening>, p: Plant, v: nat, w: nat) returns (hs': seq<Happening>, p': Plant)
    requires Operates(cfg, hs, p)
    requires Story(cfg, p, v, w, Admitted, Unacked(w, ReadyToAck(Delivered), []), Sent) && p.sys.sockets[w] == []
    ensures Operates(cfg, hs', p') && Story(cfg, p', v, w, Admitted, Unacked(w, Done(Delivered), [Ack]), Sent)
    ensures p'.sys.sockets[w] == [Queued(0, Ack)]
  {
    AckIssued(cfg, p.sys, w);
    OperateOn(cfg, hs, p, Usual(RunHandler(0, Accepted)));
    hs', p' := hs + [Usual(RunHandler(0, Accepted))], Happen(cfg, p, Usual(RunHandler(0, Accepted)));
  }

  lemma Acknowledges(cfg: Config, hs: seq<Happening>, p: Plant, v: nat, w: nat)
    returns (hs': seq<Happening>, p': Plant)
    requires Operates(cfg, hs, p)
    requires Story(cfg, p, v, w, Admitted, Unacked(w, Done(Delivered), [Ack]), Sent)
    requires p.sys.sockets[w] == [Queued(0, Ack)]
    ensures Operates(cfg, hs', p') && Story(cfg, p', v, w, Admitted, Acked, Sent)
  {
    OperateOn(cfg, hs, p, Usual(Send(w)));
    hs', p' := hs + [Usual(Send(w))], Happen(cfg, p, Usual(Send(w)));
  }

  /** Worker w delivers and acknowledges: the message is gone and the row is SENT. */
  lemma OtherDelivers(cfg: Config, v: nat, w: nat) returns (hs: seq<Happening>, p: Plant)
    requires v < w < |cfg.workers| && cfg.workers[v] == cfg.workers[w]
    ensures Operates(cfg, hs, p) && Story(cfg, p, v, w, Admitted, Acked, Sent)
  {
    hs, p := CutAfterTest(cfg, v, w);
    hs, p := WorkerWalks(cfg, hs, p, v, w, Received, Pending);
    hs, p := CallsAck(cfg, hs, p, v, w);
    hs, p := Acknowledges(cfg, hs, p, v, w);
  }

  /** A first attempt that failed with `o` is retried. */
  predicate RetriesFirst(cfg: Config, o: Outcome) {
    o.TransientError? && !Exhausted(cfg, 1)
  }

  /** The statements of a first attempt that fails with `o`, and the status beside them. */
  predicate OnFailingPath(cfg: Config, pc: Pc, status: Status, o: Outcome) {
    match pc
    case Admitted => true
    case Sending => status.Processing?
    case SendFailed(t) => status.Processing? && t == o.TransientError?
    case Counted(t) => status.Processing? && t == o.TransientError?
    case RecordedFail(t) => status.Processing? && t == o.TransientError?
    case DlqPublished => !RetriesFirst(cfg, o)
    case ReadyToAck(why) => status == EndOf(cfg, o) && why == if RetriesFirst(cfg, o) then Retried else Parked
    case Done(why) => status == EndOf(cfg, o)
    case _ => false
  }

  function EndOf(cfg: Config, o: Outcome): Status {
    if RetriesFirst(cfg, o) then Processing else DeadLettered
  }

  function LeftToFail(pc: Pc): nat {
    match pc
    case Admitted => 7
    case Sending => 6
    case SendFailed(_) => 5
    case Counted(_) => 4
    case RecordedFail(_) => 3
    case DlqPublished => 2
    case ReadyToAck(_) => 1
    case _ => 0
  }

  lemma FailingPathGoesOn(cfg: Config, pc: Pc, status: Status, o: Outcome)
    requires OnFailingPath(cfg, pc, status, o) && !pc.Done? && !o.Accepted?
    ensures var next := NextPc(cfg, map[], Message(0, 1, 3), pc, o);
            OnFailingPath(cfg, next, StatusAfter(pc, status), o) && LeftToFail(next) < LeftToFail(pc)
  {
  }

  lemma {:induction false} SurvivorWalks(cfg: Config, hs: seq<Happening>, p: Plant, v: nat, w: nat, pc: Pc,
                                         status: Status, o: Outcome) returns (hs': seq<Happening>, p': Plant)
    requires Operates(cfg, hs, p) && Story(cfg, p, v, w, pc, Acked, status)
    requires OnFailingPath(cfg, pc, status, o) && !o.Accepted?
    ensures Operates(cfg, hs', p')
    ensures exists why :: Story(cfg, p', v, w, Done(why), Acked, EndOf(cfg, o))
    decreases LeftToFail(pc)
  {
    if pc.Done? {
      hs', p' := hs, p;
    } else {
      FailingPathGoesOn(cfg, pc, status, o);
      hs', p' := SurvivorSteps(cfg, hs, p, v, w, pc, Acked, status, o);
      var next := NextPc(cfg, map[], Message(0, 1, 3), pc, o);
      hs', p' := SurvivorWalks(cfg, hs', p', v, w, next, StatusAfter(pc, status), o);
    }
  }

  // ---------------------------------------------------------------- main results

  /** Nothing is in motion, no handling goes on, and a published notification is neither SENT nor kept anywhere. */
  ghost predicate Forgotten(p: Plant, id: Id) {
    && Quiescent(p.sys.core)
    && (forall k :: k in p.survivors ==> p.survivors[k].place.Unacked? && p.survivors[k].place.pc.Done?)
    && id in p.sys.core.rows && TallyOf(p.sys.core, id).published > 0 && !Covered(p.sys.core, id)
  }

  /**
   The failing run. Worker v passes the status test and loses its connection, worker w delivers the message, and v's
   call goes on and fails: the row ends PROCESSING, or DEAD_LETTERED, with no message anywhere.
   */
  lemma SurvivorForgets(cfg: Config, v: nat, w: nat, o: Outcome) returns (hs: seq<Happening>, p: Plant)
    requires v < w < |cfg.workers| && cfg.workers[v] == cfg.workers[w] && !o.Accepted?
    ensures Operates(cfg, hs, p) && Forgotten(p, 0)
    ensures p.sys.core.rows[0].status == if o.TransientError? && cfg.maxRetries >= 1 then Processing else DeadLettered
    ensures |p.sys.core.copies| == 1 && p.sys.core.copies[0].place.Acked?
  {
    hs, p := OtherDelivers(cfg, v, w);
    hs, p := SurvivorWalks(cfg, hs, p, v, w, Admitted, Sent, o);
    var why :| Story(cfg, p, v, w, Done(why), Acked, EndOf(cfg, o));
    StoryForgotten(cfg, p, v, w, why, EndOf(cfg, o));
  }

  lemma StoryForgotten(cfg: Config, p: Plant, v: nat, w: nat, why: Why, status: Status)
    requires Story(cfg, p, v, w, Done(why), Acked, status) && status != Sent
    ensures Forgotten(p, 0)
  {
  }

  ghost predicate CanForget(cfg: Config) {
    exists hs: seq<Happening>, p: Plant, id: Id :: Operates(cfg, hs, p) && Forgotten(p, id)
  }

  /** The exact condition: with a ladder that covers the retries, exactly a shared channel lets one be forgotten. */
  lemma ForgetsIffShared(cfg: Config)
    requires LadderCoversRetries(cfg)
    ensures CanForget(cfg) <==> Shared(cfg)
  {
    if Shared(cfg) {
      var v, w :| 0 <= v < w < |cfg.workers| && cfg.workers[v] == cfg.workers[w];
      var hs, p := SurvivorForgets(cfg, v, w, PermanentError);
      assert Operates(cfg, hs, p) && Forgotten(p, 0);
    } else {
      forall hs: seq<Happening>, p: Plant, id: Id | Operates(cfg, hs, p) ensures !Forgotten(p, id) {
        OperateSheltered(cfg, hs);
      }
    }
  }

  /**
   With one worker per channel nothing is lost: in every state a published notification is SENT, or a copy still owes
   it an attempt, or it is DEAD_LETTERED and held for the operator, whatever survivors have written.
   */
  lemma UnsharedLosesNothing(cfg: Config, hs: seq<Happening>, id: Id)
    requires LadderCoversRetries(cfg) && !Shared(cfg) && Operate(cfg, hs).Some?
    requires TallyOf(Operate(cfg, hs).value.sys.core, id).published > 0
    ensures var s := Operate(cfg, hs).value.sys.core; id in s.rows && Covered(s, id)
  {
    OperateSheltered(cfg, hs);
  }

  /** Some happening of some run turns SENT into something else. */
  ghost predicate CanEndSent(cfg: Config) {
    exists hs: seq<Happening>, h: Happening, id: Id :: EndsSent(cfg, hs, h, id)
  }

  ghost predicate EndsSent(cfg: Config, hs: seq<Happening>, h: Happening, id: Id) {
    && Operate(cfg, hs).Some? && CanHappen(cfg, Operate(cfg, hs).value, h)
    && IsSent(Operate(cfg, hs).value.sys.core, id) && !IsSent(Happen(cfg, Operate(cfg, hs).value, h).sys.core, id)
  }

  /** Surviving handlers do not change when SENT is final: unless two workers consume a channel. */
  lemma SentEndsIffShared(cfg: Config)
    ensures CanEndSent(cfg) <==> Shared(cfg)
  {
    if Shared(cfg) {
      SentOverwrittenIffShared(cfg);
      var es: seq<Event>, e: Event, id: Id :| OverwritesSent(cfg, es, e, id);
      PlayOperates(cfg, es, Play(cfg, es).value);
      assert EndsSent(cfg, UsualRun(es), Usual(e), id);
    } else {
      forall hs: seq<Happening>, h: Happening, id: Id ensures !EndsSent(cfg, hs, h, id) {
        if EndsSent(cfg, hs, h, id) {
          OperateQuiet(cfg, hs, id);
          HappenQuiet(cfg, Operate(cfg, hs).value, h, id);
        }
      }
    }
  }
}
