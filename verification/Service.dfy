/**
 The imperative code: repositories, router, worker thread, worker pool and the POST handler, each proved to take
 the steps of module Protocol, statement by statement and in its order, on mutable objects. The objects of a thread
 share a journal in which every statement leaves an entry.
 */
module Service {
  import opened Domain
  import opened Protocol
  import opened Wire
  import Breaker = CircuitBreaking
  import opened Topology

  // ---------------------------------------------------------------- AMQP frames

  /** A frame as AMQP knows it: queues by name, acknowledgements by delivery tag. */
  datatype AmqpFrame =
    | BasicPublish(exchange: string, routingKey: string, body: Message, priority: Option<nat>)
    | BasicAck(tag: nat)

  function Encode(f: Frame, tag: nat): AmqpFrame {
    match f
    case PublishRetry(c, rung, body, priority) => BasicPublish("", RetryQueue(c, rung), body, Some(priority))
    case PublishDlq(c, body) => BasicPublish("", Dlq(c), body, None)
    case Ack => BasicAck(tag)
  }

  function EncodeAll(frames: seq<Frame>, tag: nat): seq<AmqpFrame> {
    seq(|frames|, i requires 0 <= i < |frames| => Encode(frames[i], tag))
  }

  lemma EncodeSnoc(frames: seq<Frame>, f: Frame, tag: nat)
    ensures EncodeAll(frames + [f], tag) == EncodeAll(frames, tag) + [Encode(f, tag)]
  {
  }

  /** Nothing is lost in the encoding: frames that look alike on the wire are the same frame. */
  lemma EncodeInjective(f: Frame, g: Frame, tag: nat)
    requires Encode(f, tag) == Encode(g, tag)
    ensures f == g
  {
    if !f.Ack? && !g.Ack? {
      var p := if f.PublishRetry? then RetryOf(f.channel, f.rung) else DlqOf(f.channel);
      var q := if g.PublishRetry? then RetryOf(g.channel, g.rung) else DlqOf(g.channel);
      NamesInjective(p, q);
    }
  }

  /** What a POST publishes for the row it got back. */
  function PostFrame(id: Id, channel: Channel, priority: Priority): AmqpFrame {
    var weight := PriorityWeight(priority);
    BasicPublish(EXCHANGE, RoutingKey(channel), Message(id, 1, weight), Some(weight))
  }

  /** The queues a broker puts the frame's message on. */
  function Receivers(queues: map<string, QueueArgs>, bindings: set<Binding>, f: AmqpFrame): set<string> {
    match f
    case BasicPublish(exchange, key, _, _) =>
      if exchange == "" then RouteDefault(queues, key) else RouteTopic(bindings, exchange, key)
    case BasicAck(_) => {}
  }

  // ---------------------------------------------------------------- the journal

  /** What a statement of the code did to the world outside its thread. */
  datatype Statement =
    | FoundRow(id: Id)
    | InsertedRow(id: Id)
    | Marked(id: Id, status: Status)
    | CountedAttempt(id: Id)
    | RecordedAttempt(id: Id, attempt: nat, channel: Channel, result: AttemptStatus)
    | Asked(answer: Outcome)
    | Issued(frame: AmqpFrame)

  /** History: the order in which the objects of a thread were used. No code reads it. */
  class Journal {
    ghost var entries: seq<Statement>

    constructor ()
      ensures entries == []
    {
      entries := [];
    }

    ghost method Note(e: Statement)
      modifies `entries
      ensures entries == old(entries) + [e]
    {
      entries := entries + [e];
    }
  }

  // ---------------------------------------------------------------- repositories

  class NotificationRepository {
    var rows: map<Id, Row>
    var outbox: seq<OutboxEvent>
    const journal: Journal

    constructor (journal: Journal)
      ensures rows == map[] && outbox == [] && this.journal == journal
    {
      rows, outbox := map[], [];
      this.journal := journal;
    }

    method FindById(id: Id) returns (row: Option<Row>)
      modifies journal`entries
      ensures row == if id in rows then Some(rows[id]) else None
      ensures journal.entries == old(journal.entries) + [FoundRow(id)]
    {
      row := if id in rows then Some(rows[id]) else None;
      journal.Note(FoundRow(id));
    }

    method FindByIdempotencyKey(key: Key) returns (id: Option<Id>)
      ensures id.Some? ==> id.value in rows && rows[id.value].key == key
      ensures id.None? ==> forall i :: i in rows ==> rows[i].key != key
    {
      if i :| i in rows && rows[i].key == key {
        id := Some(i);
      } else {
        id := None;
      }
    }

    method UpdateStatus(id: Id, status: Status)
      modifies `rows, journal`entries
      ensures rows == SetStatus(old(rows), id, status)
      ensures journal.entries == old(journal.entries) + [Marked(id, status)]
    {
      if id in rows {
        rows := rows[id := rows[id].(status := status)];
      }
      journal.Note(Marked(id, status));
    }

    method MarkProcessing(id: Id)
      modifies `rows, journal`entries
      ensures rows == SetStatus(old(rows), id, Processing)
      ensures journal.entries == old(journal.entries) + [Marked(id, Processing)]
    {
      UpdateStatus(id, Processing);
    }

    method MarkSent(id: Id)
      modifies `rows, journal`entries
      ensures rows == SetStatus(old(rows), id, Sent)
      ensures journal.entries == old(journal.entries) + [Marked(id, Sent)]
    {
      UpdateStatus(id, Sent);
    }

    method MarkDeadLettered(id: Id)
      modifies `rows, journal`entries
      ensures rows == SetStatus(old(rows), id, DeadLettered)
      ensures journal.entries == old(journal.entries) + [Marked(id, DeadLettered)]
    {
      UpdateStatus(id, DeadLettered);
    }

    method IncrementAttemptCount(id: Id)
      modifies `rows, journal`entries
      ensures rows == Increment(old(rows), id)
      ensures journal.entries == old(journal.entries) + [CountedAttempt(id)]
    {
      if id in rows {
        rows := rows[id := rows[id].(attemptCount := rows[id].attemptCount + 1)];
      }
      journal.Note(CountedAttempt(id));
    }

    /** `uuid` is the fresh id the generator supplies. The row that comes back is the key's, old or new. */
    method InsertWithOutbox(key: Key, channel: Channel, priority: Priority, uuid: Id) returns (id: Id, saved: Row)
      requires uuid !in rows
      modifies `rows, `outbox, journal`entries
      ensures id in rows && rows[id].key == key && saved == rows[id]
      ensures (exists i :: i in old(rows) && old(rows)[i].key == key) ==>
                && id in old(rows) && rows == old(rows) && outbox == old(outbox)
                && journal.entries == old(journal.entries)
      ensures !(exists i :: i in old(rows) && old(rows)[i].key == key) ==>
                && id == uuid
                && rows == old(rows)[uuid := Row(key, channel, priority, Pending, 0)]
                && outbox == old(outbox) + [OutboxEvent(uuid, uuid)]
                && journal.entries == old(journal.entries) + [InsertedRow(uuid)]
    {
      var existing := FindByIdempotencyKey(key);
      if existing.Some? {
        return existing.value, rows[existing.value];
      }
      rows := rows[uuid := Row(key, channel, priority, Pending, 0)];
      outbox := outbox + [OutboxEvent(uuid, uuid)];
      journal.Note(InsertedRow(uuid));
      return uuid, rows[uuid];
    }
  }

  class DeliveryAttemptRepository {
    var attempts: map<(Id, nat), AttemptRow>
    const journal: Journal

    constructor (journal: Journal)
      ensures attempts == map[] && this.journal == journal
    {
      attempts := map[];
      this.journal := journal;
    }

    /** The upsert: one row per (notification, attempt), the latest status wins, the channel stays. */
    method RecordAttempt(id: Id, attempt: nat, channel: Channel, status: AttemptStatus)
      modifies `attempts, journal`entries
      ensures attempts == Record(old(attempts), id, attempt, channel, status)
      ensures attempts.Keys == old(attempts).Keys + {(id, attempt)}
      ensures attempts[(id, attempt)].status == status
      ensures attempts[(id, attempt)].channel ==
                if (id, attempt) in old(attempts) then old(attempts)[(id, attempt)].channel else channel
      ensures forall k :: k in old(attempts) && k != (id, attempt) ==> attempts[k] == old(attempts)[k]
      ensures journal.entries == old(journal.entries) + [RecordedAttempt(id, attempt, channel, status)]
    {
      if (id, attempt) in attempts {
        attempts := attempts[(id, attempt) := attempts[(id, attempt)].(status := status)];
      } else {
        attempts := attempts[(id, attempt) := AttemptRow(channel, status)];
      }
      journal.Note(RecordedAttempt(id, attempt, channel, status));
    }
  }

  // ---------------------------------------------------------------- AMQP channel

  class AmqpChannel {
    var socket: seq<AmqpFrame>
    const journal: Journal

    constructor (journal: Journal)
      ensures socket == [] && this.journal == journal
    {
      socket := [];
      this.journal := journal;
    }

    method Publish(exchange: string, routingKey: string, body: Message, priority: Option<nat>)
      modifies `socket, journal`entries
      ensures socket == old(socket) + [BasicPublish(exchange, routingKey, body, priority)]
      ensures journal.entries == old(journal.entries) + [Issued(BasicPublish(exchange, routingKey, body, priority))]
    {
      socket := socket + [BasicPublish(exchange, routingKey, body, priority)];
      journal.Note(Issued(BasicPublish(exchange, routingKey, body, priority)));
    }

    method AckDelivery(tag: nat)
      modifies `socket, journal`entries
      ensures socket == old(socket) + [BasicAck(tag)]
      ensures journal.entries == old(journal.entries) + [Issued(BasicAck(tag))]
    {
      socket := socket + [BasicAck(tag)];
      journal.Note(Issued(BasicAck(tag)));
    }
  }

  // ---------------------------------------------------------------- router

  /** What one send does to the breaker: refused, or admitted and reported unless permanently rejected. */
  ghost function SendEffect(cfg: Breaker.Settings, m: Breaker.Machine, start: nat, finish: nat, provided: Outcome)
    : Breaker.Machine
    requires start >= m.clock && finish >= start
  {
    var m1 := Breaker.Step(cfg, m, Breaker.Request(start));
    if !Breaker.Allow(cfg, m.breaker, start).1 then m1
    else match provided
         case Accepted => Breaker.Step(cfg, m1, Breaker.Success)
         case TransientError => Breaker.Step(cfg, m1, Breaker.Failure(finish))
         case PermanentError => Breaker.Step(cfg, m1, Breaker.Rejection)
  }

  /** What one send returns: the provider's answer, or a transient error when the breaker refuses the call. */
  function SendAnswer(cfg: Breaker.Settings, m: Breaker.Machine, start: nat, provided: Outcome): Outcome {
    if Breaker.Allow(cfg, m.breaker, start).1 then provided else TransientError
  }

  class ProviderRouter {
    const email: Breaker.CircuitBreaker
    const sms: Breaker.CircuitBreaker
    const push: Breaker.CircuitBreaker
    const journal: Journal

    ghost predicate Valid()
      reads email, sms, push
    {
      && email != sms && sms != push && email != push
      && email.Valid() && sms.Valid() && push.Valid()
    }

    constructor (failureThreshold: int, openDuration: nat, journal: Journal)
      ensures Valid() && fresh(email) && fresh(sms) && fresh(push) && this.journal == journal
      ensures forall c: Channel :: BreakerOf(c).machine == Breaker.Start()
                                   && BreakerOf(c).settings == Breaker.Settings(failureThreshold, openDuration)
    {
      email := new Breaker.CircuitBreaker(failureThreshold, openDuration);
      sms := new Breaker.CircuitBreaker(failureThreshold, openDuration);
      push := new Breaker.CircuitBreaker(failureThreshold, openDuration);
      this.journal := journal;
    }

    function BreakerOf(c: Channel): Breaker.CircuitBreaker {
      match c
      case Email => email
      case Sms => sms
      case Push => push
    }

    /** Each channel has a breaker of its own. */
    lemma BreakersDistinct(c: Channel, d: Channel)
      requires Valid()
      ensures BreakerOf(c) == BreakerOf(d) <==> c == d
    {
    }

    /** What a send on `c` would return. */
    ghost function Answer(c: Channel, start: nat, provided: Outcome): Outcome
      reads BreakerOf(c)
    {
      SendAnswer(BreakerOf(c).settings, BreakerOf(c).machine, start, provided)
    }

    /**
     `provided` is what the provider would answer; an open breaker answers with a transient error instead. The
     breaker's history has both, the answer and what was reported of it.
     */
    method Send(channel: Channel, start: nat, finish: nat, provided: Outcome) returns (outcome: Outcome)
      requires Valid() && start >= BreakerOf(channel).machine.clock && finish >= start
      modifies BreakerOf(channel), journal`entries
      ensures Valid()
      ensures BreakerOf(channel).machine ==
                SendEffect(BreakerOf(channel).settings, old(BreakerOf(channel).machine), start, finish, provided)
      ensures outcome == old(Answer(channel, start, provided))
      ensures BreakerOf(channel).machine.outstanding == old(BreakerOf(channel).machine.outstanding)
      ensures journal.entries == old(journal.entries) + [Asked(outcome)]
      ensures forall d :: d != channel ==> BreakerOf(d).machine == old(BreakerOf(d).machine)
      ensures var b, h := BreakerOf(channel), old(BreakerOf(channel).machine.history);
              || (&& b.machine.history == h + [Breaker.Refused(start)] && outcome == TransientError
                  && old(b.state) != Breaker.Closed && b.state == old(b.state)
                  && b.failureCount == old(b.failureCount) && b.probeInFlight == old(b.probeInFlight)
                  && b.openedAt == old(b.openedAt))
              || (provided == outcome == Accepted
                  && b.machine.history == h + [Breaker.Admitted(start), Breaker.Succeeded]
                  && b.state == Breaker.Closed && b.failureCount == 0 && !b.probeInFlight)
              || (provided == outcome == TransientError
                  && exists trips :: b.machine.history == h + [Breaker.Admitted(start), Breaker.Failed(finish, trips)])
              || (provided == outcome == PermanentError
                  && b.machine.history == h + [Breaker.Admitted(start), Breaker.Unreported]
                  && b.failureCount == old(b.failureCount) && b.openedAt == old(b.openedAt))
    {
      var breaker := BreakerOf(channel);
      var allowed := breaker.AllowRequest(start);
      var h := old(BreakerOf(channel).machine).history;
      assert (h + [Breaker.Admitted(start)])[|h|] != (h + [Breaker.Refused(start)])[|h|];
      if !allowed {
        journal.Note(Asked(TransientError));
        return TransientError;
      }
      match provided {
        case Accepted => breaker.OnSuccess();
        case TransientError => breaker.OnFailure(finish);
        case PermanentError => breaker.EndUnreported();
      }
      journal.Note(Asked(provided));
      return provided;
    }
  }

  // ---------------------------------------------------------------- worker thread

  /** The objects around a worker thread, as values. */
  datatype World = World(rows: map<Id, Row>, attempts: map<(Id, nat), AttemptRow>, socket: seq<AmqpFrame>,
                         entries: seq<Statement>, email: Breaker.Machine, sms: Breaker.Machine, push: Breaker.Machine)
  {
    function MachineOf(c: Channel): Breaker.Machine {
      match c
      case Email => email
      case Sms => sms
      case Push => push
    }

    function WithMachine(c: Channel, m: Breaker.Machine): World {
      match c
      case Email => this.(email := m)
      case Sms => this.(sms := m)
      case Push => this.(push := m)
    }
  }

  /** Machines are kept by channel. */
  lemma MachineByChannel(w: World, c: Channel, m: Breaker.Machine, d: Channel)
    ensures w.WithMachine(c, m).MachineOf(d) == if c == d then m else w.MachineOf(d)
  {
  }

  /** A handling in progress, as Protocol sees it. */
  datatype View = View(rows: map<Id, Row>, attempts: map<(Id, nat), AttemptRow>, body: Message, channel: Channel,
                       pc: Pc, frames: seq<Frame>, sends: seq<Outcome>)

  class WorkerThread {
    const channel: Channel
    const index: nat
    const cfg: Config
    const notifications: NotificationRepository
    const attempts: DeliveryAttemptRepository
    const router: ProviderRouter
    const amqp: AmqpChannel
    const journal: Journal

    constructor (channel: Channel, index: nat, cfg: Config, notifications: NotificationRepository,
                 attempts: DeliveryAttemptRepository, router: ProviderRouter, amqp: AmqpChannel)
      requires notifications.journal == attempts.journal == router.journal == amqp.journal
      ensures this.channel == channel && this.index == index && this.cfg == cfg && this.notifications == notifications
      ensures this.attempts == attempts && this.router == router && this.amqp == amqp && OneJournal()
    {
      this.channel, this.index, this.cfg := channel, index, cfg;
      this.notifications, this.attempts, this.router, this.amqp := notifications, attempts, router, amqp;
      this.journal := amqp.journal;
    }

    predicate OneJournal() {
      && notifications.journal == journal && attempts.journal == journal
      && router.journal == journal && amqp.journal == journal
    }

    ghost function Around(): World
      reads notifications, attempts, amqp, journal, router.email, router.sms, router.push
    {
      World(notifications.rows, attempts.attempts, amqp.socket, journal.entries,
            router.email.machine, router.sms.machine, router.push.machine)
    }

    /** The machines of the world are those of the router. */
    lemma MachinesAround(c: Channel)
      ensures Around().MachineOf(c) == router.BreakerOf(c).machine
    {
    }

    // -------------------------------------------------------------- what a call has to do

    /** The status test lets the message through. */
    predicate Passes(rows: map<Id, Row>, m: Message) {
      m.id in rows && rows[m.id].status != Cancelled && rows[m.id].status != Sent
    }

    predicate RetriesAfter(m: Message, transient: bool) {
      transient && m.attempt <= cfg.maxRetries
    }

    /** Why the call acks. */
    function EndOfCall(rows: map<Id, Row>, m: Message, answer: Outcome): Why {
      if m.id !in rows then Missing
      else if !Passes(rows, m) then Skipped
      else if answer.Accepted? then Delivered
      else if RetriesAfter(m, answer.TransientError?) then Retried
      else Parked
    }

    function FailureStatus(transient: bool): AttemptStatus {
      if transient then TransientFailure else PermanentFailure
    }

    /** Record, mark SENT, count, ack: in that order. */
    function DeliveredScript(m: Message, tag: nat): seq<Statement> {
      [RecordedAttempt(m.id, m.attempt, channel, Success), Marked(m.id, Sent), CountedAttempt(m.id),
       Issued(BasicAck(tag))]
    }

    function RetryPublish(m: Message): AmqpFrame {
      BasicPublish("", RetryQueue(channel, m.attempt), m.(attempt := m.attempt + 1), Some(m.priority))
    }

    /** Record, publish to the ladder, ack: in that order. */
    function RetryScript(m: Message, tag: nat): seq<Statement> {
      [RecordedAttempt(m.id, m.attempt, channel, TransientFailure), Issued(RetryPublish(m)), Issued(BasicAck(tag))]
    }

    function DlqPublish(m: Message): AmqpFrame {
      BasicPublish("", Dlq(channel), m, None)
    }

    /** Record, publish to the dead-letter queue, mark DEAD_LETTERED, ack: in that order. */
    function ParkScript(m: Message, transient: bool, tag: nat): seq<Statement> {
      [RecordedAttempt(m.id, m.attempt, channel, FailureStatus(transient)), Issued(DlqPublish(m)),
       Marked(m.id, DeadLettered), Issued(BasicAck(tag))]
    }

    /** The world after the success branch. */
    function AfterDelivered(w: World, m: Message, tag: nat): World {
      w.(rows := Increment(SetStatus(w.rows, m.id, Sent), m.id),
         attempts := Record(w.attempts, m.id, m.attempt, channel, Success),
         socket := w.socket + [BasicAck(tag)],
         entries := w.entries + DeliveredScript(m, tag))
    }

    function AfterRetry(w: World, m: Message, tag: nat): World {
      w.(attempts := Record(w.attempts, m.id, m.attempt, channel, TransientFailure),
         socket := w.socket + [RetryPublish(m), BasicAck(tag)],
         entries := w.entries + RetryScript(m, tag))
    }

    function AfterPark(w: World, m: Message, transient: bool, tag: nat): World {
      w.(rows := SetStatus(w.rows, m.id, DeadLettered),
         attempts := Record(w.attempts, m.id, m.attempt, channel, FailureStatus(transient)),
         socket := w.socket + [DlqPublish(m), BasicAck(tag)],
         entries := w.entries + ParkScript(m, transient, tag))
    }

    function AfterFailed(w: World, m: Message, transient: bool, tag: nat): World {
      var w1 := w.(rows := Increment(w.rows, m.id), entries := w.entries + [CountedAttempt(m.id)]);
      if RetriesAfter(m, transient) then AfterRetry(w1, m, tag) else AfterPark(w1, m, transient, tag)
    }

    /** The answer to a send on `route`. */
    ghost function AnswerIn(w: World, route: Channel, start: nat, provided: Outcome): Outcome {
      SendAnswer(router.BreakerOf(route).settings, w.MachineOf(route), start, provided)
    }

    /** Mark PROCESSING and ask: the breaker of `route` is the only one that notices. */
    ghost function AfterAsking(w: World, m: Message, route: Channel, start: nat, finish: nat, provided: Outcome): World
      requires start >= w.MachineOf(route).clock && finish >= start
    {
      var machine := SendEffect(router.BreakerOf(route).settings, w.MachineOf(route), start, finish, provided);
      var answer := AnswerIn(w, route, start, provided);
      w.WithMachine(route, machine).(rows := SetStatus(w.rows, m.id, Processing),
                                     entries := w.entries + [Marked(m.id, Processing), Asked(answer)])
    }

    /** Mark PROCESSING, ask the provider of `route` through its breaker, take the branch of the answer. */
    ghost function AfterAttempt(w: World, m: Message, route: Channel, tag: nat, start: nat, finish: nat,
                                provided: Outcome): World
      requires start >= w.MachineOf(route).clock && finish >= start
    {
      var answer := AnswerIn(w, route, start, provided);
      var asked := AfterAsking(w, m, route, start, finish, provided);
      if answer.Accepted? then AfterDelivered(asked, m, tag) else AfterFailed(asked, m, answer.TransientError?, tag)
    }

    ghost predicate ClocksBefore(w: World, start: nat) {
      start >= w.email.clock && start >= w.sms.clock && start >= w.push.clock
    }

    /** The world after a whole call: look the row up, ack or attempt. */
    ghost function AfterMessage(w: World, m: Message, tag: nat, start: nat, finish: nat, provided: Outcome): World
      requires ClocksBefore(w, start) && finish >= start
    {
      var found := w.(entries := w.entries + [FoundRow(m.id)]);
      if Passes(w.rows, m) then AfterAttempt(found, m, w.rows[m.id].channel, tag, start, finish, provided)
      else AfterAck(found, tag)
    }

    function AfterAck(w: World, tag: nat): World {
      w.(socket := w.socket + [BasicAck(tag)], entries := w.entries + [Issued(BasicAck(tag))])
    }

    /** The message was acked, and nothing else happened. */
    ghost predicate OnlyAcked(w: World, w': World, tag: nat) {
      && w'.rows == w.rows && w'.attempts == w.attempts && w'.socket == w.socket + [BasicAck(tag)]
      && forall c: Channel :: w'.MachineOf(c) == w.MachineOf(c)
    }

    /** The breaker of the row's channel was asked, no other, and the attempt counted and recorded before the ack. */
    ghost predicate Attempted(w: World, w': World, m: Message, tag: nat) {
      && m.id in w.rows && w'.rows.Keys == w.rows.Keys
      && (forall id :: id in w.rows && id != m.id ==> w'.rows[id] == w.rows[id])
      && w'.rows[m.id].attemptCount == w.rows[m.id].attemptCount + 1
      && w'.attempts.Keys == w.attempts.Keys + {(m.id, m.attempt)}
      && w.socket < w'.socket && w'.socket[|w'.socket| - 1] == BasicAck(tag)
      && var route := w.rows[m.id].channel;
      && w.MachineOf(route).history < w'.MachineOf(route).history
      && forall c: Channel :: c != route ==> w'.MachineOf(c) == w.MachineOf(c)
    }

    lemma SkipOnlyAcks(w: World, m: Message, tag: nat, start: nat, finish: nat, provided: Outcome)
      requires ClocksBefore(w, start) && finish >= start && !Passes(w.rows, m)
      ensures OnlyAcked(w, AfterMessage(w, m, tag, start, finish, provided), tag)
    {
    }

    /** The breaker of `route` has been asked, and no other; the row is marked. */
    lemma AskingAsksOne(w: World, m: Message, route: Channel, start: nat, finish: nat, provided: Outcome)
      requires start >= w.MachineOf(route).clock && finish >= start
      ensures var asked := AfterAsking(w, m, route, start, finish, provided);
              && asked.rows == SetStatus(w.rows, m.id, Processing) && asked.attempts == w.attempts
              && asked.socket == w.socket && w.MachineOf(route).history < asked.MachineOf(route).history
              && forall c: Channel :: c != route ==> asked.MachineOf(c) == w.MachineOf(c)
    {
      var m1 := SendEffect(router.BreakerOf(route).settings, w.MachineOf(route), start, finish, provided);
      MachineByChannel(w, route, m1, route);
      assert w.MachineOf(route).history < m1.history;
    }

    /** Whatever the answer, the attempt is counted and recorded, the message acked last, and no breaker asked. */
    lemma AnswerIsRecorded(w: World, m: Message, tag: nat, answer: Outcome)
      requires m.id in w.rows
      ensures var w' := if answer.Accepted? then AfterDelivered(w, m, tag)
                        else AfterFailed(w, m, answer.TransientError?, tag);
              && w'.rows.Keys == w.rows.Keys
              && (forall id :: id in w.rows && id != m.id ==> w'.rows[id] == w.rows[id])
              && w'.rows[m.id].attemptCount == w.rows[m.id].attemptCount + 1
              && w'.attempts.Keys == w.attempts.Keys + {(m.id, m.attempt)}
              && w.socket < w'.socket && w'.socket[|w'.socket| - 1] == BasicAck(tag)
              && forall c: Channel :: w'.MachineOf(c) == w.MachineOf(c)
    {
    }

    lemma PassIsAttempted(w: World, m: Message, tag: nat, start: nat, finish: nat, provided: Outcome)
      requires ClocksBefore(w, start) && finish >= start && Passes(w.rows, m)
      ensures Attempted(w, AfterMessage(w, m, tag, start, finish, provided), m, tag)
    {
      var found, route := w.(entries := w.entries + [FoundRow(m.id)]), w.rows[m.id].channel;
      AskingAsksOne(found, m, route, start, finish, provided);
      AnswerIsRecorded(AfterAsking(found, m, route, start, finish, provided), m, tag,
                       AnswerIn(found, route, start, provided));
    }

    // -------------------------------------------------------------- the call

    /**
     One call of onMessage without a crash. It leaves every object as AfterMessage says: database, socket, the breaker
     of the row's channel, and the journal with the call's statements in their order. A malformed body is only acked,
     and so is a message whose notification is not there, SENT or CANCELLED; any other message is attempted.
     */
    method OnMessage(body: Option<Message>, tag: nat, start: nat, finish: nat, provided: Outcome)
      requires OneJournal() && router.Valid() && ClocksBefore(Around(), start) && finish >= start
      modifies notifications`rows, attempts`attempts, amqp`socket, journal`entries
      modifies router.email, router.sms, router.push
      ensures router.Valid()
      ensures Around() == if body.None? then AfterAck(old(Around()), tag)
                          else AfterMessage(old(Around()), body.value, tag, start, finish, provided)
      ensures body.None? || body.value.id !in old(notifications.rows) ==> OnlyAcked(old(Around()), Around(), tag)
      ensures body.Some? && body.value.id in old(notifications.rows) ==>
                if old(notifications.rows)[body.value.id].status in {Sent, Cancelled}
                then OnlyAcked(old(Around()), Around(), tag)
                else Attempted(old(Around()), Around(), body.value, tag)
    {
      ghost var w := Around();
      if body.Some? && Passes(w.rows, body.value) {
        PassIsAttempted(w, body.value, tag, start, finish, provided);
      } else if body.Some? {
        SkipOnlyAcks(w, body.value, tag, start, finish, provided);
      }
      if body.None? {
        amqp.AckDelivery(tag);
        return;
      }
      var message := body.value;
      var found := notifications.FindById(message.id);
      if found.None? || found.value.status == Cancelled || found.value.status == Sent {
        amqp.AckDelivery(tag);
        return;
      }
      Attempt(message, found.value.channel, tag, start, finish, provided);
    }

    /** The rest of the call, once the status test has let the message through. */
    method Attempt(message: Message, route: Channel, tag: nat, start: nat, finish: nat, provided: Outcome)
      requires OneJournal() && router.Valid() && start >= Around().MachineOf(route).clock && finish >= start
      modifies notifications`rows, attempts`attempts, amqp`socket, router.BreakerOf(route), journal`entries
      ensures router.Valid()
      ensures Around() == AfterAttempt(old(Around()), message, route, tag, start, finish, provided)
    {
      notifications.MarkProcessing(message.id);
      var outcome := router.Send(route, start, finish, provided);
      assert journal.entries == old(journal.entries) + [Marked(message.id, Processing), Asked(outcome)];
      if outcome == Accepted {
        FinishDelivered(message, tag);
      } else {
        FinishFailed(message, tag, outcome == TransientError);
      }
    }

    method FinishDelivered(message: Message, tag: nat)
      requires OneJournal()
      modifies notifications`rows, attempts`attempts, amqp`socket, journal`entries
      ensures Around() == AfterDelivered(old(Around()), message, tag)
    {
      attempts.RecordAttempt(message.id, message.attempt, channel, Success);
      notifications.MarkSent(message.id);
      notifications.IncrementAttemptCount(message.id);
      amqp.AckDelivery(tag);
    }

    /** The statements after a ProviderException. */
    method FinishFailed(message: Message, tag: nat, transient: bool)
      requires OneJournal()
      modifies notifications`rows, attempts`attempts, amqp`socket, journal`entries
      ensures Around() == AfterFailed(old(Around()), message, transient, tag)
    {
      notifications.IncrementAttemptCount(message.id);
      var exhausted := message.attempt > cfg.maxRetries;
      if transient && !exhausted {
        Reschedule(message, tag);
      } else {
        Park(message, tag, transient);
      }
    }

    method Reschedule(message: Message, tag: nat)
      requires OneJournal()
      modifies attempts`attempts, amqp`socket, journal`entries
      ensures Around() == AfterRetry(old(Around()), message, tag)
    {
      attempts.RecordAttempt(message.id, message.attempt, channel, TransientFailure);
      var retryBody := message.(attempt := message.attempt + 1);
      var retryQueue := RetryQueue(channel, message.attempt);
      amqp.Publish("", retryQueue, retryBody, Some(message.priority));
      amqp.AckDelivery(tag);
    }

    method Park(message: Message, tag: nat, transient: bool)
      requires OneJournal()
      modifies notifications`rows, attempts`attempts, amqp`socket, journal`entries
      ensures Around() == AfterPark(old(Around()), message, transient, tag)
    {
      attempts.RecordAttempt(message.id, message.attempt, channel,
                             if transient then TransientFailure else PermanentFailure);
      var dlq := Dlq(channel);
      amqp.Publish("", dlq, message, None);
      notifications.MarkDeadLettered(message.id);
      amqp.AckDelivery(tag);
    }

    // -------------------------------------------------------------- the call as a run of Protocol

    function ViewOf(s: State, t: nat): View
      requires IsUnacked(s, t)
    {
      var c := s.copies[t];
      View(s.rows, s.attempts, c.body, c.channel, c.place.pc, c.place.unsent, TallyOf(s, c.body.id).outcomes)
    }

    /** One step of the handling. */
    function StepView(v: View, o: Outcome): View {
      if v.pc.Done? then v
      else v.(rows := RowsAfter(v.rows, v.body.id, v.pc),
              attempts := AttemptsAfter(v.attempts, v.body, v.channel, v.pc),
              pc := NextPc(cfg, v.rows, v.body, v.pc, o),
              frames := v.frames + FramesAfter(cfg, v.body, v.channel, v.pc),
              sends := v.sends + if v.pc.Sending? then [o] else [])
    }

    /** The statement that a handler's step is. */
    function StatementOf(v: View, o: Outcome, tag: nat): Statement {
      var m := v.body;
      match v.pc
      case Received => FoundRow(m.id)
      case Admitted => Marked(m.id, Processing)
      case Sending => Asked(o)
      case SendOk => RecordedAttempt(m.id, m.attempt, v.channel, Success)
      case RecordedOk => Marked(m.id, Sent)
      case MarkedSent => CountedAttempt(m.id)
      case SendFailed(_) => CountedAttempt(m.id)
      case Counted(t) => RecordedAttempt(m.id, m.attempt, v.channel, FailureStatus(t))
      case RecordedFail(_) => Issued(Encode(FramesAfter(cfg, m, v.channel, v.pc)[0], tag))
      case DlqPublished => Marked(m.id, DeadLettered)
      case _ => Issued(BasicAck(tag))
    }

    /** What a statement does to the rows. */
    function RowsBy(rows: map<Id, Row>, e: Statement): map<Id, Row> {
      match e
      case Marked(id, status) => SetStatus(rows, id, status)
      case CountedAttempt(id) => Increment(rows, id)
      case _ => rows
    }

    /** What a statement does to the recorded attempts. */
    function AttemptsBy(attempts: map<(Id, nat), AttemptRow>, e: Statement): map<(Id, nat), AttemptRow> {
      match e
      case RecordedAttempt(id, attempt, c, result) => Record(attempts, id, attempt, c, result)
      case _ => attempts
    }

    /** The statement that a step is said to be does what the step does: to both tables, the socket and the provider. */
    lemma StatementIsStep(v: View, o: Outcome, tag: nat)
      requires !v.pc.Done?
      ensures var e, v' := StatementOf(v, o, tag), StepView(v, o);
              && v'.rows == RowsBy(v.rows, e) && v'.attempts == AttemptsBy(v.attempts, e)
              && EncodeAll(v'.frames, tag) == EncodeAll(v.frames, tag) + (if e.Issued? then [e.frame] else [])
              && v'.sends == v.sends + (if e.Asked? then [e.answer] else [])
    {
      var issued := FramesAfter(cfg, v.body, v.channel, v.pc);
      if issued == [] {
        assert v.frames + issued == v.frames;
      } else {
        assert issued == [issued[0]];
        EncodeSnoc(v.frames, issued[0], tag);
      }
    }

    /** The first `n` steps of delivery `t`'s handling, every send of which returns `o`. */
    function Steps(t: nat, o: Outcome, n: nat): seq<Action> {
      if n == 0 then [] else Steps(t, o, n - 1) + [Handle(t, o)]
    }

    /** The statements of those steps in the run of Protocol from `s`, in their order. */
    ghost function Spelled(s: State, t: nat, o: Outcome, n: nat, tag: nat): seq<Statement> {
      if n == 0 then []
      else
        var m := Exec(cfg, s, Steps(t, o, n - 1));
        Spelled(s, t, o, n - 1, tag)
        + if m.Some? && IsUnacked(m.value, t) then [StatementOf(ViewOf(m.value, t), o, tag)] else []
    }

    function Walk(v: View, o: Outcome, n: nat): View
      decreases n, v, 1
    {
      if n == 0 then v else WalkLast(v, o, n)
    }

    function WalkLast(v: View, o: Outcome, n: nat): View
      requires n > 0
      decreases n, v, 0
    {
      StepView(Walk(v, o, n - 1), o)
    }

    function Script(v: View, o: Outcome, n: nat, tag: nat): seq<Statement>
      decreases n, v, 1
    {
      if n == 0 then [] else ScriptLast(v, o, n, tag)
    }

    function ScriptLast(v: View, o: Outcome, n: nat, tag: nat): seq<Statement>
      requires n > 0
      decreases n, v, 0
    {
      Script(v, o, n - 1, tag) + [StatementOf(Walk(v, o, n - 1), o, tag)]
    }

    /** The `n`-th step, taken from `x`. */
    lemma OneMore(v: View, o: Outcome, n: nat, tag: nat, x: View)
      requires n > 0 && Walk(v, o, n - 1) == x
      ensures Walk(v, o, n) == StepView(x, o)
      ensures Script(v, o, n, tag) == Script(v, o, n - 1, tag) + [StatementOf(x, o, tag)]
    {
      assert Walk(v, o, n) == WalkLast(v, o, n);
      assert Script(v, o, n, tag) == ScriptLast(v, o, n, tag);
    }

    /** Only delivery `t` and what its handler writes may differ. */
    ghost predicate OnlyHandled(s: State, s': State, t: nat) {
      && s'.posts == s.posts && s'.outbox == s.outbox && s'.now == s.now
      && |s'.copies| == |s.copies| && t < |s.copies| && s'.copies[t].(place := Main) == s.copies[t].(place := Main)
      && s'.copies[t].place.Unacked? && s'.copies[t].place.worker == index
      && forall x :: 0 <= x < |s.copies| && x != t ==> s'.copies[x] == s.copies[x]
    }

    lemma HandleWalks(s: State, t: nat, o: Outcome)
      requires IsUnacked(s, t) && s.copies[t].place.worker == index && !s.copies[t].place.pc.Done?
      ensures OnlyHandled(s, HandleStep(cfg, s, t, o), t)
      ensures ViewOf(HandleStep(cfg, s, t, o), t) == StepView(ViewOf(s, t), o)
    {
    }

    lemma OnlyHandledTrans(s: State, m: State, s': State, t: nat)
      requires OnlyHandled(s, m, t) && OnlyHandled(m, s', t)
      ensures OnlyHandled(s, s', t)
    {
    }

    lemma SpelledStep(s: State, m: State, t: nat, o: Outcome, n: nat, tag: nat)
      requires n >= 1 && Exec(cfg, s, Steps(t, o, n - 1)) == Some(m) && IsUnacked(m, t)
      ensures Spelled(s, t, o, n, tag) == Spelled(s, t, o, n - 1, tag) + [StatementOf(ViewOf(m, t), o, tag)]
    {
    }

    lemma ExecStep(s: State, m: State, t: nat, o: Outcome, n: nat)
      requires n >= 1 && Exec(cfg, s, Steps(t, o, n - 1)) == Some(m) && Enabled(cfg, m, Handle(t, o))
      ensures Exec(cfg, s, Steps(t, o, n)) == Some(HandleStep(cfg, m, t, o))
    {
      ExecSnoc(cfg, s, Steps(t, o, n - 1), Handle(t, o));
    }

    lemma WalkFurther(s: State, m: State, t: nat, o: Outcome, n: nat) returns (s': State)
      requires n >= 1 && Exec(cfg, s, Steps(t, o, n - 1)) == Some(m) && IsUnacked(m, t)
      requires m.copies[t].place.worker == index && !m.copies[t].place.pc.Done?
      ensures Exec(cfg, s, Steps(t, o, n)) == Some(s')
      ensures OnlyHandled(m, s', t) && ViewOf(s', t) == StepView(ViewOf(m, t), o)
    {
      s' := HandleStep(cfg, m, t, o);
      ExecStep(s, m, t, o, n);
      HandleWalks(m, t, o);
    }

    /** Protocol takes the steps that the view describes. */
    lemma {:induction false} WalkIsRun(s: State, t: nat, o: Outcome, n: nat) returns (end: State)
      requires IsUnacked(s, t) && s.copies[t].place.worker == index
      requires n == 0 || !Walk(ViewOf(s, t), o, n - 1).pc.Done?
      ensures Exec(cfg, s, Steps(t, o, n)) == Some(end) && OnlyHandled(s, end, t)
      ensures ViewOf(end, t) == Walk(ViewOf(s, t), o, n)
    {
      if n == 0 {
        end := s;
      } else {
        WalkNotDone(ViewOf(s, t), o, n - 1);
        var m := WalkIsRun(s, t, o, n - 1);
        end := WalkFurther(s, m, t, o, n);
        OnlyHandledTrans(s, m, end, t);
        OneMore(ViewOf(s, t), o, n, 0, ViewOf(m, t));
      }
    }

    lemma SpelledFurther(s: State, m: State, t: nat, o: Outcome, n: nat, tag: nat)
      requires n >= 1 && Exec(cfg, s, Steps(t, o, n - 1)) == Some(m) && IsUnacked(s, t) && IsUnacked(m, t)
      requires ViewOf(m, t) == Walk(ViewOf(s, t), o, n - 1)
      requires Spelled(s, t, o, n - 1, tag) == Script(ViewOf(s, t), o, n - 1, tag)
      ensures Spelled(s, t, o, n, tag) == Script(ViewOf(s, t), o, n, tag)
    {
      SpelledStep(s, m, t, o, n, tag);
      OneMore(ViewOf(s, t), o, n, tag, ViewOf(m, t));
    }

    /** And it makes the statements of the script. */
    lemma {:induction false} WalkIsSpelled(s: State, t: nat, o: Outcome, n: nat, tag: nat)
      requires IsUnacked(s, t) && s.copies[t].place.worker == index
      requires n == 0 || !Walk(ViewOf(s, t), o, n - 1).pc.Done?
      ensures Spelled(s, t, o, n, tag) == Script(ViewOf(s, t), o, n, tag)
    {
      if n > 0 {
        WalkNotDone(ViewOf(s, t), o, n - 1);
        WalkIsSpelled(s, t, o, n - 1, tag);
        var m := WalkIsRun(s, t, o, n - 1);
        SpelledFurther(s, m, t, o, n, tag);
      }
    }

    lemma WalkNotDone(v: View, o: Outcome, n: nat)
      requires !Walk(v, o, n).pc.Done?
      ensures n == 0 || !Walk(v, o, n - 1).pc.Done?
    {
      if n > 0 {
        OneMore(v, o, n, 0, Walk(v, o, n - 1));
      }
    }

    /** The frames of an attempt that was answered with `answer`. */
    function AttemptFrames(m: Message, answer: Outcome): seq<Frame> {
      if answer.Accepted? then [Ack]
      else if RetriesAfter(m, answer.TransientError?)
      then [PublishRetry(channel, m.attempt, m.(attempt := m.attempt + 1), m.priority), Ack]
      else [PublishDlq(channel, m), Ack]
    }

    /** How many statements a call makes. */
    function Length(rows: map<Id, Row>, m: Message, answer: Outcome): nat {
      if !Passes(rows, m) then 2 else if answer.Accepted? || RetriesAfter(m, answer.TransientError?) then 7 else 8
    }

    lemma {:induction false} WalkConcat(v: View, o: Outcome, a: nat, b: nat, tag: nat)
      ensures Walk(v, o, a + b) == Walk(Walk(v, o, a), o, b)
      ensures Script(v, o, a + b, tag) == Script(v, o, a, tag) + Script(Walk(v, o, a), o, b, tag)
    {
      if b > 0 {
        WalkConcat(v, o, a, b - 1, tag);
        OneMore(v, o, a + b, tag, Walk(v, o, a + b - 1));
        OneMore(Walk(v, o, a), o, b, tag, Walk(Walk(v, o, a), o, b - 1));
      }
    }

    lemma SkipWalk(v: View, o: Outcome, tag: nat)
      requires v.pc == Received && v.frames == [] && !Passes(v.rows, v.body)
      ensures Walk(v, o, 2) == v.(pc := Done(EndOfCall(v.rows, v.body, o)), frames := [Ack])
      ensures Script(v, o, 2, tag) == [FoundRow(v.body.id), Issued(BasicAck(tag))]
      ensures !Walk(v, o, 1).pc.Done?
    {
      OneMore(v, o, 1, tag, v);
      OneMore(v, o, 2, tag, v.(pc := ReadyToAck(EndOfCall(v.rows, v.body, o))));
    }

    /** The first three statements of a handling that passes the test. */
    lemma AskWalk(v: View, o: Outcome, tag: nat)
      requires v.pc == Received && v.frames == [] && Passes(v.rows, v.body)
      ensures Walk(v, o, 3) == v.(rows := SetStatus(v.rows, v.body.id, Processing),
                                  pc := if o.Accepted? then SendOk else SendFailed(o.TransientError?),
                                  sends := v.sends + [o])
      ensures Script(v, o, 3, tag) == [FoundRow(v.body.id), Marked(v.body.id, Processing), Asked(o)]
    {
      var v1 := v.(pc := Admitted);
      var v2 := v1.(rows := SetStatus(v.rows, v.body.id, Processing), pc := Sending);
      OneMore(v, o, 1, tag, v);
      OneMore(v, o, 2, tag, v1);
      OneMore(v, o, 3, tag, v2);
    }

    lemma RecordMarkWalk(v: View, o: Outcome, tag: nat)
      requires v.channel == channel && v.pc == SendOk && v.frames == []
      ensures var m := v.body;
              && Walk(v, o, 2) == v.(rows := SetStatus(v.rows, m.id, Sent),
                                     attempts := Record(v.attempts, m.id, m.attempt, channel, Success),
                                     pc := MarkedSent)
              && Script(v, o, 2, tag) == [RecordedAttempt(m.id, m.attempt, channel, Success), Marked(m.id, Sent)]
    {
      var m := v.body;
      OneMore(v, o, 1, tag, v);
      OneMore(v, o, 2, tag, v.(attempts := Record(v.attempts, m.id, m.attempt, channel, Success), pc := RecordedOk));
    }

    lemma DeliveredWalk(v: View, o: Outcome, tag: nat)
      requires v.channel == channel && v.pc == SendOk && v.frames == []
      ensures var m := v.body;
              && Walk(v, o, 4) == v.(rows := Increment(SetStatus(v.rows, m.id, Sent), m.id),
                                     attempts := Record(v.attempts, m.id, m.attempt, channel, Success),
                                     pc := Done(Delivered), frames := [Ack])
              && Script(v, o, 4, tag) == DeliveredScript(m, tag)
              && !Walk(v, o, 3).pc.Done?
    {
      RecordMarkWalk(v, o, tag);
      var v2 := Walk(v, o, 2);
      OneMore(v, o, 3, tag, v2);
      OneMore(v, o, 4, tag, v2.(rows := Increment(v2.rows, v.body.id), pc := ReadyToAck(Delivered)));
    }

    lemma FailedWalk(v: View, o: Outcome, transient: bool, tag: nat)
      requires v.channel == channel && v.pc == SendFailed(transient) && v.frames == []
      ensures var m := v.body;
              && Walk(v, o, 2) == v.(rows := Increment(v.rows, m.id),
                                     attempts := Record(v.attempts, m.id, m.attempt, channel, FailureStatus(transient)),
                                     pc := RecordedFail(transient))
              && Script(v, o, 2, tag) ==
                   [CountedAttempt(m.id), RecordedAttempt(m.id, m.attempt, channel, FailureStatus(transient))]
    {
      OneMore(v, o, 1, tag, v);
      OneMore(v, o, 2, tag, v.(rows := Increment(v.rows, v.body.id), pc := Counted(transient)));
    }

    lemma RetriedWalk(v: View, o: Outcome, tag: nat)
      requires v.channel == channel && v.pc == RecordedFail(true) && v.frames == [] && RetriesAfter(v.body, true)
      ensures Walk(v, o, 2) == v.(pc := Done(Retried), frames := AttemptFrames(v.body, TransientError))
      ensures Script(v, o, 2, tag) == [Issued(RetryPublish(v.body)), Issued(BasicAck(tag))]
      ensures !Walk(v, o, 1).pc.Done?
    {
      OneMore(v, o, 1, tag, v);
      OneMore(v, o, 2, tag, v.(pc := ReadyToAck(Retried), frames := AttemptFrames(v.body, TransientError)[..1]));
    }

    lemma PublishMarkWalk(v: View, o: Outcome, transient: bool, tag: nat)
      requires v.channel == channel && v.pc == RecordedFail(transient) && v.frames == []
      requires !RetriesAfter(v.body, transient)
      ensures Walk(v, o, 2) == v.(rows := SetStatus(v.rows, v.body.id, DeadLettered), pc := ReadyToAck(Parked),
                                  frames := [PublishDlq(channel, v.body)])
      ensures Script(v, o, 2, tag) == [Issued(DlqPublish(v.body)), Marked(v.body.id, DeadLettered)]
    {
      OneMore(v, o, 1, tag, v);
      OneMore(v, o, 2, tag, v.(pc := DlqPublished, frames := [PublishDlq(channel, v.body)]));
    }

    lemma ParkedWalk(v: View, o: Outcome, transient: bool, tag: nat)
      requires v.channel == channel && v.pc == RecordedFail(transient) && v.frames == []
      requires !RetriesAfter(v.body, transient)
      ensures Walk(v, o, 3) == v.(rows := SetStatus(v.rows, v.body.id, DeadLettered), pc := Done(Parked),
                                  frames := [PublishDlq(channel, v.body), Ack])
      ensures Script(v, o, 3, tag) ==
              [Issued(DlqPublish(v.body)), Marked(v.body.id, DeadLettered), Issued(BasicAck(tag))]
      ensures !Walk(v, o, 2).pc.Done?
    {
      PublishMarkWalk(v, o, transient, tag);
      OneMore(v, o, 3, tag, Walk(v, o, 2));
    }

    /** The view after the first five steps of a failing handling. */
    function FailedView(v: View, o: Outcome): View {
      var m := v.body;
      v.(rows := Increment(SetStatus(v.rows, m.id, Processing), m.id),
         attempts := Record(v.attempts, m.id, m.attempt, channel, FailureStatus(o.TransientError?)),
         pc := RecordedFail(o.TransientError?), sends := v.sends + [o])
    }

    function FailedStart(m: Message, o: Outcome): seq<Statement> {
      [FoundRow(m.id), Marked(m.id, Processing), Asked(o), CountedAttempt(m.id),
       RecordedAttempt(m.id, m.attempt, channel, FailureStatus(o.TransientError?))]
    }

    lemma FailedBase(v: View, o: Outcome, tag: nat)
      requires Starts(v) && Passes(v.rows, v.body) && !o.Accepted?
      ensures Walk(v, o, 5) == FailedView(v, o) && Script(v, o, 5, tag) == FailedStart(v.body, o)
    {
      AskWalk(v, o, tag);
      var asked := v.(rows := SetStatus(v.rows, v.body.id, Processing), pc := SendFailed(o.TransientError?),
                      sends := v.sends + [o]);
      assert Walk(v, o, 3) == asked;
      FailedWalk(asked, o, o.TransientError?, tag);
      WalkConcat(v, o, 3, 2, tag);
    }

    ghost function AnswerTo(w: World, m: Message, start: nat, provided: Outcome): Outcome {
      if Passes(w.rows, m) then AnswerIn(w, w.rows[m.id].channel, start, provided) else provided
    }

    /** The tables, frames and statements of a whole call, spelled out. */
    function Outline(rows: map<Id, Row>, attempts: map<(Id, nat), AttemptRow>, m: Message, answer: Outcome, tag: nat)
      : (map<Id, Row>, map<(Id, nat), AttemptRow>, seq<Frame>, seq<Statement>)
    {
      var processing := SetStatus(rows, m.id, Processing);
      var asked := [FoundRow(m.id), Marked(m.id, Processing), Asked(answer)];
      var failed := Increment(processing, m.id);
      var transient := answer.TransientError?;
      var recorded := Record(attempts, m.id, m.attempt, channel, FailureStatus(transient));
      if !Passes(rows, m) then (rows, attempts, [Ack], [FoundRow(m.id), Issued(BasicAck(tag))])
      else if answer.Accepted? then
        (Increment(SetStatus(processing, m.id, Sent), m.id), Record(attempts, m.id, m.attempt, channel, Success), [Ack],
         asked + DeliveredScript(m, tag))
      else if RetriesAfter(m, transient) then
        (failed, recorded, AttemptFrames(m, answer), asked + [CountedAttempt(m.id)] + RetryScript(m, tag))
      else
        (SetStatus(failed, m.id, DeadLettered), recorded, AttemptFrames(m, answer),
         asked + [CountedAttempt(m.id)] + ParkScript(m, transient, tag))
    }

    /** The walk through the whole call is what the outline says. */
    ghost predicate WalkOutlined(v: View, answer: Outcome, tag: nat) {
      var n := Length(v.rows, v.body, answer);
      var end := Walk(v, answer, n);
      && (end.rows, end.attempts, end.frames, Script(v, answer, n, tag)) ==
         Outline(v.rows, v.attempts, v.body, answer, tag)
      && end.pc == Done(EndOfCall(v.rows, v.body, answer)) && !Walk(v, answer, n - 1).pc.Done?
      && end.sends == v.sends + if Passes(v.rows, v.body) then [answer] else []
    }

    predicate Starts(v: View) { v.channel == channel && v.pc == Received && v.frames == [] }

    lemma SkippedOutlined(v: View, answer: Outcome, tag: nat)
      requires Starts(v) && !Passes(v.rows, v.body)
      ensures WalkOutlined(v, answer, tag)
    {
      SkipWalk(v, answer, tag);
    }

    lemma DeliveredOutlined(v: View, tag: nat)
      requires Starts(v) && Passes(v.rows, v.body)
      ensures WalkOutlined(v, Accepted, tag)
    {
      AskWalk(v, Accepted, tag);
      DeliveredWalk(Walk(v, Accepted, 3), Accepted, tag);
      WalkConcat(v, Accepted, 3, 4, tag);
      WalkConcat(v, Accepted, 3, 3, tag);
    }

    lemma RetriedOutlined(v: View, tag: nat)
      requires Starts(v) && Passes(v.rows, v.body) && RetriesAfter(v.body, true)
      ensures WalkOutlined(v, TransientError, tag)
    {
      FailedBase(v, TransientError, tag);
      RetriedWalk(FailedView(v, TransientError), TransientError, tag);
      WalkConcat(v, TransientError, 5, 1, tag);
      WalkConcat(v, TransientError, 5, 2, tag);
      RetryList(v.body, tag);
    }

    lemma RetryList(m: Message, tag: nat)
      ensures FailedStart(m, TransientError) + [Issued(RetryPublish(m)), Issued(BasicAck(tag))] ==
              [FoundRow(m.id), Marked(m.id, Processing), Asked(TransientError)] + [CountedAttempt(m.id)]
              + RetryScript(m, tag)
    {
    }

    lemma ParkedOutlined(v: View, answer: Outcome, tag: nat)
      requires Starts(v) && Passes(v.rows, v.body)
      requires !answer.Accepted? && !RetriesAfter(v.body, answer.TransientError?)
      ensures WalkOutlined(v, answer, tag)
    {
      FailedBase(v, answer, tag);
      ParkedWalk(FailedView(v, answer), answer, answer.TransientError?, tag);
      WalkConcat(v, answer, 5, 2, tag);
      WalkConcat(v, answer, 5, 3, tag);
      ParkList(v.body, answer, tag);
    }

    lemma ParkList(m: Message, answer: Outcome, tag: nat)
      ensures FailedStart(m, answer) + [Issued(DlqPublish(m)), Marked(m.id, DeadLettered), Issued(BasicAck(tag))] ==
              [FoundRow(m.id), Marked(m.id, Processing), Asked(answer)] + [CountedAttempt(m.id)]
              + ParkScript(m, answer.TransientError?, tag)
    {
    }

    lemma WalkIsOutlined(v: View, answer: Outcome, tag: nat)
      requires Starts(v)
      ensures WalkOutlined(v, answer, tag)
    {
      if !Passes(v.rows, v.body) {
        SkippedOutlined(v, answer, tag);
      } else if answer.Accepted? {
        DeliveredOutlined(v, tag);
      } else if RetriesAfter(v.body, answer.TransientError?) {
        RetriedOutlined(v, tag);
      } else {
        ParkedOutlined(v, answer, tag);
      }
    }

    /** The world after OnMessage is what the outline says. */
    ghost predicate WorldOutlined(w: World, w': World, m: Message, answer: Outcome, tag: nat) {
      var (rows, attempts, frames, script) := Outline(w.rows, w.attempts, m, answer, tag);
      && w'.rows == rows && w'.attempts == attempts
      && w'.socket == w.socket + EncodeAll(frames, tag) && w'.entries == w.entries + script
    }

    lemma WorldSkipped(w: World, m: Message, answer: Outcome, tag: nat)
      requires !Passes(w.rows, m)
      ensures WorldOutlined(w, AfterAck(w.(entries := w.entries + [FoundRow(m.id)]), tag), m, answer, tag)
    {
      EncodeSnoc([], Ack, tag);
    }

    /** The world when the provider has answered. */
    ghost predicate AskedWorld(w: World, asked: World, m: Message, answer: Outcome) {
      && asked.rows == SetStatus(w.rows, m.id, Processing) && asked.attempts == w.attempts && asked.socket == w.socket
      && asked.entries == w.entries + [FoundRow(m.id), Marked(m.id, Processing), Asked(answer)]
    }

    lemma WorldDelivered(w: World, asked: World, m: Message, tag: nat)
      requires Passes(w.rows, m) && AskedWorld(w, asked, m, Accepted)
      ensures WorldOutlined(w, AfterDelivered(asked, m, tag), m, Accepted, tag)
    {
      EncodeSnoc([], Ack, tag);
    }

    lemma WorldRetried(w: World, asked: World, m: Message, tag: nat)
      requires Passes(w.rows, m) && AskedWorld(w, asked, m, TransientError) && RetriesAfter(m, true)
      ensures WorldOutlined(w, AfterFailed(asked, m, true, tag), m, TransientError, tag)
    {
      assert EncodeAll(AttemptFrames(m, TransientError), tag) == [RetryPublish(m), BasicAck(tag)];
    }

    lemma WorldParked(w: World, asked: World, m: Message, answer: Outcome, tag: nat)
      requires Passes(w.rows, m) && AskedWorld(w, asked, m, answer)
      requires !answer.Accepted? && !RetriesAfter(m, answer.TransientError?)
      ensures WorldOutlined(w, AfterFailed(asked, m, answer.TransientError?, tag), m, answer, tag)
    {
      assert EncodeAll(AttemptFrames(m, answer), tag) == [DlqPublish(m), BasicAck(tag)];
    }

    lemma WorldIsOutlined(w: World, m: Message, tag: nat, start: nat, finish: nat, provided: Outcome)
      requires ClocksBefore(w, start) && finish >= start
      ensures WorldOutlined(w, AfterMessage(w, m, tag, start, finish, provided), m,
                            AnswerTo(w, m, start, provided), tag)
    {
      var answer := AnswerTo(w, m, start, provided);
      if !Passes(w.rows, m) {
        WorldSkipped(w, m, answer, tag);
      } else {
        var route := w.rows[m.id].channel;
        var asked := AfterAsking(w.(entries := w.entries + [FoundRow(m.id)]), m, route, start, finish, provided);
        assert AskedWorld(w, asked, m, answer);
        if answer.Accepted? {
          WorldDelivered(w, asked, m, tag);
        } else if RetriesAfter(m, answer.TransientError?) {
          WorldRetried(w, asked, m, tag);
        } else {
          WorldParked(w, asked, m, answer, tag);
        }
      }
    }

    /**
     The call is a run of Protocol. For a message that is delivery `t` of `s`, what OnMessage makes of the database is
     what the steps of the handler make of it, the journal's entries are these steps one by one in their order, the
     frames on the socket are those the run issued, the results of its sends are the one answer of the router, and
     the handler has returned on the branch of that answer.
     */
    lemma CallIsRun(w: World, s: State, t: nat, tag: nat, start: nat, finish: nat, provided: Outcome)
      requires ClocksBefore(w, start) && finish >= start
      requires IsUnacked(s, t) && s.copies[t].place == Unacked(index, Received, []) && s.copies[t].channel == channel
      requires s.rows == w.rows && s.attempts == w.attempts
      ensures var m := s.copies[t].body;
              var answer := AnswerTo(w, m, start, provided);
              var n := Length(w.rows, m, answer);
              var w' := AfterMessage(w, m, tag, start, finish, provided);
              var end := Exec(cfg, s, Steps(t, answer, n));
              && end.Some? && OnlyHandled(s, end.value, t)
              && end.value.rows == w'.rows && end.value.attempts == w'.attempts
              && end.value.copies[t].place.pc == Done(EndOfCall(w.rows, m, answer))
              && w'.socket == w.socket + EncodeAll(end.value.copies[t].place.unsent, tag)
              && w'.entries == w.entries + Spelled(s, t, answer, n, tag)
              && TallyOf(end.value, m.id).outcomes ==
                   TallyOf(s, m.id).outcomes + if Passes(w.rows, m) then [answer] else []
    {
      var m := s.copies[t].body;
      var answer := AnswerTo(w, m, start, provided);
      var n := Length(w.rows, m, answer);
      WalkIsOutlined(ViewOf(s, t), answer, tag);
      WorldIsOutlined(w, m, tag, start, finish, provided);
      var end := WalkIsRun(s, t, answer, n);
      WalkIsSpelled(s, t, answer, n, tag);
    }
  }

  // ---------------------------------------------------------------- worker pool

  function Repeat(c: Channel, n: int): seq<Channel> {
    if n <= 0 then [] else Repeat(c, n - 1) + [c]
  }

  /** The nested loops of the WorkerPool constructor. */
  method BuildPool(workersPerChannel: int) returns (workers: seq<Channel>)
    ensures workers == Pool(3, workersPerChannel)
  {
    workers := [];
    for ch := 0 to 3
      invariant workers == Pool(ch, workersPerChannel)
    {
      ghost var before := workers;
      var i := 0;
      while i < workersPerChannel
        invariant 0 <= i && (i <= workersPerChannel || i == 0)
        invariant workers == before + Repeat(CHANNELS[ch], i)
      {
        workers := workers + [CHANNELS[ch]];
        i := i + 1;
      }
      assert Repeat(CHANNELS[ch], i) == Repeat(CHANNELS[ch], workersPerChannel);
    }
  }

  /** `n` workers for each of the first `channels` channels. */
  function Pool(channels: nat, n: int): seq<Channel>
    requires channels <= 3
  {
    if channels == 0 then [] else Pool(channels - 1, n) + Repeat(CHANNELS[channels - 1], n)
  }

  lemma {:induction false} RepeatAll(c: Channel, n: int)
    ensures |Repeat(c, n)| == (if n <= 0 then 0 else n) && forall i :: 0 <= i < |Repeat(c, n)| ==> Repeat(c, n)[i] == c
  {
    if n > 0 {
      RepeatAll(c, n - 1);
    }
  }

  lemma PoolLayout(n: int)
    ensures Pool(3, n) == Repeat(Email, n) + Repeat(Sms, n) + Repeat(Push, n)
    ensures |Pool(3, n)| == 3 * (if n <= 0 then 0 else n)
    ensures forall i :: 0 <= i < |Pool(3, n)| ==>
              Pool(3, n)[i] == if i < n then Email else if i < 2 * n then Sms else Push
  {
    assert Pool(1, n) == Repeat(Email, n);
    assert Pool(2, n) == Pool(1, n) + Repeat(Sms, n);
    RepeatAll(Email, n);
    RepeatAll(Sms, n);
    RepeatAll(Push, n);
  }

  /** Every channel has a worker if and only if workersPerChannel is positive. */
  lemma PoolStaffedIff(cfg: Config, n: int)
    requires cfg.workers == Pool(3, n)
    ensures Staffed(cfg) <==> n >= 1
    ensures |cfg.workers| == 3 * (if n <= 0 then 0 else n)
  {
    PoolLayout(n);
    if n >= 1 {
      assert cfg.workers[0] == Email && cfg.workers[n] == Sms && cfg.workers[2 * n] == Push;
      forall c: Channel ensures HasWorker(cfg, c) {
        match c
        case Email => assert cfg.workers[0] == c;
        case Sms => assert cfg.workers[n] == c;
        case Push => assert cfg.workers[2 * n] == c;
      }
    } else {
      assert !HasWorker(cfg, Email);
    }
  }

  // ---------------------------------------------------------------- POST /api/notifications

  class HttpServer {
    const notifications: NotificationRepository
    const publisher: AmqpChannel

    constructor (notifications: NotificationRepository, publisher: AmqpChannel)
      ensures this.notifications == notifications && this.publisher == publisher
    {
      this.notifications, this.publisher := notifications, publisher;
    }

    /**
     The POST branch of handleConnection for a well-formed request. The call is a run of Protocol that leaves the
     request at Publishing, with its message on the publisher's socket.
     */
    method HandlePost(cfg: Config, key: Key, channel: Channel, priority: Priority, uuid: Id, ghost s: State)
      returns (id: Id, ghost trace: seq<Action>, ghost s': State)
      requires s.rows == notifications.rows && s.outbox == notifications.outbox && uuid !in notifications.rows
      requires notifications.journal == publisher.journal
      modifies notifications, publisher, publisher.journal`entries
      ensures Exec(cfg, s, trace) == Some(s')
      ensures s'.rows == notifications.rows && s'.outbox == notifications.outbox
      ensures s'.copies == s.copies && s'.attempts == s.attempts && s'.tally == s.tally
      ensures id in notifications.rows && notifications.rows[id].key == key
      ensures id in old(notifications.rows) <==>
              exists i :: i in old(notifications.rows) && old(notifications.rows)[i].key == key
      ensures s'.posts == s.posts + [Post(key, channel, priority,
                Publishing(id, notifications.rows[id].channel, notifications.rows[id].priority))]
      ensures publisher.socket == old(publisher.socket) +
                [PostFrame(id, notifications.rows[id].channel, notifications.rows[id].priority)]
      ensures publisher.journal.entries == old(publisher.journal.entries)
                + (if id in old(notifications.rows) then [] else [InsertedRow(id)])
                + [Issued(publisher.socket[|publisher.socket| - 1])]
      ensures forall delays, queues, bindings :: IsTopology(delays, queues, bindings) ==>
                Receivers(queues, bindings, publisher.socket[|publisher.socket| - 1]) ==
                {MainQueue(notifications.rows[id].channel)}
    {
      var saved;
      id, saved := notifications.InsertWithOutbox(key, channel, priority, uuid);
      var weight := PriorityWeight(saved.priority);
      publisher.Publish(EXCHANGE, RoutingKey(saved.channel), Message(id, 1, weight), Some(weight));
      trace, s' := PostRun(cfg, s, key, channel, priority, id, uuid);
      forall delays, queues, bindings | IsTopology(delays, queues, bindings)
        ensures RouteTopic(bindings, EXCHANGE, RoutingKey(saved.channel)) == {MainQueue(saved.channel)}
      {
        RoutedToOwnMainQueue(delays, queues, bindings, saved.channel);
      }
    }

    /** The run of a POST whose insertWithOutbox returned `id`, up to its publish. */
    lemma PostRun(cfg: Config, s: State, key: Key, channel: Channel, priority: Priority, id: Id, uuid: Id)
      returns (trace: seq<Action>, s': State)
      requires uuid !in s.rows
      requires if KeyTaken(s, key) then id in s.rows && s.rows[id].key == key else id == uuid
      ensures Exec(cfg, s, trace) == Some(s')
      ensures s'.copies == s.copies && s'.attempts == s.attempts && s'.tally == s.tally
      ensures s'.rows == if KeyTaken(s, key) then s.rows else s.rows[uuid := Row(key, channel, priority, Pending, 0)]
      ensures s'.outbox == if KeyTaken(s, key) then s.outbox else s.outbox + [OutboxEvent(uuid, uuid)]
      ensures s'.posts == s.posts + [Post(key, channel, priority,
                Publishing(id, s'.rows[id].channel, s'.rows[id].priority))]
    {
      var p := |s.posts|;
      trace, s' := [Arrive(key, channel, priority)], Apply(cfg, s, Arrive(key, channel, priority));
      ExecSnoc(cfg, s, [], Arrive(key, channel, priority));
      assert [] + trace == trace;
      if KeyTaken(s, key) {
        ExecSnoc(cfg, s, trace, LookUp(p, Some(id)));
        trace, s' := trace + [LookUp(p, Some(id))], Apply(cfg, s', LookUp(p, Some(id)));
      } else {
        ExecSnoc(cfg, s, trace, LookUp(p, None));
        trace, s' := trace + [LookUp(p, None)], Apply(cfg, s', LookUp(p, None));
        ExecSnoc(cfg, s, trace, Insert(p, uuid));
        trace, s' := trace + [Insert(p, uuid)], Apply(cfg, s', Insert(p, uuid));
      }
      ExecSnoc(cfg, s, trace, PublishPost(p));
      trace, s' := trace + [PublishPost(p)], Apply(cfg, s', PublishPost(p));
    }
  }
}
