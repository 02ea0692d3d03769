/**
 The delivery protocol as a transition system.

 Every SQL statement, every call on the AMQP channel and every broker event is one action. A message copy is
 never forgotten: `copies` lists all copies ever placed on a queue, in the order the broker received them, and
 a copy's `place` says where it is now. A delivered copy carries the program counter of the `onMessage` call
 that handles it and the frames that call has issued but the socket has not sent. The end of a worker's process is
 one `Requeue` for each of its unacknowledged deliveries, and ends their calls (see module Wire; module Survivors
 has calls that go on).
 */
module Protocol {
  import opened Domain

  /** Frames a handler issues on its AMQP channel. */
  datatype Frame =
    | PublishRetry(channel: Channel, rung: nat, body: Message, envelopePriority: nat)
    | PublishDlq(channel: Channel, body: Message)
    | Ack

  /** Why a handler reaches its final ack. */
  datatype Why = Missing | Skipped | Delivered | Retried | Parked

  /** The statement of `onMessage` that runs next. */
  datatype Pc =
    | Received                       // findById
    | Admitted                       // markProcessing
    | Sending                        // router.send
    | SendOk                         // record SUCCESS
    | RecordedOk                     // markSent
    | MarkedSent                     // incrementAttemptCount
    | SendFailed(transient: bool)    // incrementAttemptCount
    | Counted(transient: bool)       // record the failure
    | RecordedFail(transient: bool)  // publish to the ladder or to the DLQ
    | DlqPublished                   // markDeadLettered
    | ReadyToAck(why: Why)           // ack
    | Done(why: Why)                 // returned

  datatype Place =
    | Main
    | Retry(rung: nat, since: nat)
    | Unacked(worker: nat, pc: Pc, unsent: seq<Frame>)
    | DeadLetter
    | Acked
    | Unroutable  // published to a queue nobody declared: the broker drops it

  /** A message on some queue of `channel`; `submitted` is when the first message of its chain was queued. */
  datatype Copy = Copy(body: Message, channel: Channel, envelopePriority: nat, submitted: nat, place: Place)

  /** Where a POST request is; a stored request knows the row `insertWithOutbox` returned to it. */
  datatype Stage =
    | Arrived
    | KeyFree
    | Stored(id: Id, rowChannel: Channel, rowPriority: Priority)
    | Publishing(id: Id, rowChannel: Channel, rowPriority: Priority)  // answered, frame not sent yet
    | Published(id: Id, rowChannel: Channel, rowPriority: Priority)
    | Aborted

  datatype Post = Post(key: Key, channel: Channel, priority: Priority, stage: Stage)

  /** History of one notification: no action reads it. */
  datatype Tally = Tally(
    published: nat,        // messages of its POSTs that reached the broker
    requeued: nat,         // deliveries returned to the main queue
    executions: nat,       // onMessage calls begun
    lostSuccesses: nat,    // deliveries returned between a successful send and markSent
    outcomes: seq<Outcome> // results of router.send
  )

  datatype State = State(
    now: nat,
    rows: map<Id, Row>,
    attempts: map<(Id, nat), AttemptRow>,
    outbox: seq<OutboxEvent>,
    posts: seq<Post>,
    copies: seq<Copy>,
    tally: map<Id, Tally>
  )

  datatype Action =
    | Arrive(key: Key, channel: Channel, priority: Priority)
    | LookUp(post: nat, found: Option<Id>)
    | Insert(post: nat, id: Id)
    | PublishPost(post: nat)
    | FlushPost(post: nat)
    | AbortPost(post: nat)
    | Deliver(copy: nat, worker: nat)
    | Handle(copy: nat, outcome: Outcome)
    | Flush(copy: nat)
    | Expire(copy: nat)
    | Requeue(copy: nat)
    | Tick(ms: nat)

  const NO_TALLY := Tally(0, 0, 0, 0, [])

  function Init(): State {
    State(0, map[], map[], [], [], [], map[])
  }

  function TallyOf(s: State, id: Id): Tally {
    if id in s.tally then s.tally[id] else NO_TALLY
  }

  // ---------------------------------------------------------------- database statements

  function SetStatus(rows: map<Id, Row>, id: Id, status: Status): map<Id, Row> {
    if id in rows then rows[id := rows[id].(status := status)] else rows
  }

  function Increment(rows: map<Id, Row>, id: Id): map<Id, Row> {
    if id in rows then rows[id := rows[id].(attemptCount := rows[id].attemptCount + 1)] else rows
  }

  /** INSERT ... ON DUPLICATE KEY UPDATE: the channel column of an existing row is not overwritten. */
  function Record(attempts: map<(Id, nat), AttemptRow>, id: Id, attempt: nat, channel: Channel,
                  status: AttemptStatus): map<(Id, nat), AttemptRow> {
    if (id, attempt) in attempts
    then attempts[(id, attempt) := attempts[(id, attempt)].(status := status)]
    else attempts[(id, attempt) := AttemptRow(channel, status)]
  }

  predicate KeyTaken(s: State, key: Key) {
    exists id :: id in s.rows && s.rows[id].key == key
  }

  // ---------------------------------------------------------------- onMessage, statement by statement

  predicate Exhausted(cfg: Config, attempt: nat) {
    attempt > cfg.maxRetries
  }

  function NextPc(cfg: Config, rows: map<Id, Row>, body: Message, pc: Pc, outcome: Outcome): Pc
    requires !pc.Done?
  {
    match pc
    case Received =>
      if body.id !in rows then ReadyToAck(Missing)
      else if rows[body.id].status.Cancelled? || rows[body.id].status.Sent? then ReadyToAck(Skipped)
      else Admitted
    case Admitted => Sending
    case Sending =>
      (match outcome
       case Accepted => SendOk
       case TransientError => SendFailed(true)
       case PermanentError => SendFailed(false))
    case SendOk => RecordedOk
    case RecordedOk => MarkedSent
    case MarkedSent => ReadyToAck(Delivered)
    case SendFailed(t) => Counted(t)
    case Counted(t) => RecordedFail(t)
    case RecordedFail(t) => if t && !Exhausted(cfg, body.attempt) then ReadyToAck(Retried) else DlqPublished
    case DlqPublished => ReadyToAck(Parked)
    case ReadyToAck(why) => Done(why)
  }

  function RowsAfter(rows: map<Id, Row>, id: Id, pc: Pc): map<Id, Row> {
    match pc
    case Admitted => SetStatus(rows, id, Processing)
    case RecordedOk => SetStatus(rows, id, Sent)
    case DlqPublished => SetStatus(rows, id, DeadLettered)
    case MarkedSent => Increment(rows, id)
    case SendFailed(_) => Increment(rows, id)
    case _ => rows
  }

  function AttemptsAfter(attempts: map<(Id, nat), AttemptRow>, body: Message, channel: Channel, pc: Pc)
    : map<(Id, nat), AttemptRow>
  {
    match pc
    case SendOk => Record(attempts, body.id, body.attempt, channel, Success)
    case Counted(t) =>
      Record(attempts, body.id, body.attempt, channel, if t then TransientFailure else PermanentFailure)
    case _ => attempts
  }

  function FramesAfter(cfg: Config, body: Message, channel: Channel, pc: Pc): seq<Frame> {
    match pc
    case RecordedFail(t) =>
      if t && !Exhausted(cfg, body.attempt)
      then [PublishRetry(channel, body.attempt, body.(attempt := body.attempt + 1), body.priority)]
      else [PublishDlq(channel, body)]
    case ReadyToAck(_) => [Ack]
    case _ => []
  }

  function TallyAfter(tally: Tally, pc: Pc, outcome: Outcome): Tally {
    match pc
    case Received => tally.(executions := tally.executions + 1)
    case Sending => tally.(outcomes := tally.outcomes + [outcome])
    case _ => tally
  }

  /** The delivery is between a successful send and markSent. */
  predicate InSuccessWindow(pc: Pc) {
    pc.SendOk? || pc.RecordedOk?
  }

  // ---------------------------------------------------------------- the transition system

  predicate IsPost(s: State, p: nat) { p < |s.posts| }

  predicate IsUnacked(s: State, t: nat) { t < |s.copies| && s.copies[t].place.Unacked? }

  predicate Enabled(cfg: Config, s: State, a: Action) {
    match a
    case Arrive(_, _, _) => true
    case LookUp(p, found) =>
      && IsPost(s, p) && s.posts[p].stage.Arrived?
      && (match found
          case Some(id) => id in s.rows && s.rows[id].key == s.posts[p].key
          case None => !KeyTaken(s, s.posts[p].key))
    case Insert(p, id) => IsPost(s, p) && s.posts[p].stage.KeyFree? && id !in s.rows
    case PublishPost(p) => IsPost(s, p) && s.posts[p].stage.Stored?
    case FlushPost(p) => IsPost(s, p) && s.posts[p].stage.Publishing?
    case AbortPost(p) => IsPost(s, p) && !s.posts[p].stage.Published?
    case Deliver(t, w) =>
      && t < |s.copies| && s.copies[t].place.Main?
      && w < |cfg.workers| && cfg.workers[w] == s.copies[t].channel
    case Handle(t, _) => IsUnacked(s, t) && !s.copies[t].place.pc.Done?
    case Flush(t) => IsUnacked(s, t) && s.copies[t].place.unsent != []
    case Expire(t) =>
      && t < |s.copies| && s.copies[t].place.Retry?
      && 1 <= s.copies[t].place.rung <= |cfg.retryDelaysMs|
      && s.now >= s.copies[t].place.since + cfg.retryDelaysMs[s.copies[t].place.rung - 1]
    case Requeue(t) => IsUnacked(s, t)
    case Tick(_) => true
  }

  /** Clients, clocks and expiry: actions in which no worker and no worker's connection takes part. */
  predicate Outer(a: Action) {
    !a.Deliver? && !a.Handle? && !a.Flush? && !a.Requeue?
  }

  function MovePost(s: State, p: nat, stage: Stage): State
    requires IsPost(s, p)
  {
    s.(posts := s.posts[p := s.posts[p].(stage := stage)])
  }

  function MoveCopy(s: State, t: nat, place: Place): State
    requires t < |s.copies|
  {
    s.(copies := s.copies[t := s.copies[t].(place := place)])
  }

  function InsertRow(s: State, p: nat, id: Id): State
    requires IsPost(s, p)
  {
    var post := s.posts[p];
    if KeyTaken(s, post.key) then MovePost(s, p, Aborted)  // unique key violated: rollback, no publish
    else MovePost(s, p, Stored(id, post.channel, post.priority)).(
           rows := s.rows[id := Row(post.key, post.channel, post.priority, Pending, 0)],
           outbox := s.outbox + [OutboxEvent(id, id)])
  }

  /** The broker receives the message of a POST: the exchange routes it to the channel's main queue. */
  function Submit(s: State, p: nat): State
    requires IsPost(s, p) && s.posts[p].stage.Publishing?
  {
    var Publishing(id, channel, priority) := s.posts[p].stage;
    var weight := PriorityWeight(priority);
    MovePost(s, p, Published(id, channel, priority)).(
      copies := s.copies + [Copy(Message(id, 1, weight), channel, weight, s.now, Main)],
      tally := s.tally[id := TallyOf(s, id).(published := TallyOf(s, id).published + 1)])
  }

  function HandleStep(cfg: Config, s: State, t: nat, outcome: Outcome): State
    requires IsUnacked(s, t) && !s.copies[t].place.pc.Done?
  {
    var Copy(body, channel, _, _, Unacked(w, pc, unsent)) := s.copies[t];
    MoveCopy(s, t, Unacked(w, NextPc(cfg, s.rows, body, pc, outcome),
                           unsent + FramesAfter(cfg, body, channel, pc))).(
      rows := RowsAfter(s.rows, body.id, pc),
      attempts := AttemptsAfter(s.attempts, body, channel, pc),
      tally := s.tally[body.id := TallyAfter(TallyOf(s, body.id), pc, outcome)])
  }

  /** The retry queues declareAll built are those of rungs 1 to |retryDelaysMs| (module Topology). */
  function ArrivalPlace(cfg: Config, rung: nat, now: nat): Place {
    if 1 <= rung <= |cfg.retryDelaysMs| then Retry(rung, now) else Unroutable
  }

  /** The broker receives frame `f`, the next one sent on behalf of delivery `t`. */
  function BrokerApply(cfg: Config, s: State, t: nat, f: Frame): State
    requires IsUnacked(s, t) && s.copies[t].place.unsent != []
  {
    var c := s.copies[t];
    var s1 := MoveCopy(s, t, c.place.(unsent := c.place.unsent[1..]));
    match f
    case Ack => MoveCopy(s, t, Acked)
    case PublishRetry(channel, rung, body, priority) =>
      s1.(copies := s1.copies + [Copy(body, channel, priority, c.submitted, ArrivalPlace(cfg, rung, s.now))])
    case PublishDlq(channel, body) =>
      s1.(copies := s1.copies + [Copy(body, channel, 0, c.submitted, DeadLetter)])
  }

  function ReturnToMain(s: State, t: nat): State
    requires IsUnacked(s, t)
  {
    var id := s.copies[t].body.id;
    var tally := TallyOf(s, id);
    MoveCopy(s, t, Main).(
      tally := s.tally[id := tally.(requeued := tally.requeued + 1,
                                    lostSuccesses := tally.lostSuccesses +
                                    if InSuccessWindow(s.copies[t].place.pc) then 1 else 0)])
  }

  function Apply(cfg: Config, s: State, a: Action): State
    requires Enabled(cfg, s, a)
  {
    match a
    case Arrive(key, channel, priority) => s.(posts := s.posts + [Post(key, channel, priority, Arrived)])
    case LookUp(p, found) =>
      (match found
       case Some(id) => MovePost(s, p, Stored(id, s.rows[id].channel, s.rows[id].priority))
       case None => MovePost(s, p, KeyFree))
    case Insert(p, id) => InsertRow(s, p, id)
    case PublishPost(p) =>
      var Stored(id, channel, priority) := s.posts[p].stage;
      MovePost(s, p, Publishing(id, channel, priority))
    case FlushPost(p) => Submit(s, p)
    case AbortPost(p) => MovePost(s, p, Aborted)
    case Deliver(t, w) => MoveCopy(s, t, Unacked(w, Received, []))
    case Handle(t, outcome) => HandleStep(cfg, s, t, outcome)
    case Flush(t) => BrokerApply(cfg, s, t, s.copies[t].place.unsent[0])
    case Expire(t) => MoveCopy(s, t, Main)
    case Requeue(t) => ReturnToMain(s, t)
    case Tick(ms) => s.(now := s.now + ms)
  }

  /** The state a sequence of actions leads to, or None when one of them is not enabled. */
  function Exec(cfg: Config, s: State, acts: seq<Action>): Option<State>
    decreases |acts|, 1
  {
    if acts == [] then Some(s) else ExecLast(cfg, s, acts)
  }

  function ExecLast(cfg: Config, s: State, acts: seq<Action>): Option<State>
    requires acts != []
    decreases |acts|, 0
  {
    var n := |acts| - 1;
    var m := Exec(cfg, s, acts[..n]);
    if m.Some? && Enabled(cfg, m.value, acts[n]) then Some(Apply(cfg, m.value, acts[n])) else None
  }

  /** A run that goes through went through before its last action. */
  lemma LastStep(cfg: Config, s: State, acts: seq<Action>)
    requires acts != []
    ensures var n := |acts| - 1;
            var m := Exec(cfg, s, acts[..n]);
            Exec(cfg, s, acts) ==
              if m.Some? && Enabled(cfg, m.value, acts[n]) then Some(Apply(cfg, m.value, acts[n])) else None
  {
    assert Exec(cfg, s, acts) == ExecLast(cfg, s, acts);
  }

  lemma {:induction false} ExecConcat(cfg: Config, s: State, a: seq<Action>, b: seq<Action>)
    requires Exec(cfg, s, a).Some?
    ensures Exec(cfg, s, a + b) == Exec(cfg, Exec(cfg, s, a).value, b)
  {
    if b == [] {
      assert a + b == a;
    } else {
      LastStep(cfg, s, a + b);
      LastStep(cfg, Exec(cfg, s, a).value, b);
      assert (a + b)[..|a + b| - 1] == a + b[..|b| - 1];
      ExecConcat(cfg, s, a, b[..|b| - 1]);
    }
  }

  lemma ExecOne(cfg: Config, s: State, a: Action)
    ensures Exec(cfg, s, [a]) == if Enabled(cfg, s, a) then Some(Apply(cfg, s, a)) else None
  {
    LastStep(cfg, s, [a]);
    assert [a][..|[a]| - 1] == [];
  }

  lemma ExecSnoc(cfg: Config, s: State, acts: seq<Action>, a: Action)
    ensures Exec(cfg, s, acts + [a]) ==
            var m := Exec(cfg, s, acts);
            if m.Some? && Enabled(cfg, m.value, a) then Some(Apply(cfg, m.value, a)) else None
  {
    LastStep(cfg, s, acts + [a]);
    assert (acts + [a])[..|acts + [a]| - 1] == acts;
  }
}
