/**
 Where messages go on the declared broker: the frames that worker threads and the POST handler put on their sockets
 reach the queues in which Protocol keeps the message, and messages leave a queue unread exactly when Protocol says.
 */
module Routing {
  import opened Domain
  import opened Protocol
  import opened Agreement
  import opened Topology
  import opened Service

  // ---------------------------------------------------------------- what a call puts on the socket

  /** The status test lets the message through, and the provider's answer to its attempt is `answer`. */
  ghost predicate Answered(worker: WorkerThread, w: World, m: Message, start: nat, provided: Outcome, answer: Outcome) {
    && m.id in w.rows && w.rows[m.id].status !in {Sent, Cancelled}
    && worker.AnswerTo(w, m, start, provided) == answer
  }

  /** The call has issued a publish of `body` that exactly the queues `to` receive, and then its ack. */
  ghost predicate PublishesThenAcks(queues: map<string, QueueArgs>, bindings: set<Binding>, w: World, w': World,
                                    tag: nat, to: set<string>, body: Message, priority: Option<nat>) {
    && |w'.socket| == |w.socket| + 2 && w.socket < w'.socket && w'.socket[|w.socket| + 1] == BasicAck(tag)
    && var f := w'.socket[|w.socket|];
    && f.BasicPublish? && f.body == body && f.priority == priority && Receivers(queues, bindings, f) == to
  }

  /**
   A transient failure that is not the last is received by the rung of its attempt, if the ladder has one, as the next
   attempt with the priority it had; and by no other queue.
   */
  lemma RetryReachesItsRung(worker: WorkerThread, w: World, m: Message, tag: nat, start: nat, finish: nat,
                            provided: Outcome, queues: map<string, QueueArgs>, bindings: set<Binding>)
    requires worker.ClocksBefore(w, start) && finish >= start
    requires IsTopology(worker.cfg.retryDelaysMs, queues, bindings)
    requires Answered(worker, w, m, start, provided, TransientError) && m.attempt <= worker.cfg.maxRetries
    ensures PublishesThenAcks(queues, bindings, w, worker.AfterMessage(w, m, tag, start, finish, provided), tag,
                              if 1 <= m.attempt <= |worker.cfg.retryDelaysMs|
                              then {RetryQueue(worker.channel, m.attempt)} else {},
                              Message(m.id, m.attempt + 1, m.priority), Some(m.priority))
  {
    DeclaredIffRouted(worker.cfg.retryDelaysMs, queues, bindings, worker.channel, m.attempt);
  }

  /** A permanent failure, and a transient one after the last retry, is received by the dead-letter queue alone. */
  lemma FailureReachesDeadLetters(worker: WorkerThread, w: World, m: Message, tag: nat, start: nat, finish: nat,
                                  provided: Outcome, answer: Outcome, queues: map<string, QueueArgs>,
                                  bindings: set<Binding>)
    requires worker.ClocksBefore(w, start) && finish >= start
    requires IsTopology(worker.cfg.retryDelaysMs, queues, bindings)
    requires Answered(worker, w, m, start, provided, answer)
    requires answer == PermanentError || (answer == TransientError && m.attempt > worker.cfg.maxRetries)
    ensures PublishesThenAcks(queues, bindings, w, worker.AfterMessage(w, m, tag, start, finish, provided), tag,
                              {Dlq(worker.channel)}, m, None)
  {
    DeclaredIffRouted(worker.cfg.retryDelaysMs, queues, bindings, worker.channel, m.attempt);
  }

  /** An accepted message reaches no queue again. */
  lemma AcceptedIsOnlyAcked(worker: WorkerThread, w: World, m: Message, tag: nat, start: nat, finish: nat,
                            provided: Outcome)
    requires worker.ClocksBefore(w, start) && finish >= start
    requires Answered(worker, w, m, start, provided, Accepted)
    ensures worker.AfterMessage(w, m, tag, start, finish, provided).socket == w.socket + [BasicAck(tag)]
  {
  }

  // ---------------------------------------------------------------- Protocol's places are queues

  /** The queues in which Protocol has a copy wait. */
  function QueuesOf(c: Copy): set<string> {
    match c.place
    case Main => {MainQueue(c.channel)}
    case Retry(rung, _) => {RetryQueue(c.channel, rung)}
    case DeadLetter => {Dlq(c.channel)}
    case _ => {}
  }

  predicate Waits(c: Copy) { c.place.Main? || c.place.Retry? || c.place.DeadLetter? }

  /** When the frame arrives, Protocol's new copy is its message, in the queues that receive it. */
  lemma FrameArrives(cfg: Config, s: State, t: nat, tag: nat, queues: map<string, QueueArgs>, bindings: set<Binding>)
    requires IsTopology(cfg.retryDelaysMs, queues, bindings) && Enabled(cfg, s, Flush(t))
    ensures var f, s' := Encode(s.copies[t].place.unsent[0], tag), Apply(cfg, s, Flush(t));
            match f
            case BasicAck(n) => n == tag && |s'.copies| == |s.copies| && s'.copies[t].place == Acked
            case BasicPublish(_, _, body, _) =>
              && |s'.copies| == |s.copies| + 1 && s'.copies[|s.copies|].body == body
              && QueuesOf(s'.copies[|s.copies|]) == Receivers(queues, bindings, f)
              && (Waits(s'.copies[|s.copies|]) <==> Receivers(queues, bindings, f) != {})
  {
    var f := s.copies[t].place.unsent[0];
    if !f.Ack? {
      DeclaredIffRouted(cfg.retryDelaysMs, queues, bindings, f.channel, if f.PublishRetry? then f.rung else 0);
    }
  }

  /** So it is with the message of a POST: the frame HandlePost issues for the row. */
  lemma PostArrives(cfg: Config, s: State, p: nat, queues: map<string, QueueArgs>, bindings: set<Binding>)
    requires IsTopology(cfg.retryDelaysMs, queues, bindings) && Enabled(cfg, s, FlushPost(p))
    ensures var Publishing(id, channel, priority) := s.posts[p].stage;
            var f, s' := PostFrame(id, channel, priority), Apply(cfg, s, FlushPost(p));
            && |s'.copies| == |s.copies| + 1 && s'.copies[|s.copies|].body == f.body
            && f.priority == Some(s'.copies[|s.copies|].envelopePriority)
            && QueuesOf(s'.copies[|s.copies|]) == Receivers(queues, bindings, f) == {MainQueue(channel)}
  {
    RoutedToOwnMainQueue(cfg.retryDelaysMs, queues, bindings, s.posts[p].stage.rowChannel);
  }

  /** The declared queue in which a copy waits. */
  function Kind(c: Copy): Queue
    requires Waits(c)
  {
    match c.place
    case Retry(rung, _) => RetryOf(c.channel, rung)
    case DeadLetter => DlqOf(c.channel)
    case _ => MainOf(c.channel)
  }

  lemma WaitsInDeclared(cfg: Config, s: State, c: Copy, queues: map<string, QueueArgs>, bindings: set<Binding>)
    requires IsTopology(cfg.retryDelaysMs, queues, bindings) && CopyOk(cfg, s, c) && Waits(c)
    ensures Declares(cfg.retryDelaysMs, Kind(c)) && QueuesOf(c) == {Name(Kind(c))} && Name(Kind(c)) in queues
    ensures queues[Name(Kind(c))].ttl ==
              if c.place.Retry? then Some(cfg.retryDelaysMs[c.place.rung - 1]) else None
    ensures c.place.Retry? ==> ExpiryRoute(queues[Name(Kind(c))], bindings) == {MainQueue(c.channel)}
  {
    var q := Kind(c);
    ArgumentsDeclared(cfg.retryDelaysMs, queues, q);
    if q.RetryOf? {
      ExpiryReturnsHome(cfg.retryDelaysMs, queues, bindings, q);
    }
  }

  /** The copy waits in a queue that lets it leave unread, and to where, as Protocol does. */
  ghost predicate LeavesAsDeclared(cfg: Config, s: State, t: nat, queues: map<string, QueueArgs>,
                                   bindings: set<Binding>)
    requires t < |s.copies| && Waits(s.copies[t])
  {
    var c, name := s.copies[t], Name(Kind(s.copies[t]));
    && QueuesOf(c) == {name} && name in queues
    && (queues[name].ttl.Some? <==> c.place.Retry?)
    && (Enabled(cfg, s, Expire(t)) <==>
         queues[name].ttl.Some? && c.place.Retry? && s.now >= c.place.since + queues[name].ttl.value)
    && (Enabled(cfg, s, Expire(t)) ==>
         QueuesOf(Apply(cfg, s, Expire(t)).copies[t]) == ExpiryRoute(queues[name], bindings))
  }

  lemma ExpiresToMain(cfg: Config, s: State, t: nat)
    requires Enabled(cfg, s, Expire(t))
    ensures QueuesOf(Apply(cfg, s, Expire(t)).copies[t]) == {MainQueue(s.copies[t].channel)}
  {
  }

  lemma CopyLeavesAsDeclared(cfg: Config, s: State, t: nat, queues: map<string, QueueArgs>, bindings: set<Binding>)
    requires IsTopology(cfg.retryDelaysMs, queues, bindings)
    requires t < |s.copies| && CopyOk(cfg, s, s.copies[t]) && Waits(s.copies[t])
    ensures LeavesAsDeclared(cfg, s, t, queues, bindings)
  {
    WaitsInDeclared(cfg, s, s.copies[t], queues, bindings);
    if Enabled(cfg, s, Expire(t)) {
      ExpiresToMain(cfg, s, t);
    }
  }

  /**
   In every reachable state each waiting message is in one declared queue, and Protocol lets it leave unread exactly
   when that queue's arguments do: it has a TTL, the TTL is over, and then the message goes where the broker sends it.
   */
  lemma UnreadLeavesAsDeclared(cfg: Config, acts: seq<Action>, t: nat, queues: map<string, QueueArgs>,
                               bindings: set<Binding>)
    requires Exec(cfg, Init(), acts).Some? && IsTopology(cfg.retryDelaysMs, queues, bindings)
    requires var s := Exec(cfg, Init(), acts).value; t < |s.copies| && Waits(s.copies[t])
    ensures LeavesAsDeclared(cfg, Exec(cfg, Init(), acts).value, t, queues, bindings)
  {
    var s := Exec(cfg, Init(), acts).value;
    AgreedRun(cfg, acts);
    CopyLeavesAsDeclared(cfg, s, t, queues, bindings);
  }
}
