/**
 What every reachable state keeps about messages, rows and handlers: messages agree with the row of their
 notification, attempt numbers stay on the ladder, and a handler's unsent frames are what its program counter says.
 */
module Agreement {
  import opened Domain
  import opened Protocol

  /** The publish a handler has issued by the time it stands at `pc`. */
  function Publishes(body: Message, channel: Channel, pc: Pc): seq<Frame> {
    match pc
    case DlqPublished => [PublishDlq(channel, body)]
    case ReadyToAck(Parked) => [PublishDlq(channel, body)]
    case Done(Parked) => [PublishDlq(channel, body)]
    case ReadyToAck(Retried) =>
      [PublishRetry(channel, body.attempt, body.(attempt := body.attempt + 1), body.priority)]
    case Done(Retried) =>
      [PublishRetry(channel, body.attempt, body.(attempt := body.attempt + 1), body.priority)]
    case _ => []
  }

  function Acks(pc: Pc): seq<Frame> {
    if pc.Done? then [Ack] else []
  }

  /** Publish before ack: the socket still holds both frames, or the ack alone, or nothing of an unfinished call. */
  predicate UnsentOk(body: Message, channel: Channel, pc: Pc, unsent: seq<Frame>) {
    unsent == Publishes(body, channel, pc) + Acks(pc) || unsent == Acks(pc)
  }

  predicate PcOk(cfg: Config, body: Message, pc: Pc) {
    match pc
    case ReadyToAck(why) => why != Missing && (why == Retried ==> body.attempt <= cfg.maxRetries)
    case Done(why) => why != Missing && (why == Retried ==> body.attempt <= cfg.maxRetries)
    case _ => true
  }

  predicate PlaceOk(cfg: Config, now: nat, c: Copy) {
    match c.place
    case Retry(rung, since) => 1 <= rung <= |cfg.retryDelaysMs| && c.body.attempt == rung + 1 && since <= now
    case Unacked(w, pc, unsent) =>
      && w < |cfg.workers| && cfg.workers[w] == c.channel
      && PcOk(cfg, c.body, pc)
      && UnsentOk(c.body, c.channel, pc, unsent)
    case Unroutable => c.body.attempt - 1 > |cfg.retryDelaysMs|
    case _ => true
  }

  /** Queue, body and envelope of a message agree with the row of its notification. */
  predicate MatchesRow(rows: map<Id, Row>, c: Copy) {
    && c.body.id in rows
    && c.channel == rows[c.body.id].channel
    && c.body.priority == PriorityWeight(rows[c.body.id].priority)
    && (!c.place.DeadLetter? ==> c.envelopePriority == c.body.priority)
  }

  predicate CopyOk(cfg: Config, s: State, c: Copy) {
    && MatchesRow(s.rows, c)
    && 1 <= c.body.attempt <= Retries(cfg) + 1
    && (!c.place.Unroutable? ==> c.body.attempt - 1 <= |cfg.retryDelaysMs|)
    && PlaceOk(cfg, s.now, c)
  }

  predicate StageOk(rows: map<Id, Row>, key: Key, stage: Stage) {
    match stage
    case Stored(id, channel, priority) => SavedOk(rows, key, id, channel, priority)
    case Publishing(id, channel, priority) => SavedOk(rows, key, id, channel, priority)
    case Published(id, channel, priority) => SavedOk(rows, key, id, channel, priority)
    case _ => true
  }

  predicate SavedOk(rows: map<Id, Row>, key: Key, id: Id, channel: Channel, priority: Priority) {
    id in rows && rows[id].key == key && rows[id].channel == channel && rows[id].priority == priority
  }

  ghost predicate Agreed(cfg: Config, s: State) {
    && (forall t :: 0 <= t < |s.copies| ==> CopyOk(cfg, s, s.copies[t]))
    && (forall p :: 0 <= p < |s.posts| ==> StageOk(s.rows, s.posts[p].key, s.posts[p].stage))
    && (forall k :: k in s.attempts ==> k.0 in s.rows && s.attempts[k].channel == s.rows[k.0].channel)
  }

  /** Rows are never deleted, and their key, channel and priority never change. */
  ghost predicate RowsKept(before: map<Id, Row>, after: map<Id, Row>) {
    forall id :: id in before ==>
      id in after && after[id].key == before[id].key && after[id].channel == before[id].channel
      && after[id].priority == before[id].priority && after[id].attemptCount >= before[id].attemptCount
  }

  lemma StepKeepsRows(cfg: Config, s: State, a: Action)
    requires Enabled(cfg, s, a)
    ensures RowsKept(s.rows, Apply(cfg, s, a).rows)
  {
  }

  lemma StillMatches(cfg: Config, s: State, s': State, c: Copy)
    requires CopyOk(cfg, s, c) && RowsKept(s.rows, s'.rows) && s.now <= s'.now
    ensures CopyOk(cfg, s', c)
  {
  }

  lemma HandledCopyOk(cfg: Config, s: State, t: nat, o: Outcome)
    requires Agreed(cfg, s) && Enabled(cfg, s, Handle(t, o))
    ensures CopyOk(cfg, HandleStep(cfg, s, t, o), HandleStep(cfg, s, t, o).copies[t])
  {
    assert CopyOk(cfg, s, s.copies[t]);
  }

  lemma FlushedCopyOk(cfg: Config, s: State, t: nat)
    requires Agreed(cfg, s) && Enabled(cfg, s, Flush(t))
    ensures var s' := Apply(cfg, s, Flush(t)); CopyOk(cfg, s', s'.copies[t])
  {
    assert CopyOk(cfg, s, s.copies[t]);
  }

  lemma SentCopyOk(cfg: Config, s: State, t: nat)
    requires Agreed(cfg, s) && Enabled(cfg, s, Flush(t)) && |Apply(cfg, s, Flush(t)).copies| > |s.copies|
    ensures var s' := Apply(cfg, s, Flush(t)); CopyOk(cfg, s', s'.copies[|s.copies|])
  {
    assert CopyOk(cfg, s, s.copies[t]);
  }

  lemma SubmittedCopyOk(cfg: Config, s: State, p: nat)
    requires Agreed(cfg, s) && Enabled(cfg, s, FlushPost(p))
    ensures CopyOk(cfg, Submit(s, p), Submit(s, p).copies[|s.copies|])
  {
    assert StageOk(s.rows, s.posts[p].key, s.posts[p].stage);
  }

  lemma MovedCopyOk(cfg: Config, s: State, a: Action)
    requires Agreed(cfg, s) && Enabled(cfg, s, a) && (a.Deliver? || a.Expire? || a.Requeue?)
    ensures CopyOk(cfg, Apply(cfg, s, a), Apply(cfg, s, a).copies[a.copy])
  {
    assert CopyOk(cfg, s, s.copies[a.copy]);
  }

  lemma NowGrows(cfg: Config, s: State, a: Action)
    requires Enabled(cfg, s, a)
    ensures s.now <= Apply(cfg, s, a).now
  {
  }

  lemma SameCopyOk(cfg: Config, s: State, a: Action, t: nat)
    requires Agreed(cfg, s) && Enabled(cfg, s, a) && t < |s.copies|
    ensures CopyOk(cfg, Apply(cfg, s, a), s.copies[t])
  {
    assert CopyOk(cfg, s, s.copies[t]);
    StepKeepsRows(cfg, s, a);
    NowGrows(cfg, s, a);
    StillMatches(cfg, s, Apply(cfg, s, a), s.copies[t]);
  }

  /** Only these copies can differ from what they were. */
  lemma CopiesTouched(cfg: Config, s: State, a: Action, t: nat)
    requires Enabled(cfg, s, a) && t < |Apply(cfg, s, a).copies|
    requires t >= |s.copies| || Apply(cfg, s, a).copies[t] != s.copies[t]
    ensures ((a.Flush? || a.FlushPost?) && t == |s.copies|)
            || ((a.Handle? || a.Flush? || a.Deliver? || a.Expire? || a.Requeue?) && t == a.copy)
  {
  }

  lemma CopyStaysOk(cfg: Config, s: State, a: Action, t: nat)
    requires Agreed(cfg, s) && Enabled(cfg, s, a) && t < |Apply(cfg, s, a).copies|
    ensures CopyOk(cfg, Apply(cfg, s, a), Apply(cfg, s, a).copies[t])
  {
    if t < |s.copies| && Apply(cfg, s, a).copies[t] == s.copies[t] {
      SameCopyOk(cfg, s, a, t);
      return;
    }
    CopiesTouched(cfg, s, a, t);
    if a.Handle? {
      HandledCopyOk(cfg, s, a.copy, a.outcome);
    } else if a.Flush? {
      if t == a.copy {
        FlushedCopyOk(cfg, s, t);
      } else {
        SentCopyOk(cfg, s, a.copy);
      }
    } else if a.FlushPost? {
      SubmittedCopyOk(cfg, s, a.post);
    } else {
      MovedCopyOk(cfg, s, a);
    }
  }

  lemma PostsStayOk(cfg: Config, s: State, a: Action)
    requires Agreed(cfg, s) && Enabled(cfg, s, a)
    ensures forall p :: 0 <= p < |Apply(cfg, s, a).posts| ==>
              StageOk(Apply(cfg, s, a).rows, Apply(cfg, s, a).posts[p].key, Apply(cfg, s, a).posts[p].stage)
  {
    StepKeepsRows(cfg, s, a);
  }

  lemma AttemptsStayOk(cfg: Config, s: State, a: Action)
    requires Agreed(cfg, s) && Enabled(cfg, s, a)
    ensures forall k :: k in Apply(cfg, s, a).attempts ==>
              && k.0 in Apply(cfg, s, a).rows
              && Apply(cfg, s, a).attempts[k].channel == Apply(cfg, s, a).rows[k.0].channel
  {
    StepKeepsRows(cfg, s, a);
    if a.Handle? {
      assert CopyOk(cfg, s, s.copies[a.copy]);
    }
  }

  lemma AgreedStep(cfg: Config, s: State, a: Action)
    requires Agreed(cfg, s) && Enabled(cfg, s, a)
    ensures Agreed(cfg, Apply(cfg, s, a))
  {
    forall t | 0 <= t < |Apply(cfg, s, a).copies|
      ensures CopyOk(cfg, Apply(cfg, s, a), Apply(cfg, s, a).copies[t])
    {
      CopyStaysOk(cfg, s, a, t);
    }
    PostsStayOk(cfg, s, a);
    AttemptsStayOk(cfg, s, a);
  }

  lemma {:induction false} AgreedRun(cfg: Config, acts: seq<Action>)
    requires Exec(cfg, Init(), acts).Some?
    ensures Agreed(cfg, Exec(cfg, Init(), acts).value)
  {
    if acts != [] {
      LastStep(cfg, Init(), acts);
      AgreedRun(cfg, acts[..|acts| - 1]);
      AgreedStep(cfg, Exec(cfg, Init(), acts[..|acts| - 1]).value, acts[|acts| - 1]);
    }
  }
}
