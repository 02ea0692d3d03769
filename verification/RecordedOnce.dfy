/**
 When a recorded attempt is final. `record` overwrites an existing row; its header promises that a second call for an
 attempt changes nothing. That holds for a notification with a single message and no crash, under every configuration,
 and fails beyond: two messages in a main queue, published or returned, are enough to rewrite the trail.
 */
module RecordedOnce {
  import opened Domain
  import opened Protocol
  import opened Agreement
  import opened Convergence
  import opened LosingRuns
  import opened RetryLoop

  /** After the run `acts`, action `a` changes the recorded outcome of attempt `k` of notification `id`. */
  ghost predicate Rewrites(cfg: Config, acts: seq<Action>, a: Action, id: Id, k: nat) {
    && Exec(cfg, Init(), acts).Some?
    && var s := Exec(cfg, Init(), acts).value;
    && Enabled(cfg, s, a) && (id, k) in s.attempts
    && ((id, k) in Apply(cfg, s, a).attempts ==> Apply(cfg, s, a).attempts[(id, k)] != s.attempts[(id, k)])
  }

  /** Only the handler that records attempt `k` of `id` can touch its row. */
  lemma RewriterRecords(cfg: Config, s: State, a: Action, id: Id, k: nat)
    requires Enabled(cfg, s, a) && (id, k) in s.attempts
    requires (id, k) in Apply(cfg, s, a).attempts ==> Apply(cfg, s, a).attempts[(id, k)] != s.attempts[(id, k)]
    ensures a.Handle? && s.copies[a.copy].body.id == id && s.copies[a.copy].body.attempt == k
    ensures s.copies[a.copy].place.pc.SendOk? || s.copies[a.copy].place.pc.Counted?
  {
  }

  /** The carrier of a single submission finds no row of its attempt. */
  lemma CarrierRecordsFirst(cfg: Config, s: State, id: Id, t: nat)
    requires Simulated(cfg, s, id) && t < |s.copies| && s.copies[t].body.id == id && s.copies[t].place.Unacked?
    requires s.copies[t].place.pc.SendOk? || s.copies[t].place.pc.Counted?
    ensures (id, s.copies[t].body.attempt) !in s.attempts
  {
    assert Active(s.copies[t]);
    var x: nat :| Carried(cfg, s, id, x);
    assert x == t;
    assert Shows(s, id, SnapAt(s.copies[t]));
  }

  /** With one message and no crash no recorded row ever changes, whatever runs beside it. */
  lemma SingleMessageRecordsOnce(cfg: Config, acts: seq<Action>, a: Action, id: Id, k: nat)
    requires Exec(cfg, Init(), acts).Some?
    requires TallyOf(Exec(cfg, Init(), acts).value, id).published <= 1
    requires TallyOf(Exec(cfg, Init(), acts).value, id).requeued == 0
    ensures !Rewrites(cfg, acts, a, id, k)
  {
    var s := Exec(cfg, Init(), acts).value;
    if Rewrites(cfg, acts, a, id, k) {
      UntouchedRun(cfg, acts);
      RewriterRecords(cfg, s, a, id, k);
      SimulatedRun(cfg, acts, id);
      CarrierRecordsFirst(cfg, s, id, a.copy);
    }
  }

  /** A crash between `record` and markSent, and then a transient failure: SUCCESS becomes TRANSIENT_FAILURE. */
  lemma CrashRewrites(cfg: Config) returns (acts: seq<Action>, s: State)
    requires cfg.workers != []
    ensures Reaches(cfg, acts, s) && TallyOf(s, 0).published == 1 && TallyOf(s, 0).requeued == 1
    ensures (0, 1) in s.attempts && s.attempts[(0, 1)].status == Success
    ensures Enabled(cfg, s, Handle(0, Accepted))
    ensures Apply(cfg, s, Handle(0, Accepted)).attempts[(0, 1)].status == TransientFailure
  {
    acts, s := Submits(cfg, cfg.workers[0]);
    acts, s := AttemptsOnce(cfg, acts, s, 0, Accepted);
    acts, s := StandsNext(cfg, acts, s, 0, SendOk, Processing, Accepted);
    Extend(cfg, acts, s, Requeue(0));
    acts, s := acts + [Requeue(0)], Apply(cfg, s, Requeue(0));
    acts, s := AttemptsOnce(cfg, acts, s, 0, TransientError);
  }

  lemma FirstGivenUp(cfg: Config) returns (acts: seq<Action>, s: State)
    requires cfg.workers != []
    ensures Reaches(cfg, acts, s) && TallyOf(s, 0).published == 2 && TallyOf(s, 0).requeued == 0
    ensures Stands(cfg, s, 0, Done(Parked), DeadLettered) && |s.copies| == 2
    ensures s.copies[1] == Copy(Message(0, 1, 3), cfg.workers[0], 3, 0, Main)
    ensures (0, 1) in s.attempts && s.attempts[(0, 1)].status == PermanentFailure
  {
    acts, s := Resubmits(cfg, cfg.workers[0]);
    acts, s := AttemptsOnce(cfg, acts, s, 0, PermanentError);
    acts, s := GivesUp(cfg, acts, s, 0);
    acts, s := StandsNext(cfg, acts, s, 0, ReadyToAck(Parked), DeadLettered, PermanentError);
  }

  /** Two POSTs of a key, one worker: the second message is attempted after the first was given up. */
  lemma RepeatedPostRewrites(cfg: Config) returns (acts: seq<Action>, s: State)
    requires cfg.workers != []
    ensures Reaches(cfg, acts, s) && TallyOf(s, 0).published == 2 && TallyOf(s, 0).requeued == 0
    ensures (0, 1) in s.attempts && s.attempts[(0, 1)].status == PermanentFailure
    ensures Enabled(cfg, s, Handle(1, Accepted))
    ensures Apply(cfg, s, Handle(1, Accepted)).attempts[(0, 1)].status == Success
  {
    acts, s := FirstGivenUp(cfg);
    acts, s := AttemptsOnce(cfg, acts, s, 1, Accepted);
  }

  // ---------------------------------------------------------------- main result

  /** Some run with at most `p` published and `r` returned messages of a notification rewrites its trail. */
  ghost predicate CanRewrite(cfg: Config, p: nat, r: nat) {
    exists acts: seq<Action>, a: Action, id: Id, k: nat :: RewritesWithin(cfg, p, r, acts, a, id, k)
  }

  ghost predicate RewritesWithin(cfg: Config, p: nat, r: nat, acts: seq<Action>, a: Action, id: Id, k: nat) {
    && Rewrites(cfg, acts, a, id, k)
    && TallyOf(Exec(cfg, Init(), acts).value, id).published <= p
    && TallyOf(Exec(cfg, Init(), acts).value, id).requeued <= r
  }

  /**
   The exact condition: a recorded attempt can be rewritten if and only if two messages of its notification may enter
   a main queue, at least one of them published.
   */
  lemma RewritesIffTwoMessages(cfg: Config, p: nat, r: nat)
    requires cfg.workers != []
    ensures CanRewrite(cfg, p, r) <==> p >= 1 && p + r >= 2
  {
    if p >= 1 && r >= 1 {
      var acts, s := CrashRewrites(cfg);
      assert RewritesWithin(cfg, p, r, acts, Handle(0, Accepted), 0, 1);
    } else if p >= 2 {
      var acts, s := RepeatedPostRewrites(cfg);
      assert RewritesWithin(cfg, p, r, acts, Handle(1, Accepted), 0, 1);
    } else {
      forall acts: seq<Action>, a: Action, id: Id, k: nat ensures !RewritesWithin(cfg, p, r, acts, a, id, k) {
        if RewritesWithin(cfg, p, r, acts, a, id, k) {
          if p == 0 {
            UntouchedRun(cfg, acts);
          } else {
            SingleMessageRecordsOnce(cfg, acts, a, id, k);
          }
        }
      }
    }
  }
}
