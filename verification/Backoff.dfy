/**
 Backoff: the provider is never asked for attempt k before the first k-1 retry delays have passed since the
 submission, and a retry queue expires in order, so no message waits behind one that is not due.
 */
module Backoff {
  import opened Domain
  import opened Protocol
  import opened Agreement

  /** The sum of the first `n` retry delays. */
  function DelaySum(delays: seq<nat>, n: nat): nat
    requires n <= |delays|
  {
    if n == 0 then 0 else DelaySum(delays, n - 1) + delays[n - 1]
  }

  /** A message at attempt k has waited for rungs 1..k-1, or waits on rung k-1 having waited for the earlier ones. */
  predicate OnTime(cfg: Config, now: nat, c: Copy) {
    && c.submitted <= now
    && (!c.place.Unroutable? && c.body.attempt >= 1 ==>
          && c.body.attempt - 1 <= |cfg.retryDelaysMs|
          && if c.place.Retry? && c.body.attempt >= 2
             then c.place.since >= c.submitted + DelaySum(cfg.retryDelaysMs, c.body.attempt - 2)
             else now >= c.submitted + DelaySum(cfg.retryDelaysMs, c.body.attempt - 1))
  }

  predicate SameRetryQueue(c: Copy, d: Copy) {
    c.place.Retry? && d.place.Retry? && c.place.rung == d.place.rung && c.channel == d.channel
  }

  ghost predicate Timely(cfg: Config, s: State) {
    && (forall t :: 0 <= t < |s.copies| ==> OnTime(cfg, s.now, s.copies[t]))
    && (forall i, j :: 0 <= i < j < |s.copies| && SameRetryQueue(s.copies[i], s.copies[j]) ==>
          s.copies[i].place.since <= s.copies[j].place.since)
  }

  lemma TouchedOnTime(cfg: Config, s: State, a: Action, t: nat)
    requires Agreed(cfg, s) && Timely(cfg, s) && Enabled(cfg, s, a)
    requires a.Deliver? || a.Expire? || a.Requeue? || a.Handle?
    requires t < |Apply(cfg, s, a).copies|
    ensures OnTime(cfg, Apply(cfg, s, a).now, Apply(cfg, s, a).copies[t])
  {
    assert CopyOk(cfg, s, s.copies[t]) && OnTime(cfg, s.now, s.copies[t]);
  }

  lemma FlushKeepsOnTime(cfg: Config, s: State, x: nat, t: nat)
    requires Timely(cfg, s) && Enabled(cfg, s, Flush(x)) && t < |s.copies|
    ensures OnTime(cfg, s.now, Apply(cfg, s, Flush(x)).copies[t])
  {
    assert OnTime(cfg, s.now, s.copies[t]);
  }

  lemma SentOnTime(cfg: Config, s: State, x: nat)
    requires Agreed(cfg, s) && Timely(cfg, s) && Enabled(cfg, s, Flush(x))
    requires |Apply(cfg, s, Flush(x)).copies| > |s.copies|
    ensures OnTime(cfg, s.now, Apply(cfg, s, Flush(x)).copies[|s.copies|])
  {
    assert CopyOk(cfg, s, s.copies[x]) && OnTime(cfg, s.now, s.copies[x]);
  }

  lemma OnTimeStep(cfg: Config, s: State, a: Action, t: nat)
    requires Agreed(cfg, s) && Timely(cfg, s) && Enabled(cfg, s, a)
    requires t < |Apply(cfg, s, a).copies|
    ensures OnTime(cfg, Apply(cfg, s, a).now, Apply(cfg, s, a).copies[t])
  {
    if a.Deliver? || a.Expire? || a.Requeue? || a.Handle? {
      TouchedOnTime(cfg, s, a, t);
    } else if a.Flush? {
      if t < |s.copies| {
        FlushKeepsOnTime(cfg, s, a.copy, t);
      } else {
        SentOnTime(cfg, s, a.copy);
      }
    } else if t < |s.copies| {
      assert OnTime(cfg, s.now, s.copies[t]);
    }
  }

  /** A copy enters a retry queue only as the newest copy, now. */
  lemma EntersRetryNow(cfg: Config, s: State, a: Action, t: nat)
    requires Agreed(cfg, s) && Enabled(cfg, s, a)
    requires t < |Apply(cfg, s, a).copies| && Apply(cfg, s, a).copies[t].place.Retry?
    ensures if t < |s.copies| then Apply(cfg, s, a).copies[t] == s.copies[t]
            else t == |Apply(cfg, s, a).copies| - 1 && Apply(cfg, s, a).copies[t].place.since == s.now
  {
  }

  lemma SortedStep(cfg: Config, s: State, a: Action, i: nat, j: nat)
    requires Agreed(cfg, s) && Timely(cfg, s) && Enabled(cfg, s, a)
    requires i < j < |Apply(cfg, s, a).copies|
    requires SameRetryQueue(Apply(cfg, s, a).copies[i], Apply(cfg, s, a).copies[j])
    ensures Apply(cfg, s, a).copies[i].place.since <= Apply(cfg, s, a).copies[j].place.since
  {
    EntersRetryNow(cfg, s, a, i);
    EntersRetryNow(cfg, s, a, j);
    if i < |s.copies| {
      assert CopyOk(cfg, s, s.copies[i]);
    }
  }

  lemma TimelyStep(cfg: Config, s: State, a: Action)
    requires Agreed(cfg, s) && Timely(cfg, s) && Enabled(cfg, s, a)
    ensures Timely(cfg, Apply(cfg, s, a))
  {
    var s' := Apply(cfg, s, a);
    forall t | 0 <= t < |s'.copies| ensures OnTime(cfg, s'.now, s'.copies[t]) {
      OnTimeStep(cfg, s, a, t);
    }
    forall i, j | 0 <= i < j < |s'.copies| && SameRetryQueue(s'.copies[i], s'.copies[j])
      ensures s'.copies[i].place.since <= s'.copies[j].place.since
    {
      SortedStep(cfg, s, a, i, j);
    }
  }

  lemma {:induction false} TimelyRun(cfg: Config, acts: seq<Action>)
    requires Exec(cfg, Init(), acts).Some?
    ensures Timely(cfg, Exec(cfg, Init(), acts).value)
  {
    if acts != [] {
      LastStep(cfg, Init(), acts);
      TimelyRun(cfg, acts[..|acts| - 1]);
      AgreedRun(cfg, acts[..|acts| - 1]);
      TimelyStep(cfg, Exec(cfg, Init(), acts[..|acts| - 1]).value, acts[|acts| - 1]);
    }
  }

  // ---------------------------------------------------------------- submission times

  /** The run published a message of a POST for `id` at time `when`. */
  ghost predicate PublishedAt(cfg: Config, acts: seq<Action>, id: Id, when: nat) {
    exists n: nat :: PublishesAt(cfg, acts, id, when, n)
  }

  ghost predicate PublishesAt(cfg: Config, acts: seq<Action>, id: Id, when: nat, n: nat) {
    && n < |acts| && acts[n].FlushPost? && Exec(cfg, Init(), acts[..n]).Some?
    && var s := Exec(cfg, Init(), acts[..n]).value;
    && s.now == when && IsPost(s, acts[n].post) && s.posts[acts[n].post].stage.Publishing?
    && s.posts[acts[n].post].stage.id == id
  }

  lemma PublishedStays(cfg: Config, acts: seq<Action>, id: Id, when: nat)
    requires acts != [] && PublishedAt(cfg, acts[..|acts| - 1], id, when)
    ensures PublishedAt(cfg, acts, id, when)
  {
    var n: nat :| PublishesAt(cfg, acts[..|acts| - 1], id, when, n);
    assert acts[..|acts| - 1][..n] == acts[..n];
    assert PublishesAt(cfg, acts, id, when, n);
  }

  /** A copy is as old as one that was there before, unless a POST has just published it. */
  lemma SubmittedSource(cfg: Config, s: State, a: Action, t: nat)
    requires Agreed(cfg, s) && Enabled(cfg, s, a) && t < |Apply(cfg, s, a).copies|
    ensures var c := Apply(cfg, s, a).copies[t];
            || (a.FlushPost? && s.posts[a.post].stage.id == c.body.id && s.now == c.submitted)
            || (exists x :: 0 <= x < |s.copies| && s.copies[x].body.id == c.body.id
                            && s.copies[x].submitted == c.submitted)
  {
    if t < |s.copies| {
      KeepsSubmitted(cfg, s, a, t);
    } else if a.Flush? {
      assert CopyOk(cfg, s, s.copies[a.copy]);
    }
  }

  lemma KeepsSubmitted(cfg: Config, s: State, a: Action, t: nat)
    requires Enabled(cfg, s, a) && t < |s.copies|
    ensures var c := Apply(cfg, s, a).copies[t]; c.body == s.copies[t].body && c.submitted == s.copies[t].submitted
  {
  }

  /** The time a message carries is that of a publish of a POST for its notification. */
  lemma {:induction false} SubmittedIsHistory(cfg: Config, acts: seq<Action>, t: nat)
    requires Exec(cfg, Init(), acts).Some? && t < |Exec(cfg, Init(), acts).value.copies|
    ensures var c := Exec(cfg, Init(), acts).value.copies[t]; PublishedAt(cfg, acts, c.body.id, c.submitted)
    decreases |acts|
  {
    LastStep(cfg, Init(), acts);
    var n := |acts| - 1;
    var s := Exec(cfg, Init(), acts[..n]).value;
    var c := Exec(cfg, Init(), acts).value.copies[t];
    AgreedRun(cfg, acts[..n]);
    SubmittedSource(cfg, s, acts[n], t);
    if x: nat :| x < |s.copies| && s.copies[x].body.id == c.body.id && s.copies[x].submitted == c.submitted {
      SubmittedIsHistory(cfg, acts[..n], x);
      PublishedStays(cfg, acts, c.body.id, c.submitted);
    } else {
      assert PublishesAt(cfg, acts, c.body.id, c.submitted, n);
    }
  }

  // ---------------------------------------------------------------- main results

  /** Whenever a handler is about to call the provider for attempt k, delays 1..k-1 have passed since a publish. */
  lemma NeverAskedEarly(cfg: Config, acts: seq<Action>, t: nat)
    requires Exec(cfg, Init(), acts).Some? && IsUnacked(Exec(cfg, Init(), acts).value, t)
    requires Exec(cfg, Init(), acts).value.copies[t].place.pc.Sending?
    ensures var s := Exec(cfg, Init(), acts).value;
            var k := s.copies[t].body.attempt;
            && 1 <= k <= |cfg.retryDelaysMs| + 1
            && s.now >= s.copies[t].submitted + DelaySum(cfg.retryDelaysMs, k - 1)
            && PublishedAt(cfg, acts, s.copies[t].body.id, s.copies[t].submitted)
  {
    var s := Exec(cfg, Init(), acts).value;
    SubmittedIsHistory(cfg, acts, t);
    TimelyRun(cfg, acts);
    AgreedRun(cfg, acts);
    assert CopyOk(cfg, s, s.copies[t]) && OnTime(cfg, s.now, s.copies[t]);
  }

  /** In a retry queue everything ahead of a due message is due: expiry at the head never holds a message back. */
  lemma ExpiredIsPrefix(cfg: Config, acts: seq<Action>, i: nat, j: nat)
    requires Exec(cfg, Init(), acts).Some? && i < j < |Exec(cfg, Init(), acts).value.copies|
    requires SameRetryQueue(Exec(cfg, Init(), acts).value.copies[i], Exec(cfg, Init(), acts).value.copies[j])
    requires Enabled(cfg, Exec(cfg, Init(), acts).value, Expire(j))
    ensures Enabled(cfg, Exec(cfg, Init(), acts).value, Expire(i))
  {
    TimelyRun(cfg, acts);
  }
}
