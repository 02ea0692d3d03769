/**
 Budgets. Every message of a notification that enters a main queue from outside the ladder, published by a POST or
 returned by a crash, pays for a bounded number of handler calls and for one end: one acceptance by the provider or
 one copy in the dead-letter queue.
 */
module Budget {
  import opened Domain
  import opened Protocol
  import opened Agreement
  import opened Convergence
  import opened Sums

  function Successes(outcomes: seq<Outcome>): nat {
    if outcomes == [] then 0
    else Successes(outcomes[..|outcomes| - 1]) + if outcomes[|outcomes| - 1].Accepted? then 1 else 0
  }

  lemma SuccessesSnoc(outcomes: seq<Outcome>, o: Outcome)
    ensures Successes(outcomes + [o]) == Successes(outcomes) + if o.Accepted? then 1 else 0
  {
    assert (outcomes + [o])[..|outcomes + [o]| - 1] == outcomes;
  }

  // ---------------------------------------------------------------- what a copy is worth

  /** The two things that are budgeted: calls of onMessage, and ends of a notification. */
  datatype Kind = Calls | Ends

  /** The onMessage calls a copy can still begin, itself or through the retries it leads to. */
  function Chances(cfg: Config, c: Copy): nat {
    var retries := Retries(cfg);
    var k := c.body.attempt;
    var ahead := if k <= retries + 1 then retries + 1 - k else 0;
    match c.place
    case Main => ahead + 1
    case Retry(_, _) => ahead + 1
    case Unacked(_, pc, unsent) =>
      if pc.Received? then ahead + 1 else if Undecided(pc) || UnsentRetry(unsent) then ahead else 0
    case _ => 0
  }

  /** The copy, or a retry it leads to, can still be accepted by the provider. */
  predicate CanBeAccepted(place: Place) {
    match place
    case Main => true
    case Retry(_, _) => true
    case Unacked(_, pc, unsent) =>
      pc.Received? || pc.Admitted? || pc.Sending? || pc.SendFailed? || pc.Counted? || pc.RecordedFail?
      || UnsentRetry(unsent)
    case _ => false
  }

  /** The copy can still come to an end, or is one in the dead-letter queue. */
  predicate HasStake(c: Copy) {
    CanBeAccepted(c.place) || HeldForOperator(c)
  }

  function Worth(cfg: Config, k: Kind, c: Copy, id: Id): nat {
    if c.body.id != id then 0
    else match k
         case Calls => Chances(cfg, c)
         case Ends => if HasStake(c) then 1 else 0
  }

  /** What one message from outside the ladder pays for. */
  function Unit(cfg: Config, k: Kind): nat {
    match k
    case Calls => Retries(cfg) + 1
    case Ends => 1
  }

  function Spent(k: Kind, tally: Tally): nat {
    match k
    case Calls => tally.executions
    case Ends => Successes(tally.outcomes)
  }

  function Allowance(cfg: Config, k: Kind, tally: Tally): nat {
    (tally.published + tally.requeued) * Unit(cfg, k)
  }

  ghost function Worths(cfg: Config, k: Kind, copies: seq<Copy>, id: Id): seq<nat> {
    seq(|copies|, t requires 0 <= t < |copies| => Worth(cfg, k, copies[t], id))
  }

  ghost function Wealth(cfg: Config, k: Kind, copies: seq<Copy>, id: Id): nat {
    Sum(Worths(cfg, k, copies, id))
  }

  lemma WealthUpdate(cfg: Config, k: Kind, copies: seq<Copy>, t: nat, c: Copy, id: Id)
    requires t < |copies|
    ensures Wealth(cfg, k, copies[t := c], id) + Worth(cfg, k, copies[t], id) ==
            Wealth(cfg, k, copies, id) + Worth(cfg, k, c, id)
  {
    var xs := Worths(cfg, k, copies, id);
    assert Worths(cfg, k, copies[t := c], id) == xs[t := Worth(cfg, k, c, id)];
    SumUpdate(xs, t, Worth(cfg, k, c, id));
  }

  lemma WealthSnoc(cfg: Config, k: Kind, copies: seq<Copy>, c: Copy, id: Id)
    ensures Wealth(cfg, k, copies + [c], id) == Wealth(cfg, k, copies, id) + Worth(cfg, k, c, id)
  {
    assert Worths(cfg, k, copies + [c], id) == Worths(cfg, k, copies, id) + [Worth(cfg, k, c, id)];
    SumSnoc(Worths(cfg, k, copies, id), Worth(cfg, k, c, id));
  }

  // ---------------------------------------------------------------- every action keeps to the budget

  /** What is spent and what is left grows by no more than the allowance. */
  ghost predicate Balances(cfg: Config, k: Kind, s: State, s': State, id: Id) {
    Spent(k, TallyOf(s', id)) + Wealth(cfg, k, s'.copies, id) + Allowance(cfg, k, TallyOf(s, id)) <=
    Spent(k, TallyOf(s, id)) + Wealth(cfg, k, s.copies, id) + Allowance(cfg, k, TallyOf(s', id))
  }

  lemma AllowanceGrows(cfg: Config, k: Kind, before: Tally, after: Tally)
    requires after.published + after.requeued == before.published + before.requeued + 1
    ensures Allowance(cfg, k, after) == Allowance(cfg, k, before) + Unit(cfg, k)
  {
    var n, u := before.published + before.requeued, Unit(cfg, k);
    assert (n + 1) * u == n * u + u;
  }

  lemma CallsPay(cfg: Config, s: State, t: nat, o: Outcome, id: Id)
    requires Agreed(cfg, s) && Enabled(cfg, s, Handle(t, o))
    ensures var s' := HandleStep(cfg, s, t, o);
            TallyOf(s', id).executions + Worth(cfg, Calls, s'.copies[t], id) <=
            TallyOf(s, id).executions + Worth(cfg, Calls, s.copies[t], id)
  {
    assert CopyOk(cfg, s, s.copies[t]);
  }

  lemma EndsPay(cfg: Config, s: State, t: nat, o: Outcome, id: Id)
    requires Agreed(cfg, s) && Enabled(cfg, s, Handle(t, o))
    ensures var s' := HandleStep(cfg, s, t, o);
            Successes(TallyOf(s', id).outcomes) + Worth(cfg, Ends, s'.copies[t], id) <=
            Successes(TallyOf(s, id).outcomes) + Worth(cfg, Ends, s.copies[t], id)
  {
    assert CopyOk(cfg, s, s.copies[t]);
    SuccessesSnoc(TallyOf(s, id).outcomes, o);
  }

  lemma HandleShape(cfg: Config, s: State, t: nat, o: Outcome, id: Id)
    requires Enabled(cfg, s, Handle(t, o))
    ensures var s' := HandleStep(cfg, s, t, o);
            && s'.copies == s.copies[t := s'.copies[t]]
            && TallyOf(s', id).published == TallyOf(s, id).published
            && TallyOf(s', id).requeued == TallyOf(s, id).requeued
  {
  }

  /** A handler's step pays out of the worth of its delivery. */
  lemma HandlePays(cfg: Config, k: Kind, s: State, t: nat, o: Outcome, id: Id)
    requires Agreed(cfg, s) && Enabled(cfg, s, Handle(t, o))
    ensures var s' := HandleStep(cfg, s, t, o);
            && Spent(k, TallyOf(s', id)) + Worth(cfg, k, s'.copies[t], id) <=
               Spent(k, TallyOf(s, id)) + Worth(cfg, k, s.copies[t], id)
            && Allowance(cfg, k, TallyOf(s', id)) == Allowance(cfg, k, TallyOf(s, id))
  {
    HandleShape(cfg, s, t, o, id);
    match k
    case Calls => CallsPay(cfg, s, t, o, id);
    case Ends => EndsPay(cfg, s, t, o, id);
  }

  lemma HandleBalances(cfg: Config, k: Kind, s: State, t: nat, o: Outcome, id: Id)
    requires Agreed(cfg, s) && Enabled(cfg, s, Handle(t, o))
    ensures Balances(cfg, k, s, HandleStep(cfg, s, t, o), id)
  {
    HandlePays(cfg, k, s, t, o, id);
    HandleShape(cfg, s, t, o, id);
    WealthUpdate(cfg, k, s.copies, t, HandleStep(cfg, s, t, o).copies[t], id);
  }

  lemma FlushMovesCalls(cfg: Config, s: State, t: nat)
    requires Agreed(cfg, s) && Enabled(cfg, s, Flush(t))
    ensures var s' := Apply(cfg, s, Flush(t));
            Chances(cfg, s'.copies[t]) + (if |s'.copies| > |s.copies| then Chances(cfg, s'.copies[|s.copies|]) else 0)
            <= Chances(cfg, s.copies[t])
  {
    assert CopyOk(cfg, s, s.copies[t]);
  }

  lemma FlushMovesEnds(cfg: Config, s: State, t: nat)
    requires Agreed(cfg, s) && Enabled(cfg, s, Flush(t))
    ensures var s' := Apply(cfg, s, Flush(t));
            && (HasStake(s'.copies[t]) ==> HasStake(s.copies[t]))
            && (|s'.copies| > |s.copies| && HasStake(s'.copies[|s.copies|]) ==>
                  HasStake(s.copies[t]) && !HasStake(s'.copies[t]))
  {
    assert CopyOk(cfg, s, s.copies[t]);
  }

  lemma FlushKeepsIds(cfg: Config, s: State, t: nat)
    requires Agreed(cfg, s) && Enabled(cfg, s, Flush(t))
    ensures var s' := Apply(cfg, s, Flush(t));
            && s'.copies[t].body.id == s.copies[t].body.id
            && (|s'.copies| > |s.copies| ==> s'.copies[|s.copies|].body.id == s.copies[t].body.id)
  {
    assert CopyOk(cfg, s, s.copies[t]);
  }

  /** Sending a frame moves a copy's worth to the message it creates, or leaves it. */
  lemma FlushMovesWorth(cfg: Config, k: Kind, s: State, t: nat, id: Id)
    requires Agreed(cfg, s) && Enabled(cfg, s, Flush(t))
    ensures var s' := Apply(cfg, s, Flush(t));
            Worth(cfg, k, s'.copies[t], id)
              + (if |s'.copies| > |s.copies| then Worth(cfg, k, s'.copies[|s.copies|], id) else 0) <=
            Worth(cfg, k, s.copies[t], id)
  {
    FlushKeepsIds(cfg, s, t);
    match k
    case Calls => FlushMovesCalls(cfg, s, t);
    case Ends => FlushMovesEnds(cfg, s, t);
  }

  lemma FlushShape(cfg: Config, s: State, t: nat)
    requires Enabled(cfg, s, Flush(t))
    ensures var s' := Apply(cfg, s, Flush(t));
            var moved := s.copies[t := s'.copies[t]];
            && s'.copies == (if |s'.copies| == |s.copies| then moved else moved + [s'.copies[|s.copies|]])
            && s'.tally == s.tally
  {
  }

  lemma FlushBalances(cfg: Config, k: Kind, s: State, t: nat, id: Id)
    requires Agreed(cfg, s) && Enabled(cfg, s, Flush(t))
    ensures Balances(cfg, k, s, Apply(cfg, s, Flush(t)), id)
  {
    var s' := Apply(cfg, s, Flush(t));
    FlushMovesWorth(cfg, k, s, t, id);
    FlushShape(cfg, s, t);
    WealthUpdate(cfg, k, s.copies, t, s'.copies[t], id);
    if |s'.copies| > |s.copies| {
      WealthSnoc(cfg, k, s.copies[t := s'.copies[t]], s'.copies[|s.copies|], id);
    }
    assert TallyOf(s', id) == TallyOf(s, id);
  }

  /** A queued message is worth no more than its price. */
  lemma QueuedWorth(cfg: Config, k: Kind, s: State, c: Copy, id: Id)
    requires CopyOk(cfg, s, c) && c.place.Main?
    ensures Worth(cfg, k, c, id) <= if c.body.id == id then Unit(cfg, k) else 0
  {
  }

  lemma ReturnShape(s: State, t: nat, id: Id)
    requires IsUnacked(s, t)
    ensures var s' := ReturnToMain(s, t);
            var before, after := TallyOf(s, id), TallyOf(s', id);
            && s'.copies == s.copies[t := s.copies[t].(place := Main)]
            && after.published == before.published && after.executions == before.executions
            && after.outcomes == before.outcomes
            && after.requeued == before.requeued + if s.copies[t].body.id == id then 1 else 0
  {
  }

  lemma RequeueBalances(cfg: Config, k: Kind, s: State, t: nat, id: Id)
    requires Agreed(cfg, s) && IsUnacked(s, t)
    ensures Balances(cfg, k, s, ReturnToMain(s, t), id)
  {
    var s' := ReturnToMain(s, t);
    assert CopyOk(cfg, s, s.copies[t]);
    ReturnShape(s, t, id);
    QueuedWorth(cfg, k, s, s'.copies[t], id);
    WealthUpdate(cfg, k, s.copies, t, s'.copies[t], id);
    if s.copies[t].body.id == id {
      AllowanceGrows(cfg, k, TallyOf(s, id), TallyOf(s', id));
    }
  }

  lemma SubmitShape(cfg: Config, s: State, p: nat, id: Id)
    requires Enabled(cfg, s, FlushPost(p))
    ensures var s' := Submit(s, p);
            && s'.copies == s.copies + [s'.copies[|s.copies|]]
            && s'.copies[|s.copies|].place.Main?
            && TallyOf(s', id) == TallyOf(s, id).(published := TallyOf(s, id).published
                                                  + if s'.copies[|s.copies|].body.id == id then 1 else 0)
  {
  }

  lemma SubmitBalances(cfg: Config, k: Kind, s: State, p: nat, id: Id)
    requires Agreed(cfg, s) && Enabled(cfg, s, FlushPost(p))
    ensures Balances(cfg, k, s, Submit(s, p), id)
  {
    var s' := Submit(s, p);
    var c := s'.copies[|s.copies|];
    SubmitShape(cfg, s, p, id);
    SubmittedCopyOk(cfg, s, p);
    QueuedWorth(cfg, k, s', c, id);
    WealthSnoc(cfg, k, s.copies, c, id);
    if c.body.id == id {
      AllowanceGrows(cfg, k, TallyOf(s, id), TallyOf(s', id));
    }
  }

  lemma MoveBalances(cfg: Config, k: Kind, s: State, a: Action, id: Id)
    requires Enabled(cfg, s, a) && (a.Deliver? || a.Expire?)
    ensures Balances(cfg, k, s, Apply(cfg, s, a), id)
  {
    WealthUpdate(cfg, k, s.copies, a.copy, Apply(cfg, s, a).copies[a.copy], id);
  }

  lemma RestBalances(cfg: Config, k: Kind, s: State, a: Action, id: Id)
    requires Enabled(cfg, s, a) && Outer(a) && !a.FlushPost? && !a.Expire?
    ensures Balances(cfg, k, s, Apply(cfg, s, a), id)
  {
    assert Apply(cfg, s, a).copies == s.copies && TallyOf(Apply(cfg, s, a), id) == TallyOf(s, id);
  }

  lemma BudgetStep(cfg: Config, k: Kind, s: State, a: Action, id: Id)
    requires Agreed(cfg, s) && Enabled(cfg, s, a)
    ensures Balances(cfg, k, s, Apply(cfg, s, a), id)
  {
    if a.Handle? {
      HandleBalances(cfg, k, s, a.copy, a.outcome, id);
    } else if a.Flush? {
      FlushBalances(cfg, k, s, a.copy, id);
    } else if a.Requeue? {
      RequeueBalances(cfg, k, s, a.copy, id);
    } else if a.FlushPost? {
      SubmitBalances(cfg, k, s, a.post, id);
    } else if a.Deliver? || a.Expire? {
      MoveBalances(cfg, k, s, a, id);
    } else {
      RestBalances(cfg, k, s, a, id);
    }
  }

  lemma {:induction false} ExecBalances(cfg: Config, k: Kind, s: State, acts: seq<Action>, id: Id)
    requires Agreed(cfg, s) && Exec(cfg, s, acts).Some?
    ensures Agreed(cfg, Exec(cfg, s, acts).value) && Balances(cfg, k, s, Exec(cfg, s, acts).value, id)
  {
    if acts != [] {
      var n := |acts| - 1;
      LastStep(cfg, s, acts);
      ExecBalances(cfg, k, s, acts[..n], id);
      AgreedStep(cfg, Exec(cfg, s, acts[..n]).value, acts[n]);
      BudgetStep(cfg, k, Exec(cfg, s, acts[..n]).value, acts[n], id);
    }
  }

  ghost predicate WithinBudget(cfg: Config, k: Kind, s: State, id: Id) {
    Spent(k, TallyOf(s, id)) + Wealth(cfg, k, s.copies, id) <= Allowance(cfg, k, TallyOf(s, id))
  }

  lemma RunWithinBudget(cfg: Config, k: Kind, acts: seq<Action>, id: Id)
    requires Exec(cfg, Init(), acts).Some?
    ensures WithinBudget(cfg, k, Exec(cfg, Init(), acts).value, id)
  {
    ExecBalances(cfg, k, Init(), acts, id);
    assert Worths(cfg, k, [], id) == [];
  }

  // ---------------------------------------------------------------- main results

  /**
   With P published messages of a notification and C of its deliveries returned to the queue by crashes, its
   onMessage calls number at most (P + C) * (maxRetries + 1).
   */
  lemma ExecutionsAtMost(cfg: Config, acts: seq<Action>, id: Id)
    requires Exec(cfg, Init(), acts).Some?
    ensures var tally := TallyOf(Exec(cfg, Init(), acts).value, id);
            tally.executions <= (tally.published + tally.requeued) * (Retries(cfg) + 1)
  {
    RunWithinBudget(cfg, Calls, acts, id);
  }

  ghost function DeadLetterFlags(copies: seq<Copy>, id: Id): seq<nat> {
    seq(|copies|, t requires 0 <= t < |copies| =>
      if copies[t].body.id == id && copies[t].place.DeadLetter? then 1 else 0)
  }

  /** The copies of `id` in the dead-letter queue. */
  ghost function DeadLetters(copies: seq<Copy>, id: Id): nat {
    Sum(DeadLetterFlags(copies, id))
  }

  lemma DeadLettersAreEnds(cfg: Config, copies: seq<Copy>, id: Id)
    ensures DeadLetters(copies, id) <= Wealth(cfg, Ends, copies, id)
  {
    SumMonotone(DeadLetterFlags(copies, id), Worths(cfg, Ends, copies, id));
  }

  /**
   In every run, overlapping or not: acceptances by the provider and copies in the dead-letter queue together are no
   more than the messages that entered a main queue from outside the ladder.
   */
  lemma EndsAtMostMessages(cfg: Config, acts: seq<Action>, id: Id)
    requires Exec(cfg, Init(), acts).Some?
    ensures var s := Exec(cfg, Init(), acts).value;
            Successes(TallyOf(s, id).outcomes) + DeadLetters(s.copies, id) <=
            TallyOf(s, id).published + TallyOf(s, id).requeued
  {
    RunWithinBudget(cfg, Ends, acts, id);
    DeadLettersAreEnds(cfg, Exec(cfg, Init(), acts).value.copies, id);
  }
}
