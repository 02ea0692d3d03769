/**
 How much surviving handlers can add. The budgets of module Budget hold with them: a delivery that the broker takes
 back is paid for once more, and its surviving handler lives on what it had. And with one worker per channel every
 acceptance but one is still paid for by a handler that died between the send and markSent, with its connection or
 after it.
 */
module SurvivorBounds {
  import opened Domain
  import opened Protocol
  import opened Agreement
  import opened Convergence
  import opened AuditTrail
  import opened Budget
  import opened BoundedWork
  import opened DuplicateDelivery
  import opened LosingRuns
  import opened Sums
  import opened Wire
  import opened SharedChannel
  import opened Survivors

  // ---------------------------------------------------------------- what surviving handlings are worth

  /** Survivors stand for deliveries of the broker's, one for each worker and delivery, of workers that are down. */
  ghost predicate Placed(cfg: Config, p: Plant) {
    && |p.sys.sockets| == |cfg.workers|
    && forall k :: k in p.survivors ==>
         k.0 < |cfg.workers| && k.1 < |p.sys.core.copies| && k.0 in p.down && p.survivors[k].place.Unacked?
  }

  lemma OccurKeepsSizes(cfg: Config, y: System, e: Event)
    requires Agreed(cfg, y.core) && Wired(cfg, y) && CanOccur(cfg, y, e)
    ensures |Occur(cfg, y, e).core.copies| >= |y.core.copies| && |Occur(cfg, y, e).sockets| == |y.sockets|
  {
    if e.Send? {
      HeadIsNext(cfg, y, e.worker);
      FlushShapes(cfg, y.core, y.sockets[e.worker][0].copy);
    } else if e.Outside? {
      OutsideShape(cfg, y.core, e.action);
    }
  }

  lemma PlacedStep(cfg: Config, p: Plant, h: Happening)
    requires PlantSane(cfg, p) && Placed(cfg, p) && CanHappen(cfg, p, h)
    ensures Placed(cfg, Happen(cfg, p, h))
  {
    if h.Usual? {
      OccurKeepsSizes(cfg, p.sys, h.event);
    } else if h.Cut? {
      OccurKeepsSizes(cfg, p.sys, Lose(h.worker));
    }
  }

  /** What worker `w`'s surviving handlings are worth, delivery by delivery. */
  ghost function RowOf(cfg: Config, k: Kind, sv: map<(nat, nat), Copy>, n: nat, id: Id, w: nat): seq<nat> {
    seq(n, t requires 0 <= t < n => if (w, t) in sv then Worth(cfg, k, sv[(w, t)], id) else 0)
  }

  ghost function RowSums(cfg: Config, k: Kind, sv: map<(nat, nat), Copy>, n: nat, workers: nat, id: Id): seq<nat> {
    seq(workers, w requires 0 <= w < workers => Sum(RowOf(cfg, k, sv, n, id, w)))
  }

  /** What all surviving handlings are worth. */
  ghost function SurvivorWealth(cfg: Config, k: Kind, p: Plant, id: Id): nat {
    Sum(RowSums(cfg, k, p.survivors, |p.sys.core.copies|, |p.sys.sockets|, id))
  }

  lemma {:induction false} SumPadded(xs: seq<nat>, ys: seq<nat>)
    requires |xs| >= |ys| && forall i :: 0 <= i < |xs| ==> xs[i] <= if i < |ys| then ys[i] else 0
    ensures Sum(xs) <= Sum(ys)
    decreases |xs|
  {
    if |xs| == |ys| {
      SumMonotone(xs, ys);
    } else {
      SumPadded(xs[..|xs| - 1], ys);
    }
  }

  /** With no new survivor the survivors are worth no more than before. */
  lemma NoNewSurvivors(cfg: Config, k: Kind, p: Plant, p': Plant, id: Id)
    requires Placed(cfg, p) && |p'.sys.sockets| == |p.sys.sockets|
    requires |p'.sys.core.copies| >= |p.sys.core.copies|
    requires forall l :: l in p'.survivors ==> l in p.survivors && p'.survivors[l] == p.survivors[l]
    ensures SurvivorWealth(cfg, k, p', id) <= SurvivorWealth(cfg, k, p, id)
  {
    var n, n', m := |p.sys.core.copies|, |p'.sys.core.copies|, |p.sys.sockets|;
    forall w | 0 <= w < m
      ensures RowSums(cfg, k, p'.survivors, n', m, id)[w] <= RowSums(cfg, k, p.survivors, n, m, id)[w]
    {
      SumPadded(RowOf(cfg, k, p'.survivors, n', id, w), RowOf(cfg, k, p.survivors, n, id, w));
    }
    SumMonotone(RowSums(cfg, k, p'.survivors, n', m, id), RowSums(cfg, k, p.survivors, n, m, id));
  }

  /** Replacing one worker's row changes the sum by the difference of the two rows. */
  lemma RowReplaced(cfg: Config, k: Kind, sv: map<(nat, nat), Copy>, sv': map<(nat, nat), Copy>, n: nat, m: nat, id: Id,
                    w: nat)
    requires w < m && forall v: nat :: v < m && v != w ==> RowOf(cfg, k, sv', n, id, v) == RowOf(cfg, k, sv, n, id, v)
    ensures Sum(RowSums(cfg, k, sv', n, m, id)) + Sum(RowOf(cfg, k, sv, n, id, w)) ==
            Sum(RowSums(cfg, k, sv, n, m, id)) + Sum(RowOf(cfg, k, sv', n, id, w))
  {
    var x := Sum(RowOf(cfg, k, sv', n, id, w));
    assert RowSums(cfg, k, sv', n, m, id) == RowSums(cfg, k, sv, n, m, id)[w := x];
    SumUpdate(RowSums(cfg, k, sv, n, m, id), w, x);
  }

  // ---------------------------------------------------------------- the connection dies

  /** What the first `n` deliveries that worker `w` goes on handling are worth. */
  ghost function NewRow(cfg: Config, k: Kind, copies: seq<Copy>, id: Id, w: nat, n: nat): seq<nat>
    requires n <= |copies|
  {
    seq(n, t requires 0 <= t < n =>
      if HeldBy(copies[t], w) && !copies[t].place.pc.Done? then Worth(cfg, k, copies[t], id) else 0)
  }

  /** One delivery is taken back and its handler lives on. */
  lemma TakenBackPays(cfg: Config, k: Kind, s: State, t: nat, id: Id)
    requires IsUnacked(s, t) && CopyOk(cfg, s, s.copies[t])
    ensures var s' := ReturnToMain(s, t);
            Wealth(cfg, k, s'.copies, id) + Worth(cfg, k, s.copies[t], id) + Allowance(cfg, k, TallyOf(s, id)) <=
            Wealth(cfg, k, s.copies, id) + Allowance(cfg, k, TallyOf(s', id))
    ensures Spent(k, TallyOf(ReturnToMain(s, t), id)) == Spent(k, TallyOf(s, id))
  {
    var s' := ReturnToMain(s, t);
    ReturnShape(s, t, id);
    QueuedWorth(cfg, k, s, s'.copies[t], id);
    WealthUpdate(cfg, k, s.copies, t, s'.copies[t], id);
    if s.copies[t].body.id == id {
      AllowanceGrows(cfg, k, TallyOf(s, id), TallyOf(s', id));
    }
  }

  lemma NewRowSnoc(cfg: Config, k: Kind, copies: seq<Copy>, id: Id, w: nat, n: nat)
    requires 1 <= n <= |copies|
    ensures Sum(NewRow(cfg, k, copies, id, w, n)) == Sum(NewRow(cfg, k, copies, id, w, n - 1)) +
            if HeldBy(copies[n - 1], w) && !copies[n - 1].place.pc.Done? then Worth(cfg, k, copies[n - 1], id) else 0
  {
    var x := if HeldBy(copies[n - 1], w) && !copies[n - 1].place.pc.Done? then Worth(cfg, k, copies[n - 1], id) else 0;
    assert NewRow(cfg, k, copies, id, w, n) == NewRow(cfg, k, copies, id, w, n - 1) + [x];
    SumSnoc(NewRow(cfg, k, copies, id, w, n - 1), x);
  }

  ghost predicate CutBalances(cfg: Config, k: Kind, s: State, w: nat, n: nat, id: Id)
    requires n <= |s.copies|
  {
    var s' := RequeueAll(s, w, n);
    && Spent(k, TallyOf(s', id)) == Spent(k, TallyOf(s, id))
    && Wealth(cfg, k, s'.copies, id) + Sum(NewRow(cfg, k, s.copies, id, w, n)) + Allowance(cfg, k, TallyOf(s, id)) <=
       Wealth(cfg, k, s.copies, id) + Allowance(cfg, k, TallyOf(s', id))
  }

  lemma {:induction false} TakenBackAllPay(cfg: Config, k: Kind, s: State, w: nat, n: nat, id: Id)
    requires n <= |s.copies| && Agreed(cfg, s)
    ensures CutBalances(cfg, k, s, w, n, id)
  {
    if n > 0 {
      var s1 := RequeueAll(s, w, n - 1);
      TakenBackAllPay(cfg, k, s, w, n - 1, id);
      RequeueAllCopies(s, w, n - 1);
      NewRowSnoc(cfg, k, s.copies, id, w, n);
      if HeldBy(s.copies[n - 1], w) {
        assert CopyOk(cfg, s, s.copies[n - 1]) && s1.copies[n - 1] == s.copies[n - 1];
        RequeueAllKeeps(s, w, n - 1);
        TakenBackPays(cfg, k, s1, n - 1, id);
      }
    }
  }

  lemma {:induction false} RequeueAllKeeps(s: State, w: nat, n: nat)
    requires n <= |s.copies|
    ensures RequeueAll(s, w, n).rows == s.rows && RequeueAll(s, w, n).now == s.now
  {
    if n > 0 {
      RequeueAllKeeps(s, w, n - 1);
    }
  }

  /** The survivors of a cut fill the row of its worker, which was empty. */
  lemma CutFillsRow(cfg: Config, k: Kind, sv: map<(nat, nat), Copy>, copies: seq<Copy>, m: nat, w: nat, id: Id)
    requires w < m && forall t: nat :: (w, t) !in sv
    ensures Sum(RowSums(cfg, k, sv + AtHand(copies, w), |copies|, m, id)) ==
            Sum(RowSums(cfg, k, sv, |copies|, m, id)) + Sum(NewRow(cfg, k, copies, id, w, |copies|))
  {
    var sv' := sv + AtHand(copies, w);
    assert RowOf(cfg, k, sv', |copies|, id, w) == NewRow(cfg, k, copies, id, w, |copies|);
    SumOfZeros(RowOf(cfg, k, sv, |copies|, id, w));
    forall v: nat | v < m && v != w ensures RowOf(cfg, k, sv', |copies|, id, v) == RowOf(cfg, k, sv, |copies|, id, v) {
    }
    RowReplaced(cfg, k, sv, sv', |copies|, m, id, w);
  }

  // ---------------------------------------------------------------- every happening keeps to the budget

  ghost predicate PlantWithinBudget(cfg: Config, k: Kind, p: Plant, id: Id) {
    Spent(k, TallyOf(p.sys.core, id)) + Wealth(cfg, k, p.sys.core.copies, id) + SurvivorWealth(cfg, k, p, id) <=
    Allowance(cfg, k, TallyOf(p.sys.core, id))
  }

  lemma UsualWithinBudget(cfg: Config, k: Kind, p: Plant, e: Event, id: Id)
    requires PlantSane(cfg, p) && Placed(cfg, p) && PlantWithinBudget(cfg, k, p, id) && CanHappen(cfg, p, Usual(e))
    ensures PlantWithinBudget(cfg, k, Happen(cfg, p, Usual(e)), id)
  {
    EventRefines(cfg, p.sys, e);
    ExecBalances(cfg, k, p.sys.core, Meaning(p.sys, e), id);
    OccurKeepsSizes(cfg, p.sys, e);
    NoNewSurvivors(cfg, k, p, Happen(cfg, p, Usual(e)), id);
  }

  lemma CutShape(cfg: Config, p: Plant, w: nat)
    requires PlantSane(cfg, p) && Placed(cfg, p) && CanHappen(cfg, p, Cut(w))
    ensures var p' := Happen(cfg, p, Cut(w));
            && p'.sys.core == RequeueAll(p.sys.core, w, |p.sys.core.copies|)
            && |p'.sys.core.copies| == |p.sys.core.copies| && |p'.sys.sockets| == |p.sys.sockets|
            && p'.survivors == p.survivors + AtHand(p.sys.core.copies, w)
            && forall t: nat :: (w, t) !in p.survivors
  {
  }

  lemma CutWithinBudget(cfg: Config, k: Kind, p: Plant, w: nat, id: Id)
    requires PlantSane(cfg, p) && Placed(cfg, p) && PlantWithinBudget(cfg, k, p, id) && CanHappen(cfg, p, Cut(w))
    ensures PlantWithinBudget(cfg, k, Happen(cfg, p, Cut(w)), id)
  {
    CutShape(cfg, p, w);
    TakenBackAllPay(cfg, k, p.sys.core, w, |p.sys.core.copies|, id);
    CutFillsRow(cfg, k, p.survivors, p.sys.core.copies, |p.sys.sockets|, w, id);
  }

  /** One survivor changes. */
  lemma SurvivorUpdate(cfg: Config, k: Kind, sv: map<(nat, nat), Copy>, n: nat, m: nat, l: (nat, nat), c: Copy, id: Id)
    requires l in sv && l.0 < m && l.1 < n
    ensures Sum(RowSums(cfg, k, sv[l := c], n, m, id)) + Worth(cfg, k, sv[l], id) ==
            Sum(RowSums(cfg, k, sv, n, m, id)) + Worth(cfg, k, c, id)
  {
    var row, row' := RowOf(cfg, k, sv, n, id, l.0), RowOf(cfg, k, sv[l := c], n, id, l.0);
    assert row' == row[l.1 := Worth(cfg, k, c, id)];
    SumUpdate(row, l.1, Worth(cfg, k, c, id));
    forall v: nat | v < m && v != l.0 ensures RowOf(cfg, k, sv[l := c], n, id, v) == RowOf(cfg, k, sv, n, id, v) {
    }
    RowReplaced(cfg, k, sv, sv[l := c], n, m, id, l.0);
  }

  lemma ApartAgreed(cfg: Config, p: Plant, l: (nat, nat))
    requires PlantSane(cfg, p) && l in p.survivors
    ensures Agreed(cfg, Apart(p, l))
  {
    SaneWith(cfg, p.sys.core, [p.survivors[l]]);
  }

  lemma SurviveWithinBudget(cfg: Config, k: Kind, p: Plant, l: (nat, nat), o: Outcome, id: Id)
    requires PlantSane(cfg, p) && Placed(cfg, p) && PlantWithinBudget(cfg, k, p, id)
    requires CanHappen(cfg, p, Survive(l, o))
    ensures PlantWithinBudget(cfg, k, Happen(cfg, p, Survive(l, o)), id)
  {
    var p' := Happen(cfg, p, Survive(l, o));
    ApartAgreed(cfg, p, l);
    HandlePays(cfg, k, Apart(p, l), 0, o, id);
    SurvivorUpdate(cfg, k, p.survivors, |p.sys.core.copies|, |p.sys.sockets|, l, p'.survivors[l], id);
  }

  lemma {:induction false} OperateWithinBudget(cfg: Config, k: Kind, hs: seq<Happening>, id: Id)
    requires Operate(cfg, hs).Some?
    ensures PlantSane(cfg, Operate(cfg, hs).value) && Placed(cfg, Operate(cfg, hs).value)
    ensures PlantWithinBudget(cfg, k, Operate(cfg, hs).value, id)
  {
    OperateSane(cfg, hs);
    if hs == [] {
      var p := Operate(cfg, hs).value;
      assert Worths(cfg, k, [], id) == [];
      forall w | 0 <= w < |p.sys.sockets| ensures RowSums(cfg, k, map[], 0, |p.sys.sockets|, id)[w] == 0 {
        SumOfZeros(RowOf(cfg, k, map[], 0, id, w));
      }
      SumOfZeros(RowSums(cfg, k, map[], 0, |p.sys.sockets|, id));
    } else {
      var p, h := Operate(cfg, hs[..|hs| - 1]).value, hs[|hs| - 1];
      OperateWithinBudget(cfg, k, hs[..|hs| - 1], id);
      PlacedStep(cfg, p, h);
      match h
      case Usual(e) => UsualWithinBudget(cfg, k, p, e, id);
      case Cut(w) => CutWithinBudget(cfg, k, p, w, id);
      case Survive(l, o) => SurviveWithinBudget(cfg, k, p, l, o, id);
    }
  }

  lemma PlantSpends(cfg: Config, k: Kind, hs: seq<Happening>, id: Id)
    requires Operate(cfg, hs).Some?
    ensures Spent(k, TallyOf(Operate(cfg, hs).value.sys.core, id)) <=
            Allowance(cfg, k, TallyOf(Operate(cfg, hs).value.sys.core, id))
  {
    OperateWithinBudget(cfg, k, hs, id);
  }

  /** Executions with survivors: at most (P + C) * (maxRetries + 1), a delivery taken back counting in C. */
  lemma SurvivingExecutionsAtMost(cfg: Config, hs: seq<Happening>, id: Id)
    requires Operate(cfg, hs).Some?
    ensures var tally := TallyOf(Operate(cfg, hs).value.sys.core, id);
            tally.executions <= (tally.published + tally.requeued) * (Retries(cfg) + 1)
  {
    PlantSpends(cfg, Calls, hs, id);
  }

  /** Acceptances and dead-letter copies with survivors: at most one for each message published or taken back. */
  lemma SurvivingEndsAtMostMessages(cfg: Config, hs: seq<Happening>, id: Id)
    requires Operate(cfg, hs).Some?
    ensures var s := Operate(cfg, hs).value.sys.core;
            Successes(TallyOf(s, id).outcomes) + DeadLetters(s.copies, id) <=
            TallyOf(s, id).published + TallyOf(s, id).requeued
  {
    OperateWithinBudget(cfg, Ends, hs, id);
    DeadLettersAreEnds(cfg, Operate(cfg, hs).value.sys.core.copies, id);
  }

  // ---------------------------------------------------------------- deaths in the success window

  /** Deliveries of worker `w` whose handlers are between a successful send of `id` and markSent. */
  ghost function WindowFlags(copies: seq<Copy>, w: nat, id: Id): seq<nat> {
    seq(|copies|, t requires 0 <= t < |copies| => if HeldBy(copies[t], w) && InWindow(copies[t], id) then 1 else 0)
  }

  ghost function SurvivorsInWindow(p: Plant, w: nat, id: Id): set<(nat, nat)> {
    set k | k in p.survivors && k.0 == w && InWindow(p.survivors[k], id)
  }

  /** The handlers in that window that die with worker `w`'s process, with a connection or without. */
  ghost function Dying(p: Plant, w: nat, id: Id): nat {
    Sum(WindowFlags(p.sys.core.copies, w, id)) + |SurvivorsInWindow(p, w, id)|
  }

  /** How many handlers have died in the success window of `id` during the run. */
  ghost function Deaths(cfg: Config, hs: seq<Happening>, id: Id): nat
    requires Operate(cfg, hs).Some?
  {
    if hs == [] then 0
    else
      var h := hs[|hs| - 1];
      Deaths(cfg, hs[..|hs| - 1], id)
      + if h.Usual? && h.event.Lose? then Dying(Operate(cfg, hs[..|hs| - 1]).value, h.event.worker, id) else 0
  }

  /** Some handler, with a connection or without, is in the success window. */
  ghost predicate SomeWins(p: Plant, id: Id) {
    SomeInWindow(p.sys.core, id) || exists k :: k in p.survivors && InWindow(p.survivors[k], id)
  }

  /** Every success is visible: its handler died in the window, or is in it, or the row is SENT. */
  ghost predicate Explained(p: Plant, id: Id, deaths: nat) {
    Successes(TallyOf(p.sys.core, id).outcomes) ==
    deaths + (if SomeWins(p, id) then 1 else 0) + (if IsSent(p.sys.core, id) then 1 else 0)
  }

  /** What a handler's step does to the row, the log and its own place in the window. */
  lemma StepWins(cfg: Config, s: State, t: nat, o: Outcome, id: Id)
    requires Agreed(cfg, s) && Enabled(cfg, s, Handle(t, o)) && (Busy(s.copies[t], id) ==> !IsSent(s, id))
    ensures var s' := HandleStep(cfg, s, t, o);
            var before, after := Successes(TallyOf(s, id).outcomes), Successes(TallyOf(s', id).outcomes);
            if Busy(s.copies[t], id)
            then after + (if InWindow(s.copies[t], id) then 1 else 0) ==
                 before + (if InWindow(s'.copies[t], id) then 1 else 0) + (if IsSent(s', id) then 1 else 0)
            else after == before && IsSent(s', id) == IsSent(s, id)
                 && !InWindow(s.copies[t], id) && !InWindow(s'.copies[t], id)
  {
    SuccessesSnoc(TallyOf(s, id).outcomes, o);
    assert CopyOk(cfg, s, s.copies[t]);
    if Busy(s.copies[t], id) {
      BusyStep(cfg, s, t, o, id);
    }
  }

  ghost predicate Tidy(cfg: Config, p: Plant, id: Id) {
    PlantSane(cfg, p) && OneCallEach(p) && QuietIfSent(p, id)
  }

  /** How a step of a handler accounts for its success: `c` is its delivery before, `c'` after. */
  ghost predicate StepAccounts(s: State, s': State, c: Copy, c': Copy, id: Id) {
    var before, after := Successes(TallyOf(s, id).outcomes), Successes(TallyOf(s', id).outcomes);
    if Busy(c, id)
    then !IsSent(s, id) &&
         after + (if InWindow(c, id) then 1 else 0) ==
         before + (if InWindow(c', id) then 1 else 0) + (if IsSent(s', id) then 1 else 0)
    else after == before && IsSent(s', id) == IsSent(s, id) && !InWindow(c, id) && !InWindow(c', id)
  }

  lemma RunHandlerAccounts(cfg: Config, p: Plant, t: nat, o: Outcome, id: Id)
    requires Tidy(cfg, p, id) && CanHappen(cfg, p, Usual(RunHandler(t, o)))
    ensures var s, p' := p.sys.core, Happen(cfg, p, Usual(RunHandler(t, o)));
            var s' := p'.sys.core;
            && StepAccounts(s, s', s.copies[t], s'.copies[t], id) && p'.survivors == p.survivors
            && |s'.copies| == |s.copies| && forall x :: 0 <= x < |s.copies| && x != t ==> s'.copies[x] == s.copies[x]
  {
    StepWins(cfg, p.sys.core, t, o, id);
    HandleKeepsOthers(cfg, p.sys.core, t, o);
  }

  /** No handler but that of delivery `t` is in the window. */
  ghost predicate OnlyDelivery(p: Plant, id: Id, t: nat) {
    && t < |p.sys.core.copies|
    && (forall x :: 0 <= x < |p.sys.core.copies| && x != t ==> !InWindow(p.sys.core.copies[x], id))
    && (forall k :: k in p.survivors ==> !InWindow(p.survivors[k], id))
  }

  /** No handler but survivor `k` is in the window. */
  ghost predicate OnlySurvivor(p: Plant, id: Id, k: (nat, nat)) {
    && k in p.survivors
    && (forall x :: 0 <= x < |p.sys.core.copies| ==> !InWindow(p.sys.core.copies[x], id))
    && (forall l :: l in p.survivors && l != k ==> !InWindow(p.survivors[l], id))
  }

  lemma BusyDeliveryAlone(cfg: Config, p: Plant, id: Id, t: nat)
    requires !Shared(cfg) && Tidy(cfg, p, id) && t < |p.sys.core.copies| && Busy(p.sys.core.copies[t], id)
    ensures OnlyDelivery(p, id, t)
  {
    OneBusyCopy(cfg, p, id, t);
  }

  lemma BusySurvivorAlone(cfg: Config, p: Plant, id: Id, k: (nat, nat))
    requires !Shared(cfg) && Tidy(cfg, p, id) && k in p.survivors && Busy(p.survivors[k], id)
    ensures OnlySurvivor(p, id, k)
  {
    OneBusySurvivor(cfg, p, id, k);
  }

  lemma DeliveryStepExplained(p: Plant, p': Plant, t: nat, id: Id, deaths: nat)
    requires Explained(p, id, deaths) && t < |p.sys.core.copies| && p'.survivors == p.survivors
    requires var s, s' := p.sys.core, p'.sys.core;
             && |s'.copies| == |s.copies| && StepAccounts(s, s', s.copies[t], s'.copies[t], id)
             && forall x :: 0 <= x < |s.copies| && x != t ==> s'.copies[x] == s.copies[x]
    requires Busy(p.sys.core.copies[t], id) ==> OnlyDelivery(p, id, t)
    ensures Explained(p', id, deaths)
  {
    if Busy(p.sys.core.copies[t], id) {
      WinsAt(p, id, t);
      WinsAt(p', id, t);
    } else {
      SameWins(p, p', id);
    }
  }

  /** A call with a connection. */
  lemma RunHandlerExplained(cfg: Config, p: Plant, t: nat, o: Outcome, id: Id, deaths: nat)
    requires !Shared(cfg) && Tidy(cfg, p, id) && Explained(p, id, deaths)
    requires CanHappen(cfg, p, Usual(RunHandler(t, o)))
    ensures Explained(Happen(cfg, p, Usual(RunHandler(t, o))), id, deaths)
  {
    RunHandlerAccounts(cfg, p, t, o, id);
    if Busy(p.sys.core.copies[t], id) {
      BusyDeliveryAlone(cfg, p, id, t);
    }
    DeliveryStepExplained(p, Happen(cfg, p, Usual(RunHandler(t, o))), t, id, deaths);
  }

  lemma HandleKeepsOthers(cfg: Config, s: State, t: nat, o: Outcome)
    requires Enabled(cfg, s, Handle(t, o))
    ensures var s' := HandleStep(cfg, s, t, o);
            |s'.copies| == |s.copies| && forall x :: 0 <= x < |s.copies| && x != t ==> s'.copies[x] == s.copies[x]
  {
  }

  /** If all handlers but that of delivery `t` are out of the window, it decides. */
  lemma WinsAt(p: Plant, id: Id, t: nat)
    requires OnlyDelivery(p, id, t)
    ensures SomeWins(p, id) == InWindow(p.sys.core.copies[t], id)
  {
  }

  lemma WinsApart(p: Plant, id: Id, k: (nat, nat))
    requires OnlySurvivor(p, id, k)
    ensures SomeWins(p, id) == InWindow(p.survivors[k], id)
  {
  }

  /** The same handlers are in the window. */
  lemma SameWins(p: Plant, p': Plant, id: Id)
    requires |p'.sys.core.copies| >= |p.sys.core.copies| && p'.survivors.Keys == p.survivors.Keys
    requires forall t :: 0 <= t < |p'.sys.core.copies| ==>
               (InWindow(p'.sys.core.copies[t], id) <==>
                t < |p.sys.core.copies| && InWindow(p.sys.core.copies[t], id))
    requires forall k :: k in p.survivors ==> InWindow(p'.survivors[k], id) == InWindow(p.survivors[k], id)
    ensures SomeWins(p', id) == SomeWins(p, id)
  {
    if SomeInWindow(p.sys.core, id) {
      var t :| 0 <= t < |p.sys.core.copies| && InWindow(p.sys.core.copies[t], id);
      assert InWindow(p'.sys.core.copies[t], id);
    }
    if k :| k in p.survivors && InWindow(p.survivors[k], id) {
      assert InWindow(p'.survivors[k], id);
    }
  }

  lemma SurviveAccounts(cfg: Config, p: Plant, k: (nat, nat), o: Outcome, id: Id)
    requires Tidy(cfg, p, id) && CanHappen(cfg, p, Survive(k, o))
    ensures var p' := Happen(cfg, p, Survive(k, o));
            && StepAccounts(p.sys.core, p'.sys.core, p.survivors[k], p'.survivors[k], id)
            && p'.sys.core.copies == p.sys.core.copies && p'.survivors == p.survivors[k := p'.survivors[k]]
  {
    ApartAgreed(cfg, p, k);
    StepWins(cfg, Apart(p, k), 0, o, id);
  }

  lemma SurvivorStepExplained(p: Plant, p': Plant, k: (nat, nat), id: Id, deaths: nat)
    requires Explained(p, id, deaths) && k in p.survivors && p'.survivors.Keys == p.survivors.Keys
    requires p'.survivors == p.survivors[k := p'.survivors[k]] && p'.sys.core.copies == p.sys.core.copies
    requires StepAccounts(p.sys.core, p'.sys.core, p.survivors[k], p'.survivors[k], id)
    requires Busy(p.survivors[k], id) ==> OnlySurvivor(p, id, k)
    ensures Explained(p', id, deaths)
  {
    if Busy(p.survivors[k], id) {
      WinsApart(p, id, k);
      WinsApart(p', id, k);
    } else {
      SameWins(p, p', id);
    }
  }

  /** A call without one. */
  lemma SurviveExplained(cfg: Config, p: Plant, k: (nat, nat), o: Outcome, id: Id, deaths: nat)
    requires !Shared(cfg) && Tidy(cfg, p, id) && Explained(p, id, deaths) && CanHappen(cfg, p, Survive(k, o))
    ensures Explained(Happen(cfg, p, Survive(k, o)), id, deaths)
  {
    SurviveAccounts(cfg, p, k, o, id);
    if Busy(p.survivors[k], id) {
      BusySurvivorAlone(cfg, p, id, k);
    }
    SurvivorStepExplained(p, Happen(cfg, p, Survive(k, o)), k, id, deaths);
  }

  lemma SocketEventExplained(cfg: Config, p: Plant, e: Event, id: Id, deaths: nat)
    requires PlantSane(cfg, p) && Explained(p, id, deaths) && CanHappen(cfg, p, Usual(e))
    requires !e.RunHandler? && !e.Lose?
    ensures Explained(Happen(cfg, p, Usual(e)), id, deaths)
  {
    var a := Meaning(p.sys, e)[0];
    if e.Send? {
      HeadIsNext(cfg, p.sys, e.worker);
    }
    OtherKeepsHandlers(cfg, p.sys.core, a, id);
    OtherKeepsRecords(cfg, p.sys.core, a, id);
    SameWins(p, Happen(cfg, p, Usual(e)), id);
  }

  /** The deliveries of worker `w` are back in the queue, all else is as it was. */
  ghost predicate TakenBack(s: State, s': State, w: nat, id: Id) {
    && |s'.copies| == |s.copies|
    && (forall t :: 0 <= t < |s.copies| ==>
          s'.copies[t] == if HeldBy(s.copies[t], w) then s.copies[t].(place := Main) else s.copies[t])
    && TallyOf(s', id).outcomes == TallyOf(s, id).outcomes && IsSent(s', id) == IsSent(s, id)
  }

  lemma LoseTakesBack(cfg: Config, y: System, w: nat, id: Id)
    requires CanOccur(cfg, y, Lose(w))
    ensures TakenBack(y.core, Occur(cfg, y, Lose(w)).core, w, id)
  {
    RequeueAllCopies(y.core, w, |y.core.copies|);
    RequeueAllOutcomes(y.core, w, |y.core.copies|, id);
  }

  lemma CutKeepsWins(p: Plant, p': Plant, w: nat, id: Id)
    requires TakenBack(p.sys.core, p'.sys.core, w, id)
    requires p'.survivors == p.survivors + AtHand(p.sys.core.copies, w)
    requires forall t: nat :: (w, t) !in p.survivors
    ensures SomeWins(p, id) ==> SomeWins(p', id)
  {
    var s := p.sys.core;
    if SomeInWindow(s, id) {
      var t: nat :| t < |s.copies| && InWindow(s.copies[t], id);
      if HeldBy(s.copies[t], w) {
        assert (w, t) in AtHand(s.copies, w) && p'.survivors[(w, t)] == s.copies[t];
      } else {
        assert InWindow(p'.sys.core.copies[t], id);
      }
    } else if k :| k in p.survivors && InWindow(p.survivors[k], id) {
      assert k !in AtHand(s.copies, w) && p'.survivors[k] == p.survivors[k];
    }
  }

  lemma CutAddsNoWins(p: Plant, p': Plant, w: nat, id: Id)
    requires TakenBack(p.sys.core, p'.sys.core, w, id)
    requires p'.survivors == p.survivors + AtHand(p.sys.core.copies, w)
    ensures SomeWins(p', id) ==> SomeWins(p, id)
  {
    var s := p.sys.core;
    if SomeInWindow(p'.sys.core, id) {
      var t :| 0 <= t < |s.copies| && InWindow(p'.sys.core.copies[t], id);
      assert InWindow(s.copies[t], id);
    } else if k :| k in p'.survivors && InWindow(p'.survivors[k], id) {
      if k in AtHand(s.copies, w) {
        assert InWindow(s.copies[k.1], id);
      } else {
        assert InWindow(p.survivors[k], id);
      }
    }
  }

  /** The connection dies: whoever was in the window still is. */
  lemma CutExplained(cfg: Config, p: Plant, w: nat, id: Id, deaths: nat)
    requires PlantSane(cfg, p) && Explained(p, id, deaths) && CanHappen(cfg, p, Cut(w))
    ensures Explained(Happen(cfg, p, Cut(w)), id, deaths)
  {
    var p' := Happen(cfg, p, Cut(w));
    LoseTakesBack(cfg, p.sys, w, id);
    CutKeepsWins(p, p', w, id);
    CutAddsNoWins(p, p', w, id);
  }

  lemma {:induction false} RequeueAllOutcomes(s: State, w: nat, n: nat, id: Id)
    requires n <= |s.copies|
    ensures TallyOf(RequeueAll(s, w, n), id).outcomes == TallyOf(s, id).outcomes
    ensures IsSent(RequeueAll(s, w, n), id) == IsSent(s, id)
  {
    if n > 0 {
      RequeueAllOutcomes(s, w, n - 1, id);
    }
  }

  /** Worker `w`'s process has died, with the calls it had. */
  ghost predicate Died(p: Plant, p': Plant, w: nat, id: Id) {
    && TakenBack(p.sys.core, p'.sys.core, w, id)
    && p'.survivors == map k | k in p.survivors && k.0 != w :: p.survivors[k]
  }

  lemma CopyDies(p: Plant, p': Plant, w: nat, id: Id, deaths: nat, t: nat)
    requires Died(p, p', w, id) && Explained(p, id, deaths)
    requires t < |p.sys.core.copies| && InWindow(p.sys.core.copies[t], id)
    requires OnlyDelivery(p, id, t)
    ensures Explained(p', id, deaths + Dying(p, w, id))
  {
    OnlyOneDies(p, w, id, t);
    WinsAt(p, id, t);
    WinsAt(p', id, t);
  }

  lemma SurvivorDies(p: Plant, p': Plant, w: nat, id: Id, deaths: nat, k: (nat, nat))
    requires Died(p, p', w, id) && Explained(p, id, deaths)
    requires k in p.survivors && InWindow(p.survivors[k], id)
    requires OnlySurvivor(p, id, k)
    ensures Explained(p', id, deaths + Dying(p, w, id))
  {
    OnlySurvivorDies(p, w, id, k);
    WinsApart(p, id, k);
    if k.0 != w {
      WinsApart(p', id, k);
    }
  }

  lemma LoseDies(cfg: Config, p: Plant, w: nat, id: Id)
    requires CanHappen(cfg, p, Usual(Lose(w)))
    ensures Died(p, Happen(cfg, p, Usual(Lose(w))), w, id)
  {
    LoseTakesBack(cfg, p.sys, w, id);
  }

  lemma NoneInWindowDies(p: Plant, p': Plant, w: nat, id: Id, deaths: nat)
    requires Died(p, p', w, id) && Explained(p, id, deaths) && !SomeWins(p, id)
    ensures Explained(p', id, deaths + Dying(p, w, id))
  {
    forall t | 0 <= t < |p.sys.core.copies| ensures !InWindow(p.sys.core.copies[t], id) {
    }
    NobodyDies(p, w, id);
    assert !SomeWins(p', id);
  }

  /** Whoever is in the window is there alone. */
  ghost predicate AloneInWindow(p: Plant, id: Id) {
    SomeWins(p, id) ==>
      || (exists t: nat :: OnlyDelivery(p, id, t) && InWindow(p.sys.core.copies[t], id))
      || (exists k :: OnlySurvivor(p, id, k) && InWindow(p.survivors[k], id))
  }

  lemma TidyIsAlone(cfg: Config, p: Plant, id: Id)
    requires !Shared(cfg) && Tidy(cfg, p, id)
    ensures AloneInWindow(p, id)
  {
    if SomeInWindow(p.sys.core, id) {
      var t: nat :| t < |p.sys.core.copies| && InWindow(p.sys.core.copies[t], id);
      BusyDeliveryAlone(cfg, p, id, t);
    } else if SomeWins(p, id) {
      var k :| k in p.survivors && InWindow(p.survivors[k], id);
      BusySurvivorAlone(cfg, p, id, k);
    }
  }

  lemma DiedExplained(p: Plant, p': Plant, w: nat, id: Id, deaths: nat)
    requires Died(p, p', w, id) && Explained(p, id, deaths) && AloneInWindow(p, id)
    ensures Explained(p', id, deaths + Dying(p, w, id))
  {
    if t: nat :| OnlyDelivery(p, id, t) && InWindow(p.sys.core.copies[t], id) {
      CopyDies(p, p', w, id, deaths, t);
    } else if k :| OnlySurvivor(p, id, k) && InWindow(p.survivors[k], id) {
      SurvivorDies(p, p', w, id, deaths, k);
    } else {
      NoneInWindowDies(p, p', w, id, deaths);
    }
  }

  /** The process dies: whoever was in its window is counted, and that is one at most. */
  lemma LoseExplained(cfg: Config, p: Plant, w: nat, id: Id, deaths: nat)
    requires !Shared(cfg) && Tidy(cfg, p, id) && Explained(p, id, deaths) && CanHappen(cfg, p, Usual(Lose(w)))
    ensures Explained(Happen(cfg, p, Usual(Lose(w))), id, deaths + Dying(p, w, id))
  {
    LoseDies(cfg, p, w, id);
    TidyIsAlone(cfg, p, id);
    DiedExplained(p, Happen(cfg, p, Usual(Lose(w))), w, id, deaths);
  }

  lemma NobodyDies(p: Plant, w: nat, id: Id)
    requires forall t :: 0 <= t < |p.sys.core.copies| ==> !InWindow(p.sys.core.copies[t], id)
    requires forall k :: k in p.survivors ==> !InWindow(p.survivors[k], id)
    ensures Dying(p, w, id) == 0
  {
    SumOfZeros(WindowFlags(p.sys.core.copies, w, id));
    assert SurvivorsInWindow(p, w, id) == {};
  }

  lemma OnlyOneDies(p: Plant, w: nat, id: Id, t: nat)
    requires t < |p.sys.core.copies| && InWindow(p.sys.core.copies[t], id)
    requires OnlyDelivery(p, id, t)
    ensures Dying(p, w, id) == if HeldBy(p.sys.core.copies[t], w) then 1 else 0
  {
    var flags := WindowFlags(p.sys.core.copies, w, id);
    SumUpdate(flags, t, 0);
    SumOfZeros(flags[t := 0]);
    assert SurvivorsInWindow(p, w, id) == {};
  }

  lemma OnlySurvivorDies(p: Plant, w: nat, id: Id, k: (nat, nat))
    requires k in p.survivors && InWindow(p.survivors[k], id)
    requires OnlySurvivor(p, id, k)
    ensures Dying(p, w, id) == if k.0 == w then 1 else 0
  {
    SumOfZeros(WindowFlags(p.sys.core.copies, w, id));
    assert SurvivorsInWindow(p, w, id) == if k.0 == w then {k} else {};
  }

  lemma {:induction false} OperateExplained(cfg: Config, hs: seq<Happening>, id: Id)
    requires !Shared(cfg) && Operate(cfg, hs).Some?
    ensures Tidy(cfg, Operate(cfg, hs).value, id)
    ensures Explained(Operate(cfg, hs).value, id, Deaths(cfg, hs, id))
  {
    OperateQuiet(cfg, hs, id);
    if hs != [] {
      var p, h := Operate(cfg, hs[..|hs| - 1]).value, hs[|hs| - 1];
      var deaths := Deaths(cfg, hs[..|hs| - 1], id);
      OperateExplained(cfg, hs[..|hs| - 1], id);
      match h
      case Usual(e) =>
        if e.Lose? {
          LoseExplained(cfg, p, e.worker, id, deaths);
        } else if e.RunHandler? {
          RunHandlerExplained(cfg, p, e.copy, e.outcome, id, deaths);
        } else {
          SocketEventExplained(cfg, p, e, id, deaths);
        }
      case Cut(w) => CutExplained(cfg, p, w, id, deaths);
      case Survive(k, o) => SurviveExplained(cfg, p, k, o, id, deaths);
    }
  }

  /** With one worker per channel every acceptance but one is paid for by a handler's death in the success window. */
  lemma UnsharedSurvivingSuccesses(cfg: Config, hs: seq<Happening>, id: Id)
    requires !Shared(cfg) && Operate(cfg, hs).Some?
    ensures Successes(TallyOf(Operate(cfg, hs).value.sys.core, id).outcomes) <= 1 + Deaths(cfg, hs, id)
  {
    var p := Operate(cfg, hs).value;
    OperateExplained(cfg, hs, id);
    assert IsSent(p.sys.core, id) ==> NoneBusy(p, id);
  }

  // ---------------------------------------------------------------- without surviving handlers

  lemma {:induction false} RequeueAllLost(s: State, w: nat, n: nat, id: Id)
    requires n <= |s.copies|
    ensures TallyOf(RequeueAll(s, w, n), id).lostSuccesses ==
            TallyOf(s, id).lostSuccesses + Sum(WindowFlags(s.copies[..n], w, id))
  {
    if n > 0 {
      RequeueAllLost(s, w, n - 1, id);
      RequeueAllCopies(s, w, n - 1);
      var x := if HeldBy(s.copies[n - 1], w) && InWindow(s.copies[n - 1], id) then 1 else 0;
      assert WindowFlags(s.copies[..n], w, id) == WindowFlags(s.copies[..n - 1], w, id) + [x];
      SumSnoc(WindowFlags(s.copies[..n - 1], w, id), x);
    }
  }

  lemma EventLost(cfg: Config, y: System, e: Event, id: Id)
    requires Agreed(cfg, y.core) && Wired(cfg, y) && CanOccur(cfg, y, e)
    ensures TallyOf(Occur(cfg, y, e).core, id).lostSuccesses ==
            TallyOf(y.core, id).lostSuccesses +
            if e.Lose? then Sum(WindowFlags(y.core.copies, e.worker, id)) else 0
  {
    if e.Lose? {
      RequeueAllLost(y.core, e.worker, |y.core.copies|, id);
      assert y.core.copies[..|y.core.copies|] == y.core.copies;
    } else if e.RunHandler? {
      HandleLosesNone(cfg, y.core, e.copy, e.outcome, id);
    } else {
      if e.Send? {
        HeadIsNext(cfg, y, e.worker);
      }
      OtherKeepsRecords(cfg, y.core, Meaning(y, e)[0], id);
    }
  }

  lemma HandleLosesNone(cfg: Config, s: State, t: nat, o: Outcome, id: Id)
    requires Enabled(cfg, s, Handle(t, o))
    ensures TallyOf(HandleStep(cfg, s, t, o), id).lostSuccesses == TallyOf(s, id).lostSuccesses
  {
  }

  /** In a run of Wire the deaths are the lost successes that Protocol counts. */
  lemma {:induction false} DeathsOfPlay(cfg: Config, es: seq<Event>, y: System, id: Id)
    requires Plays(cfg, es, y)
    ensures Operates(cfg, UsualRun(es), Plant(y, map[], {}))
    ensures Deaths(cfg, UsualRun(es), id) == TallyOf(y.core, id).lostSuccesses
  {
    PlayOperates(cfg, es, y);
    if es != [] {
      var e, before := es[|es| - 1], Play(cfg, es[..|es| - 1]).value;
      DeathsOfPlay(cfg, es[..|es| - 1], before, id);
      var acts := WireRefinesProtocol(cfg, es[..|es| - 1]);
      AgreedRun(cfg, acts);
      EventLost(cfg, before, e, id);
      assert UsualRun(es)[..|UsualRun(es)| - 1] == UsualRun(es[..|es| - 1]);
      assert SurvivorsInWindow(Plant(before, map[], {}), if e.Lose? then e.worker else 0, id) == {};
    }
  }

  ghost predicate CanDeliverUnaccounted(cfg: Config) {
    exists hs: seq<Happening>, id: Id :: DeliversUnaccounted(cfg, hs, id)
  }

  ghost predicate DeliversUnaccounted(cfg: Config, hs: seq<Happening>, id: Id) {
    && Operate(cfg, hs).Some?
    && Successes(TallyOf(Operate(cfg, hs).value.sys.core, id).outcomes) > 1 + Deaths(cfg, hs, id)
  }

  /** The exact condition, surviving handlers included: deaths explain all acceptances unless a channel is shared. */
  lemma UnaccountedIffShared(cfg: Config)
    ensures CanDeliverUnaccounted(cfg) <==> Shared(cfg)
  {
    if Shared(cfg) {
      UnexplainedDeliveryIffShared(cfg);
      var es: seq<Event>, id: Id :| DeliversUnexplained(cfg, es, id);
      DeathsOfPlay(cfg, es, Play(cfg, es).value, id);
      assert DeliversUnaccounted(cfg, UsualRun(es), id);
    } else {
      forall hs: seq<Happening>, id: Id ensures !DeliversUnaccounted(cfg, hs, id) {
        if DeliversUnaccounted(cfg, hs, id) {
          UnsharedSurvivingSuccesses(cfg, hs, id);
        }
      }
    }
  }

  // ---------------------------------------------------------------- what Protocol's count leaves out

  /** One message of notification 0, at `place`; `sends` came back, and no delivery was lost in its window. */
  ghost predicate Lone(cfg: Config, y: System, v: nat, place: Place, sends: seq<Outcome>) {
    && v < |cfg.workers| && |y.sockets| == |cfg.workers| && y.sockets[v] == []
    && |y.core.copies| == 1 && y.core.copies[0].body == Message(0, 1, 3)
    && y.core.copies[0].channel == cfg.workers[v] && y.core.copies[0].place == place
    && 0 in y.core.rows && y.core.rows[0].status in {Pending, Processing}
    && TallyOf(y.core, 0).outcomes == sends && TallyOf(y.core, 0).lostSuccesses == 0
  }

  lemma LoneStep(cfg: Config, hs: seq<Happening>, p: Plant, v: nat, pc: Pc, sends: seq<Outcome>)
    returns (hs': seq<Happening>, p': Plant)
    requires Operates(cfg, hs, p) && Lone(cfg, p.sys, v, Unacked(v, pc, []), sends)
    requires pc in {Received, Admitted, Sending}
    ensures Operates(cfg, hs', p') && p'.survivors == p.survivors && p'.down == p.down
    ensures Lone(cfg, p'.sys, v, Unacked(v, Onward(pc), []), sends + if pc.Sending? then [Accepted] else [])
  {
    OperateOn(cfg, hs, p, Usual(RunHandler(0, Accepted)));
    hs', p' := hs + [Usual(RunHandler(0, Accepted))], Happen(cfg, p, Usual(RunHandler(0, Accepted)));
  }

  /** Worker v is about to send and loses its connection. */
  lemma CutBeforeSend(cfg: Config, v: nat) returns (hs: seq<Happening>, p: Plant)
    requires v < |cfg.workers|
    ensures Operates(cfg, hs, p) && Lone(cfg, p.sys, v, Main, []) && p.down == {v}
    ensures p.survivors.Keys == {(v, 0)} && p.survivors[(v, 0)].body.id == 0
    ensures p.survivors[(v, 0)].place == Unacked(v, Sending, [])
  {
    var es, y := PassesTest(cfg, v);
    PlayOperates(cfg, es, y);
    hs, p := LoneStep(cfg, UsualRun(es), Plant(y, map[], {}), v, Admitted, []);
    CutLone(cfg, p, v);
    OperateOn(cfg, hs, p, Cut(v));
    hs, p := hs + [Cut(v)], Happen(cfg, p, Cut(v));
  }

  lemma CutLone(cfg: Config, p: Plant, v: nat)
    requires Lone(cfg, p.sys, v, Unacked(v, Sending, []), []) && p.survivors == map[] && p.down == {}
    ensures CanHappen(cfg, p, Cut(v))
    ensures var p' := Happen(cfg, p, Cut(v));
            && Lone(cfg, p'.sys, v, Main, []) && p'.down == {v}
            && p'.survivors.Keys == {(v, 0)} && p'.survivors[(v, 0)] == p.sys.core.copies[0]
  {
    RequeueAllCopies(p.sys.core, v, 1);
    assert RequeueAll(p.sys.core, v, 0) == p.sys.core;
  }

  /** The call goes on and is accepted. */
  lemma AcceptedUnseen(cfg: Config, v: nat) returns (hs: seq<Happening>, p: Plant)
    requires v < |cfg.workers|
    ensures Operates(cfg, hs, p) && Lone(cfg, p.sys, v, Main, [Accepted])
    ensures p.down == {v} && p.survivors.Keys == {(v, 0)}
  {
    hs, p := CutBeforeSend(cfg, v);
    OperateOn(cfg, hs, p, Survive((v, 0), Accepted));
    hs, p := hs + [Survive((v, 0), Accepted)], Happen(cfg, p, Survive((v, 0), Accepted));
  }

  /** And it dies with the process. */
  lemma DiesUnseen(cfg: Config, v: nat) returns (hs: seq<Happening>, p: Plant)
    requires v < |cfg.workers|
    ensures Operates(cfg, hs, p) && Lone(cfg, p.sys, v, Main, [Accepted]) && p.down == {} && p.survivors == map[]
  {
    hs, p := AcceptedUnseen(cfg, v);
    OperateOn(cfg, hs, p, Usual(Lose(v)));
    RequeueAllCopies(p.sys.core, v, 1);
    assert RequeueAll(p.sys.core, v, 0) == p.sys.core;
    hs, p := hs + [Usual(Lose(v))], Happen(cfg, p, Usual(Lose(v)));
    assert p.survivors.Keys == {};
  }

  /**
   Protocol's count of lost successes is not enough here. With any worker, alone or not, there is a run with two
   acceptances and no delivery lost in its window: the handler that died there had lost its delivery before.
   */
  lemma LostSuccessesNotEnough(cfg: Config, v: nat) returns (hs: seq<Happening>, p: Plant)
    requires v < |cfg.workers|
    ensures Operates(cfg, hs, p)
    ensures Successes(TallyOf(p.sys.core, 0).outcomes) == 2 && TallyOf(p.sys.core, 0).lostSuccesses == 0
  {
    hs, p := DiesUnseen(cfg, v);
    NoneHeld(p.sys.core.copies, v);
    OperateOn(cfg, hs, p, Usual(Take(0, v)));
    hs, p := hs + [Usual(Take(0, v))], Happen(cfg, p, Usual(Take(0, v)));
    hs, p := LoneStep(cfg, hs, p, v, Received, [Accepted]);
    hs, p := LoneStep(cfg, hs, p, v, Admitted, [Accepted]);
    hs, p := LoneStep(cfg, hs, p, v, Sending, [Accepted]);
    TwoSuccesses();
  }
}
