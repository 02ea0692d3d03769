/** The tally of a notification is nothing but a count of the run's actions. */
module History {
  import opened Domain
  import opened Protocol

  /** Action `a`, taken in `s`, acts on a copy of `id` that a handler holds at `pc`. */
  predicate HandlesAt(s: State, a: Action, id: Id, pc: Pc) {
    a.Handle? && IsUnacked(s, a.copy) && s.copies[a.copy].body.id == id && s.copies[a.copy].place.pc == pc
  }

  predicate PublishesFor(s: State, a: Action, id: Id) {
    a.FlushPost? && IsPost(s, a.post) && s.posts[a.post].stage.Publishing? && s.posts[a.post].stage.id == id
  }

  predicate RequeuesFor(s: State, a: Action, id: Id) {
    a.Requeue? && IsUnacked(s, a.copy) && s.copies[a.copy].body.id == id
  }

  /** What happened to `id` in the run `acts`, read off its actions. */
  ghost function Counted(cfg: Config, acts: seq<Action>, id: Id): Tally
    requires Exec(cfg, Init(), acts).Some?
    decreases |acts|
  {
    if acts == [] then NO_TALLY
    else
      LastStep(cfg, Init(), acts);
      var s := Exec(cfg, Init(), acts[..|acts| - 1]).value;
      var a := acts[|acts| - 1];
      var before := Counted(cfg, acts[..|acts| - 1], id);
      Tally(before.published + (if PublishesFor(s, a, id) then 1 else 0),
            before.requeued + (if RequeuesFor(s, a, id) then 1 else 0),
            before.executions + (if HandlesAt(s, a, id, Received) then 1 else 0),
            before.lostSuccesses +
              (if RequeuesFor(s, a, id) && s.copies[a.copy].place.pc in {SendOk, RecordedOk} then 1 else 0),
            before.outcomes + (if HandlesAt(s, a, id, Sending) then [a.outcome] else []))
  }

  lemma TallyStep(cfg: Config, s: State, a: Action, id: Id)
    requires Enabled(cfg, s, a)
    ensures var before, after := TallyOf(s, id), TallyOf(Apply(cfg, s, a), id);
            && after.published == before.published + (if PublishesFor(s, a, id) then 1 else 0)
            && after.requeued == before.requeued + (if RequeuesFor(s, a, id) then 1 else 0)
            && after.executions == before.executions + (if HandlesAt(s, a, id, Received) then 1 else 0)
            && after.lostSuccesses == before.lostSuccesses +
                 (if RequeuesFor(s, a, id) && s.copies[a.copy].place.pc in {SendOk, RecordedOk} then 1 else 0)
            && after.outcomes == before.outcomes + (if HandlesAt(s, a, id, Sending) then [a.outcome] else [])
  {
  }

  /** The tallies that the bounds speak of are the numbers of publishes, crashes, calls and sends of the run. */
  lemma {:induction false} TallyIsHistory(cfg: Config, acts: seq<Action>, id: Id)
    requires Exec(cfg, Init(), acts).Some?
    ensures TallyOf(Exec(cfg, Init(), acts).value, id) == Counted(cfg, acts, id)
    decreases |acts|
  {
    if acts != [] {
      LastStep(cfg, Init(), acts);
      TallyIsHistory(cfg, acts[..|acts| - 1], id);
      TallyStep(cfg, Exec(cfg, Init(), acts[..|acts| - 1]).value, acts[|acts| - 1], id);
    }
  }
}
