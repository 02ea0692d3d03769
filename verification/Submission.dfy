/**
 Idempotent submission: however POSTs interleave and wherever they are cut off, a key has one row, a row has one
 outbox event, and all submissions of a key that succeed return the same notification.
 */
module Submission {
  import opened Domain
  import opened Protocol
  import opened Agreement

  ghost predicate OneRowPerKey(s: State) {
    forall i, j :: i in s.rows && j in s.rows && s.rows[i].key == s.rows[j].key ==> i == j
  }

  ghost predicate HasEvent(s: State, id: Id) {
    exists e :: 0 <= e < |s.outbox| && s.outbox[e].notification == id
  }

  /** The outbox and the notifications table were written in the same transactions. */
  ghost predicate OneEventPerRow(s: State) {
    && (forall e :: 0 <= e < |s.outbox| ==>
          s.outbox[e].notification in s.rows && s.outbox[e].payload == s.outbox[e].notification)
    && (forall d, e :: 0 <= d < e < |s.outbox| ==> s.outbox[d].notification != s.outbox[e].notification)
    && (forall id :: id in s.rows ==> HasEvent(s, id))
  }

  /** The request got a notification back from insertWithOutbox. */
  predicate Saved(post: Post) {
    post.stage.Stored? || post.stage.Publishing? || post.stage.Published?
  }

  ghost predicate SameAnswerPerKey(s: State) {
    forall p, q ::
      (0 <= p < |s.posts| && Saved(s.posts[p]) && 0 <= q < |s.posts| && Saved(s.posts[q])
       && s.posts[p].key == s.posts[q].key) ==> s.posts[p].stage.id == s.posts[q].stage.id
  }

  lemma OutboxStays(cfg: Config, s: State, a: Action)
    requires Enabled(cfg, s, a) && !a.Insert?
    ensures Apply(cfg, s, a).outbox == s.outbox && Apply(cfg, s, a).rows.Keys == s.rows.Keys
  {
  }

  lemma InsertKeepsKeys(cfg: Config, s: State, p: nat, id: Id)
    requires Enabled(cfg, s, Insert(p, id)) && OneRowPerKey(s)
    ensures OneRowPerKey(InsertRow(s, p, id))
  {
  }

  lemma InsertAddsEvent(cfg: Config, s: State, p: nat, id: Id, i: Id)
    requires Enabled(cfg, s, Insert(p, id)) && OneEventPerRow(s) && i in InsertRow(s, p, id).rows
    ensures HasEvent(InsertRow(s, p, id), i)
  {
    var s' := InsertRow(s, p, id);
    if i in s.rows {
      var e :| 0 <= e < |s.outbox| && s.outbox[e].notification == i;
      assert s'.outbox[e].notification == i;
    } else {
      assert s'.outbox[|s.outbox|].notification == i;
    }
  }

  lemma InsertKeepsEvents(cfg: Config, s: State, p: nat, id: Id)
    requires Enabled(cfg, s, Insert(p, id)) && OneEventPerRow(s)
    ensures OneEventPerRow(InsertRow(s, p, id))
  {
    forall i | i in InsertRow(s, p, id).rows ensures HasEvent(InsertRow(s, p, id), i) {
      InsertAddsEvent(cfg, s, p, id, i);
    }
  }

  lemma SubmissionStep(cfg: Config, s: State, a: Action)
    requires Enabled(cfg, s, a) && OneRowPerKey(s) && OneEventPerRow(s)
    ensures OneRowPerKey(Apply(cfg, s, a)) && OneEventPerRow(Apply(cfg, s, a))
  {
    if a.Insert? {
      InsertKeepsKeys(cfg, s, a.post, a.id);
      InsertKeepsEvents(cfg, s, a.post, a.id);
    } else {
      var s' := Apply(cfg, s, a);
      StepKeepsRows(cfg, s, a);
      OutboxStays(cfg, s, a);
      forall id | id in s'.rows ensures HasEvent(s', id) {
        var e :| 0 <= e < |s.outbox| && s.outbox[e].notification == id;
        assert s'.outbox[e].notification == id;
      }
    }
  }

  lemma {:induction false} SubmissionRun(cfg: Config, acts: seq<Action>)
    requires Exec(cfg, Init(), acts).Some?
    ensures OneRowPerKey(Exec(cfg, Init(), acts).value) && OneEventPerRow(Exec(cfg, Init(), acts).value)
  {
    if acts != [] {
      LastStep(cfg, Init(), acts);
      SubmissionRun(cfg, acts[..|acts| - 1]);
      SubmissionStep(cfg, Exec(cfg, Init(), acts[..|acts| - 1]).value, acts[|acts| - 1]);
    }
  }

  lemma AnswersAgree(cfg: Config, s: State)
    requires Agreed(cfg, s) && OneRowPerKey(s)
    ensures SameAnswerPerKey(s)
  {
    forall p, q | 0 <= p < |s.posts| && 0 <= q < |s.posts| && Saved(s.posts[p]) && Saved(s.posts[q])
                  && s.posts[p].key == s.posts[q].key
      ensures s.posts[p].stage.id == s.posts[q].stage.id
    {
      assert StageOk(s.rows, s.posts[p].key, s.posts[p].stage) && StageOk(s.rows, s.posts[q].key, s.posts[q].stage);
    }
  }

  /** Main result: one row per key, exactly one outbox event per row, one answer per key. */
  lemma IdempotentSubmission(cfg: Config, acts: seq<Action>)
    requires Exec(cfg, Init(), acts).Some?
    ensures var s := Exec(cfg, Init(), acts).value;
            OneRowPerKey(s) && OneEventPerRow(s) && SameAnswerPerKey(s)
  {
    SubmissionRun(cfg, acts);
    AgreedRun(cfg, acts);
    AnswersAgree(cfg, Exec(cfg, Init(), acts).value);
  }

  /** The answer to a key is final: whatever happens later, every saved submission of it returns the same id. */
  lemma AnswerNeverChanges(cfg: Config, acts: seq<Action>, more: seq<Action>, p: nat, q: nat)
    requires Exec(cfg, Init(), acts).Some? && Exec(cfg, Init(), acts + more).Some?
    requires var s := Exec(cfg, Init(), acts).value; p < |s.posts| && Saved(s.posts[p])
    requires var s' := Exec(cfg, Init(), acts + more).value; q < |s'.posts| && Saved(s'.posts[q])
    requires Exec(cfg, Init(), acts).value.posts[p].key == Exec(cfg, Init(), acts + more).value.posts[q].key
    ensures Exec(cfg, Init(), acts).value.posts[p].stage.id == Exec(cfg, Init(), acts + more).value.posts[q].stage.id
  {
    var s, s' := Exec(cfg, Init(), acts).value, Exec(cfg, Init(), acts + more).value;
    AgreedRun(cfg, acts);
    AgreedRun(cfg, acts + more);
    SubmissionRun(cfg, acts + more);
    assert StageOk(s.rows, s.posts[p].key, s.posts[p].stage) && StageOk(s'.rows, s'.posts[q].key, s'.posts[q].stage);
    RunKeepsRows(cfg, acts, more);
  }

  lemma {:induction false} RunKeepsRows(cfg: Config, acts: seq<Action>, more: seq<Action>)
    requires Exec(cfg, Init(), acts).Some? && Exec(cfg, Init(), acts + more).Some?
    ensures RowsKept(Exec(cfg, Init(), acts).value.rows, Exec(cfg, Init(), acts + more).value.rows)
  {
    if more == [] {
      assert acts + more == acts;
    } else {
      var n := |acts + more| - 1;
      assert (acts + more)[..n] == acts + more[..|more| - 1];
      LastStep(cfg, Init(), acts + more);
      RunKeepsRows(cfg, acts, more[..|more| - 1]);
      StepKeepsRows(cfg, Exec(cfg, Init(), (acts + more)[..n]).value, (acts + more)[n]);
    }
  }

  // ---------------------------------------------------------------- the insert race

  /** A request keeps what it asked for. */
  lemma PostsKept(cfg: Config, s: State, a: Action, p: nat)
    requires Enabled(cfg, s, a) && p < |s.posts|
    ensures p < |Apply(cfg, s, a).posts|
    ensures var q, q' := s.posts[p], Apply(cfg, s, a).posts[p];
            q'.key == q.key && q'.channel == q.channel && q'.priority == q.priority
  {
  }

  /** The row says what some request asked for. */
  ghost predicate AskedFor(s: State, row: Row) {
    exists p :: 0 <= p < |s.posts| && s.posts[p].key == row.key && s.posts[p].channel == row.channel
                && s.posts[p].priority == row.priority
  }

  lemma AskedForStays(cfg: Config, s: State, a: Action, row: Row)
    requires Enabled(cfg, s, a) && AskedFor(s, row)
    ensures AskedFor(Apply(cfg, s, a), row)
  {
    var p: nat :| p < |s.posts| && s.posts[p].key == row.key && s.posts[p].channel == row.channel
                  && s.posts[p].priority == row.priority;
    PostsKept(cfg, s, a, p);
    assert Apply(cfg, s, a).posts[p].key == row.key;
  }

  lemma NewRowAskedFor(cfg: Config, s: State, a: Action, id: Id)
    requires Enabled(cfg, s, a) && id in Apply(cfg, s, a).rows && id !in s.rows
    ensures AskedFor(Apply(cfg, s, a), Apply(cfg, s, a).rows[id])
  {
    assert a.Insert? && Apply(cfg, s, a).posts[a.post].key == s.posts[a.post].key;
  }

  /** Every row has the key, the channel and the priority of a request. */
  lemma {:induction false} RowsAskedFor(cfg: Config, acts: seq<Action>, id: Id)
    requires Exec(cfg, Init(), acts).Some? && id in Exec(cfg, Init(), acts).value.rows
    ensures AskedFor(Exec(cfg, Init(), acts).value, Exec(cfg, Init(), acts).value.rows[id])
    decreases |acts|
  {
    LastStep(cfg, Init(), acts);
    var n := |acts| - 1;
    var s := Exec(cfg, Init(), acts[..n]).value;
    if id in s.rows {
      RowsAskedFor(cfg, acts[..n], id);
      StepKeepsRows(cfg, s, acts[n]);
      AskedForStays(cfg, s, acts[n], s.rows[id]);
      assert AskedFor(Apply(cfg, s, acts[n]), Apply(cfg, s, acts[n]).rows[id]);
    } else {
      NewRowAskedFor(cfg, s, acts[n], id);
    }
  }

  /** Step `n` of the run is request `p`'s own insert, and creates row `id`. */
  ghost predicate CreatesRow(cfg: Config, acts: seq<Action>, p: nat, id: Id, n: nat) {
    && n < |acts| && acts[n] == Insert(p, id) && Exec(cfg, Init(), acts[..n + 1]).Some?
    && Exec(cfg, Init(), acts[..n]).Some? && id !in Exec(cfg, Init(), acts[..n]).value.rows
    && id in Exec(cfg, Init(), acts[..n + 1]).value.rows
  }

  /** Request `p` is where one that has found its key free can be. */
  ghost predicate FreeOrDone(cfg: Config, acts: seq<Action>, s: State, p: nat) {
    && p < |s.posts|
    && (s.posts[p].stage.KeyFree? || s.posts[p].stage.Aborted?
        || (Saved(s.posts[p]) && exists n: nat :: CreatesRow(cfg, acts, p, s.posts[p].stage.id, n)))
  }

  lemma FreeStage(cfg: Config, s: State, a: Action, p: nat)
    requires Enabled(cfg, s, a) && p < |s.posts| && !s.posts[p].stage.Arrived?
    ensures var q, q' := s.posts[p], Apply(cfg, s, a).posts[p];
            if a.Insert? && a.post == p && !KeyTaken(s, q.key)
            then q'.stage.Stored? && q'.stage.id == a.id && a.id !in s.rows && a.id in Apply(cfg, s, a).rows
            else q'.stage == q.stage || q'.stage.Aborted?
                 || (Saved(q) && Saved(q') && q'.stage.id == q.stage.id)
  {
  }

  lemma CreatedStays(cfg: Config, acts: seq<Action>, a: Action, p: nat, id: Id, n: nat)
    requires CreatesRow(cfg, acts, p, id, n)
    ensures CreatesRow(cfg, acts + [a], p, id, n)
  {
    assert (acts + [a])[..n] == acts[..n] && (acts + [a])[..n + 1] == acts[..n + 1];
  }

  lemma {:induction false} FreeRun(cfg: Config, acts: seq<Action>, more: seq<Action>, p: nat)
    requires Exec(cfg, Init(), acts).Some? && Exec(cfg, Init(), acts + more).Some?
    requires p < |Exec(cfg, Init(), acts).value.posts| && Exec(cfg, Init(), acts).value.posts[p].stage.KeyFree?
    ensures FreeOrDone(cfg, acts + more, Exec(cfg, Init(), acts + more).value, p)
    ensures Exec(cfg, Init(), acts + more).value.posts[p].key == Exec(cfg, Init(), acts).value.posts[p].key
  {
    if more == [] {
      assert acts + more == acts;
    } else {
      var all, n := acts + more, |acts + more| - 1;
      assert all[..n] == acts + more[..|more| - 1];
      LastStep(cfg, Init(), all);
      FreeRun(cfg, acts, more[..|more| - 1], p);
      var s := Exec(cfg, Init(), all[..n]).value;
      PostsKept(cfg, s, all[n], p);
      FreeStage(cfg, s, all[n], p);
      assert all == all[..n] + [all[n]] && all[..n + 1] == all;
      if all[n].Insert? && all[n].post == p && !KeyTaken(s, s.posts[p].key) {
        assert CreatesRow(cfg, all, p, all[n].id, n);
      } else if Saved(s.posts[p]) {
        var m: nat :| CreatesRow(cfg, all[..n], p, s.posts[p].stage.id, m);
        CreatedStays(cfg, all[..n], all[n], p, s.posts[p].stage.id, m);
      }
    }
  }

  /** A request that has found its key free is saved only by its own insert, which created the row. */
  lemma SavedByOwnInsert(cfg: Config, acts: seq<Action>, more: seq<Action>, p: nat) returns (n: nat)
    requires Exec(cfg, Init(), acts).Some? && Exec(cfg, Init(), acts + more).Some?
    requires p < |Exec(cfg, Init(), acts).value.posts| && Exec(cfg, Init(), acts).value.posts[p].stage.KeyFree?
    requires var s := Exec(cfg, Init(), acts + more).value; p < |s.posts| && Saved(s.posts[p])
    ensures CreatesRow(cfg, acts + more, p, Exec(cfg, Init(), acts + more).value.posts[p].stage.id, n)
  {
    FreeRun(cfg, acts, more, p);
    n :| CreatesRow(cfg, acts + more, p, Exec(cfg, Init(), acts + more).value.posts[p].stage.id, n);
  }

  /** A row is created once. */
  lemma CreatedOnce(cfg: Config, acts: seq<Action>, p: nat, q: nat, id: Id, m: nat, n: nat)
    requires Exec(cfg, Init(), acts).Some? && m <= n
    requires CreatesRow(cfg, acts, p, id, m) && CreatesRow(cfg, acts, q, id, n)
    ensures m == n && p == q
  {
    if m < n {
      assert acts[..n] == acts[..m + 1] + acts[m + 1..n];
      RunKeepsRows(cfg, acts[..m + 1], acts[m + 1..n]);
    }
  }

  /**
   The insert race has one winner: of the requests of a key that found it free, at whatever times, at most one is ever
   saved. The others are rolled back and publish nothing.
   */
  lemma OneWinnerPerKey(cfg: Config, acts: seq<Action>, i: nat, j: nat, p: nat, q: nat)
    requires i <= |acts| && j <= |acts| && Exec(cfg, Init(), acts).Some?
    requires Exec(cfg, Init(), acts[..i]).Some? && Exec(cfg, Init(), acts[..j]).Some?
    requires var s := Exec(cfg, Init(), acts[..i]).value; p < |s.posts| && s.posts[p].stage.KeyFree?
    requires var s := Exec(cfg, Init(), acts[..j]).value; q < |s.posts| && s.posts[q].stage.KeyFree?
    requires var s := Exec(cfg, Init(), acts).value;
             && p < |s.posts| && Saved(s.posts[p]) && q < |s.posts| && Saved(s.posts[q])
             && s.posts[p].key == s.posts[q].key
    ensures p == q
  {
    var s := Exec(cfg, Init(), acts).value;
    assert acts == acts[..i] + acts[i..] && acts == acts[..j] + acts[j..];
    var m := SavedByOwnInsert(cfg, acts[..i], acts[i..], p);
    var n := SavedByOwnInsert(cfg, acts[..j], acts[j..], q);
    IdempotentSubmission(cfg, acts);
    assert s.posts[p].stage.id == s.posts[q].stage.id;
    if m <= n {
      CreatedOnce(cfg, acts, p, q, s.posts[p].stage.id, m, n);
    } else {
      CreatedOnce(cfg, acts, q, p, s.posts[p].stage.id, n, m);
    }
  }
}
