// Chat sync and the unique index: whatever way the calls of a batch interleave,
// even with two chats of one number in it, no two rows come to share a key.

module ChatSyncKeys {
  import opened Common
  import opened Conversations
  import opened ChatSync

  ghost predicate TaskReady(t: Table, task: Task, pc: Pc, session: Id) {
    task.Sync? ==> RowMatches(task) && task.key.session == session && (pc != Finished ==> task.id !in t)
  }

  // Rows keep their tenant and number and move at most onto the session; new rows are of the session.
  ghost predicate Grown(t: Table, u: Table, session: Id, ids: set<Id>) {
    forall c :: c in u ==>
      if c in t then SpotOf(u[c]) == SpotOf(t[c]) && (u[c].session == t[c].session || u[c].session == Some(session))
      else c in ids && u[c].session == Some(session)
  }

  lemma GrownTransitive(t: Table, u: Table, v: Table, session: Id, ids: set<Id>, more: set<Id>)
    requires Grown(t, u, session, ids) && Grown(u, v, session, more) && more !! t.Keys
    ensures Grown(t, v, session, ids + more)
  {
  }

  lemma AttachKeepsKeys(t: Table, k: Key, keep: Id)
    requires UniqueKeys(t) && CanAttach(t, k, keep)
    requires SpotOf(t[keep]) == Spot(k.tenant, k.phone)
    ensures UniqueKeys(t[keep := t[keep].(session := Some(k.session))])
  {
    var u := t[keep := t[keep].(session := Some(k.session))];
    forall c, d | c in u && d in u && SameKey(u[c], u[d]) ensures c == d {
      if c != keep && d != keep { assert SameKey(t[c], t[d]); }
    }
  }

  // The row a task is about to attach was there from the start, with the task's tenant and number.
  ghost predicate KeepIsOwn(start: Table, task: Task, pc: Pc) {
    task.Sync? && (pc.DeleteExtras? || pc.Attach?) ==> pc.keep in start && SpotOf(start[pc.keep]) == TaskSpot(task)
  }

  lemma StepKeepsKeys(start: Table, t: Table, task: Task, pc: Pc, session: Id, ids: set<Id>)
    requires UniqueKeys(t) && TaskReady(t, task, pc, session) && KeepIsOwn(start, task, pc) &&
               Grown(start, t, session, ids)
    ensures UniqueKeys(TaskStep(t, task, pc).0)
  {
    if task.Sync? && pc.Attach? {
      if CanAttach(t, task.key, pc.keep) { AttachKeepsKeys(t, task.key, pc.keep); }
    }
    if task.Sync? && pc.Write? {
      if task.hasContent {
        UpsertTheorem(t, task.key, task.id, task.row, task.patch);
      } else {
        UpdateKeepsKeys(t, task.key, task.patch);
      }
    }
  }

  lemma StepGrows(t: Table, task: Task, pc: Pc, session: Id)
    requires TaskReady(t, task, pc, session)
    ensures Grown(t, TaskStep(t, task, pc).0, session, if task.Sync? then {task.id} else {})
  {
  }

  lemma StepKeepsOwn(start: Table, t: Table, task: Task, pc: Pc, session: Id, ids: set<Id>)
    requires KeepIsOwn(start, task, pc) && Grown(start, t, session, ids)
    ensures KeepIsOwn(start, task, TaskStep(t, task, pc).1)
  {
    if task.Sync? && pc.FindOrphans? {
      var orphans := Orphans(t, task.key.tenant, task.key.phone);
      if orphans != map[] { assert OldestOf(orphans, task.hint) in orphans; }
    }
  }

  ghost predicate KeysInv(start: Table, b: Batch, tasks: seq<Task>, session: Id) {
    && |b.pcs| == |tasks|
    && UniqueKeys(b.table)
    && Grown(start, b.table, session, NewIds(tasks))
    && (forall i :: 0 <= i < |tasks| ==>
          TaskReady(b.table, tasks[i], b.pcs[i], session) && KeepIsOwn(start, tasks[i], b.pcs[i]))
  }

  ghost predicate ReadyTasks(t: Table, tasks: seq<Task>, session: Id) {
    && AllFresh(t, tasks) && DistinctIds(tasks)
    && forall task :: task in tasks && task.Sync? ==> task.key.session == session
  }

  lemma NewIdsFresh(t: Table, tasks: seq<Task>, task: Task)
    requires AllFresh(t, tasks) && task in tasks
    ensures NewIds(tasks) !! t.Keys && (task.Sync? ==> task.id in NewIds(tasks))
  {
    forall other | other in tasks && other.Sync? ensures other.id !in t { assert FreshFor(t, other); }
  }

  lemma KeysStep(start: Table, b: Batch, tasks: seq<Task>, session: Id, i: nat)
    requires ReadyTasks(start, tasks, session) && KeysInv(start, b, tasks, session) && i < |tasks|
    ensures KeysInv(start, BatchStep(b, tasks, i), tasks, session)
  {
    var c, mover, ids := BatchStep(b, tasks, i), tasks[i], NewIds(tasks);
    StepKeepsKeys(start, b.table, mover, b.pcs[i], session, ids);
    StepGrows(b.table, mover, b.pcs[i], session);
    NewIdsFresh(start, tasks, mover);
    GrownTransitive(start, b.table, c.table, session, ids, if mover.Sync? then {mover.id} else {});
    assert ids + (if mover.Sync? then {mover.id} else {}) == ids;
    StepIds(b.table, mover, b.pcs[i]);
    forall j | 0 <= j < |tasks|
      ensures TaskReady(c.table, tasks[j], c.pcs[j], session) && KeepIsOwn(start, tasks[j], c.pcs[j])
    {
      assert TaskReady(b.table, tasks[j], b.pcs[j], session);
      if j == i {
        StepKeepsOwn(start, b.table, mover, b.pcs[i], session, ids);
      } else if mover.Sync? && tasks[j].Sync? {
        assert tasks[j].id != mover.id;
      }
    }
  }

  lemma KeysStart(t: Table, tasks: seq<Task>, session: Id)
    requires ReadyTasks(t, tasks, session) && UniqueKeys(t)
    ensures KeysInv(t, Started(t, tasks), tasks, session)
  {
    forall i | 0 <= i < |tasks|
      ensures TaskReady(t, tasks[i], Initial(tasks[i]), session) && KeepIsOwn(t, tasks[i], Initial(tasks[i]))
    {
      assert tasks[i] in tasks && FreshFor(t, tasks[i]);
    }
  }

  // However the calls of a batch interleave, and even if two of its chats share a number, no two
  // rows ever share a (tenant, session, number).
  lemma {:induction false} ScheduleKeepsKeys(t: Table, tasks: seq<Task>, schedule: seq<nat>, session: Id)
    requires ReadyTasks(t, tasks, session) && UniqueKeys(t)
    ensures KeysInv(t, RunSchedule(t, tasks, schedule), tasks, session)
  {
    if schedule == [] {
      KeysStart(t, tasks, session);
    } else {
      var n := |schedule| - 1;
      ScheduleKeepsKeys(t, tasks, schedule[..n], session);
      if schedule[n] < |tasks| { KeysStep(t, RunSchedule(t, tasks, schedule[..n]), tasks, session, schedule[n]); }
    }
  }

  lemma ReadyAfter(t: Table, u: Table, a: seq<Task>, b: seq<Task>, session: Id)
    requires ReadyTasks(t, a + b, session) && Grown(t, u, session, NewIds(a))
    ensures ReadyTasks(t, a, session) && ReadyTasks(u, b, session) && NewIds(b) !! t.Keys &&
              NewIds(a + b) == NewIds(a) + NewIds(b)
  {
    IdsApart(a, b);
    assert forall task :: task in a + b <==> task in a || task in b;
    assert forall task :: task in b ==> FreshFor(t, task);
  }

  lemma {:induction false} BatchesKeepKeys(t: Table, batches: seq<seq<Task>>, schedules: seq<seq<nat>>, session: Id)
    requires |schedules| == |batches| && ReadyTasks(t, Flatten(batches), session) && UniqueKeys(t)
    ensures UniqueKeys(RunBatches(t, batches, schedules))
    ensures Grown(t, RunBatches(t, batches, schedules), session, NewIds(Flatten(batches)))
    decreases |batches|
  {
    if batches != [] {
      var head, rest := batches[0], Flatten(batches[1..]);
      var u := RunSchedule(t, head, schedules[0]).table;
      ReadyAfter(t, map[], head, rest, session);
      ScheduleKeepsKeys(t, head, schedules[0], session);
      ReadyAfter(t, u, head, rest, session);
      BatchesKeepKeys(u, batches[1..], schedules[1..], session);
      GrownTransitive(t, u, RunBatches(t, batches, schedules), session, NewIds(head), NewIds(rest));
    }
  }

  lemma SyncKeepsKeys(t: Table, tasks: seq<Task>, schedules: seq<seq<nat>>, session: Id)
    requires |schedules| == |Batches(tasks)| && ReadyTasks(t, tasks, session) && UniqueKeys(t)
    ensures UniqueKeys(RunBatches(t, Batches(tasks), schedules))
    ensures Grown(t, RunBatches(t, Batches(tasks), schedules), session, NewIds(tasks))
  {
    BatchesCover(tasks);
    BatchesKeepKeys(t, Batches(tasks), schedules, session);
  }

  // ── A row that has its key keeps it ──────────────────────────────────────

  ghost predicate RowStays(t: Table, u: Table, c: Id) {
    c in t && t[c].session.Some? ==> c in u && u[c].session == t[c].session && SpotOf(u[c]) == SpotOf(t[c])
  }

  // The task does not remember the row as one to attach or to delete.
  ghost predicate Forgets(pc: Pc, c: Id) {
    (pc.DeleteExtras? ==> c != pc.keep && c !in pc.extras) && (pc.Attach? ==> c != pc.keep)
  }

  lemma StepKeepsRow(t: Table, task: Task, pc: Pc, c: Id)
    requires c in t && t[c].session.Some? && Forgets(pc, c) && (task.Sync? ==> c != task.id)
    ensures var s := TaskStep(t, task, pc); RowStays(t, s.0, c) && Forgets(s.1, c)
  {
    if task.Sync? && pc.FindOrphans? {
      var orphans := Orphans(t, task.key.tenant, task.key.phone);
      assert c !in orphans;
    }
  }

  // A row of a session stays in its place under every schedule of every batch, finished or not,
  // whether or not two chats share a number.
  lemma {:induction false} ScheduleKeepsRow(t: Table, tasks: seq<Task>, schedule: seq<nat>, c: Id)
    requires c in t && t[c].session.Some? && c !in NewIds(tasks)
    ensures var b := RunSchedule(t, tasks, schedule);
            RowStays(t, b.table, c) && forall i :: 0 <= i < |tasks| ==> Forgets(b.pcs[i], c)
  {
    if schedule != [] {
      var n := |schedule| - 1;
      ScheduleKeepsRow(t, tasks, schedule[..n], c);
      var b := RunSchedule(t, tasks, schedule[..n]);
      if schedule[n] < |tasks| {
        var task := tasks[schedule[n]];
        assert task.Sync? ==> task.id in NewIds(tasks);
        StepKeepsRow(b.table, task, b.pcs[schedule[n]], c);
      }
    }
  }

  lemma {:induction false} BatchesKeepRow(t: Table, batches: seq<seq<Task>>, schedules: seq<seq<nat>>, c: Id)
    requires |schedules| == |batches| && c in t && t[c].session.Some? && c !in NewIds(Flatten(batches))
    ensures RowStays(t, RunBatches(t, batches, schedules), c)
    decreases |batches|
  {
    if batches != [] {
      assert forall task :: task in batches[0] || task in Flatten(batches[1..]) ==> task in Flatten(batches);
      ScheduleKeepsRow(t, batches[0], schedules[0], c);
      BatchesKeepRow(RunSchedule(t, batches[0], schedules[0]).table, batches[1..], schedules[1..], c);
    }
  }

  lemma SyncKeepsRowInPlace(t: Table, tasks: seq<Task>, schedules: seq<seq<nat>>, c: Id)
    requires |schedules| == |Batches(tasks)| && c in t && t[c].session.Some? && c !in NewIds(tasks)
    ensures RowStays(t, RunBatches(t, Batches(tasks), schedules), c)
  {
    BatchesCover(tasks);
    BatchesKeepRow(t, Batches(tasks), schedules, c);
  }
}
