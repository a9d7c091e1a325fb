// Chat sync when two chats of one batch share a number: which races between
// their tasks can lose the number's conversation, and which cannot.

module ChatSyncRaces {
  import opened Common
  import opened Conversations
  import opened ChatSync
  import opened ChatSyncKeys

  // A task of the key is given the orphan x first.
  ghost predicate Picks(t: Table, task: Task, k: Key, x: Id) {
    var orphans := Orphans(t, k.tenant, k.phone);
    TaskFor(task, k) ==> x in orphans && OldestOf(orphans, task.hint) == x
  }

  // Orphans are rows of the start, as they were.
  ghost predicate OrphansKept(start: Table, t: Table) {
    forall c :: c in t && t[c].session.None? ==> c in start && t[c] == start[c]
  }

  // The task will not delete x, and attaches it only to the key.
  ghost predicate Protects(task: Task, pc: Pc, k: Key, x: Id) {
    task.Sync? && (pc.DeleteExtras? || pc.Attach?) ==>
      (pc.DeleteExtras? ==> x !in pc.extras) && (pc.keep == x ==> task.key == k)
  }

  // A task of the key that has not attached x yet, and will attach no other row.
  ghost predicate Early(task: Task, pc: Pc, k: Key, x: Id) {
    TaskFor(task, k) ==>
      pc.FindKeeper? || pc.FindOrphans? || ((pc.DeleteExtras? || pc.Attach?) && pc.keep == x)
  }

  // x still is the orphan it was, and nothing has the key; or x has it.
  ghost predicate StillOrphan(start: Table, t: Table, k: Key, x: Id) {
    x in start && x in t && t[x] == start[x] && !Keyed(t, k)
  }

  ghost predicate HasTheKey(t: Table, k: Key, x: Id) {
    x in t && HasKey(t[x], k)
  }

  // As long as it is listed it comes first.
  lemma PickComesFirst(start: Table, t: Table, task: Task, k: Key, x: Id)
    requires TaskFor(task, k) && Picks(start, task, k, x) && OrphansKept(start, t)
    ensures var orphans := Orphans(t, k.tenant, k.phone); x in orphans ==> OldestOf(orphans, task.hint) == x
  {
    var before, orphans := Orphans(start, k.tenant, k.phone), Orphans(t, k.tenant, k.phone);
    assert forall c :: c in orphans ==> c in before && before[c] == orphans[c];
    if x in orphans {
      var c := OldestOf(orphans, task.hint);
      assert Oldest(orphans, x) && Oldest(before, c);
    }
  }

  // What the tasks of one session have in common with the key: equal numbers are equal keys.
  ghost predicate SameSession(task: Task, k: Key) {
    task.Sync? ==> RowMatches(task) && task.key.session == k.session
  }

  lemma StepKeepsOrphans(start: Table, t: Table, task: Task, pc: Pc)
    requires OrphansKept(start, t) && (task.Sync? ==> RowMatches(task))
    ensures OrphansKept(start, TaskStep(t, task, pc).0)
  {
  }

  lemma StepProtects(start: Table, t: Table, task: Task, pc: Pc, k: Key, x: Id)
    requires Picks(start, task, k, x) && OrphansKept(start, t) && SameSession(task, k) && Protects(task, pc, k, x)
    requires x in t && SpotOf(t[x]) == Spot(k.tenant, k.phone)
    ensures Protects(task, TaskStep(t, task, pc).1, k, x)
  {
    if task.Sync? && pc.FindOrphans? {
      if task.key == k { PickComesFirst(start, t, task, k, x); }
      var orphans := Orphans(t, task.key.tenant, task.key.phone);
      if orphans != map[] { assert OldestOf(orphans, task.hint) in orphans; }
    }
  }

  // Once x has the key nothing takes it away.
  lemma KeyedStepKeeps(t: Table, task: Task, pc: Pc, k: Key, x: Id)
    requires HasTheKey(t, k, x) && SameSession(task, k) && Protects(task, pc, k, x) && (task.Sync? ==> x != task.id)
    ensures HasTheKey(TaskStep(t, task, pc).0, k, x)
  {
  }

  // A task of another number leaves x and the key alone.
  lemma OtherNumberKeeps(start: Table, t: Table, task: Task, pc: Pc, k: Key, x: Id, ids: set<Id>)
    requires StillOrphan(start, t, k, x) && SpotOf(t[x]) == Spot(k.tenant, k.phone) && SameSession(task, k)
    requires Protects(task, pc, k, x) && task.Sync? && task.key != k && x != task.id
    requires KeepIsOwn(start, task, pc) && Grown(start, t, k.session, ids)
    ensures StillOrphan(start, TaskStep(t, task, pc).0, k, x)
  {
    var u := TaskStep(t, task, pc).0;
    forall c | c in u ensures !HasKey(u[c], k) {
      assert c in t ==> !HasKey(t[c], k);
    }
  }

  // A task of the number itself goes on, or gives x the key.
  lemma OwnNumberStep(start: Table, t: Table, task: Task, pc: Pc, k: Key, x: Id)
    requires Picks(start, task, k, x) && OrphansKept(start, t) && StillOrphan(start, t, k, x)
    requires TaskFor(task, k) && Early(task, pc, k, x) && Protects(task, pc, k, x)
    ensures var s := TaskStep(t, task, pc);
            HasTheKey(s.0, k, x) || (StillOrphan(start, s.0, k, x) && Early(task, s.1, k, x))
  {
    PickComesFirst(start, t, task, k, x);
    assert x in Orphans(t, k.tenant, k.phone);
    if pc.Attach? { assert CanAttach(t, k, x); }
  }

  // Every task of the number is given the same orphan first.
  ghost predicate AllPick(t: Table, tasks: seq<Task>, k: Key, x: Id) {
    x in Orphans(t, k.tenant, k.phone) && forall i :: 0 <= i < |tasks| ==> Picks(t, tasks[i], k, x)
  }

  ghost predicate Survives(start: Table, b: Batch, tasks: seq<Task>, k: Key, x: Id) {
    && |b.pcs| == |tasks| && OrphansKept(start, b.table)
    && x in b.table && SpotOf(b.table[x]) == Spot(k.tenant, k.phone)
    && (forall i :: 0 <= i < |tasks| ==> Protects(tasks[i], b.pcs[i], k, x))
    && (HasTheKey(b.table, k, x) ||
        (StillOrphan(start, b.table, k, x) && forall i :: 0 <= i < |tasks| ==> Early(tasks[i], b.pcs[i], k, x)))
  }

  lemma SurvivesStep(start: Table, b: Batch, tasks: seq<Task>, k: Key, x: Id, i: nat)
    requires AllPick(start, tasks, k, x) && ReadyTasks(start, tasks, k.session) && KeysInv(start, b, tasks, k.session)
    requires Survives(start, b, tasks, k, x) && i < |tasks|
    ensures Survives(start, BatchStep(b, tasks, i), tasks, k, x)
  {
    var task, pc := tasks[i], b.pcs[i];
    assert FreshFor(start, task) && TaskReady(b.table, task, pc, k.session);
    assert Picks(start, task, k, x);
    StepKeepsOrphans(start, b.table, task, pc);
    StepProtects(start, b.table, task, pc, k, x);
    if HasTheKey(b.table, k, x) {
      KeyedStepKeeps(b.table, task, pc, k, x);
    } else if TaskFor(task, k) {
      OwnNumberStep(start, b.table, task, pc, k, x);
    } else if task.Sync? {
      OtherNumberKeeps(start, b.table, task, pc, k, x, NewIds(tasks));
    }
  }

  lemma {:induction false} SurvivesSchedule(t: Table, tasks: seq<Task>, schedule: seq<nat>, k: Key, x: Id)
    requires AllPick(t, tasks, k, x) && !Keyed(t, k) && UniqueKeys(t) && ReadyTasks(t, tasks, k.session)
    ensures Survives(t, RunSchedule(t, tasks, schedule), tasks, k, x)
  {
    if schedule != [] {
      var n := |schedule| - 1;
      SurvivesSchedule(t, tasks, schedule[..n], k, x);
      ScheduleKeepsKeys(t, tasks, schedule[..n], k.session);
      if schedule[n] < |tasks| { SurvivesStep(t, RunSchedule(t, tasks, schedule[..n]), tasks, k, x, schedule[n]); }
    }
  }

  // However many chats of a batch share the number, and whatever their order, an orphan that all
  // their tasks are given first is never lost: it is there at every moment, and has the key once a
  // task of the number is done.
  lemma OldestOrphanSurvives(t: Table, tasks: seq<Task>, schedule: seq<nat>, k: Key, x: Id, i: nat)
    requires AllPick(t, tasks, k, x) && !Keyed(t, k) && UniqueKeys(t) && ReadyTasks(t, tasks, k.session)
    requires i < |tasks| && TaskFor(tasks[i], k)
    ensures var b := RunSchedule(t, tasks, schedule);
            && x in b.table && (b.table[x] == t[x] || HasKey(b.table[x], k))
            && (b.pcs[i] == Finished ==> HasKey(b.table[x], k))
  {
    SurvivesSchedule(t, tasks, schedule, k, x);
    var b := RunSchedule(t, tasks, schedule);
    assert HasTheKey(b.table, k, x) || Early(tasks[i], b.pcs[i], k, x);
  }

  // ── The race that loses it ───────────────────────────────────────────────

  lemma RunSnoc(t: Table, tasks: seq<Task>, schedule: seq<nat>, i: nat)
    ensures RunSchedule(t, tasks, schedule + [i]) == BatchStep(RunSchedule(t, tasks, schedule), tasks, i)
  {
    assert (schedule + [i])[..|schedule|] == schedule;
  }

  lemma RunTwo(t: Table, tasks: seq<Task>, schedule: seq<nat>, i: nat, j: nat)
    ensures RunSchedule(t, tasks, schedule + [i] + [j]) ==
              BatchStep(BatchStep(RunSchedule(t, tasks, schedule), tasks, i), tasks, j)
  {
    RunSnoc(t, tasks, schedule, i);
    RunSnoc(t, tasks, schedule + [i], j);
  }

  // Two tasks of the number that are given different orphans first.
  ghost predicate Torn(t: Table, tasks: seq<Task>, k: Key, i: nat, j: nat) {
    var orphans := Orphans(t, k.tenant, k.phone);
    && i < |tasks| && j < |tasks| && i != j && TaskFor(tasks[i], k) && TaskFor(tasks[j], k)
    && orphans != map[] && OldestOf(orphans, tasks[i].hint) != OldestOf(orphans, tasks[j].hint)
  }

  function OthersOf(t: Table, k: Key, x: Id): set<Id> {
    Orphans(t, k.tenant, k.phone).Keys - {x}
  }

  // Two calls of a task find that nothing has the key and list the orphans.
  lemma TwoCallsList(b: Batch, tasks: seq<Task>, k: Key, i: nat, x: Id)
    requires i < |tasks| == |b.pcs| && TaskFor(tasks[i], k) && b.pcs[i] == FindKeeper && !Keyed(b.table, k)
    requires Picks(b.table, tasks[i], k, x) && |Orphans(b.table, k.tenant, k.phone)| > 1
    ensures BatchStep(BatchStep(b, tasks, i), tasks, i) ==
              Batch(b.table, b.pcs[i := DeleteExtras(x, OthersOf(b.table, k, x))])
  {
    assert b.pcs[i := FindOrphans][i := DeleteExtras(x, OthersOf(b.table, k, x))] ==
      b.pcs[i := DeleteExtras(x, OthersOf(b.table, k, x))];
  }

  // Each task then deletes the row the other one keeps.
  lemma BothDelete(t: Table, pcs: seq<Pc>, tasks: seq<Task>, k: Key, i: nat, j: nat, x: Id, y: Id)
    requires i < |tasks| == |pcs| && j < |tasks| && i != j && TaskFor(tasks[i], k) && TaskFor(tasks[j], k) && x != y
    requires x in Orphans(t, k.tenant, k.phone) && y in Orphans(t, k.tenant, k.phone)
    requires pcs[i] == DeleteExtras(x, OthersOf(t, k, x)) && pcs[j] == DeleteExtras(y, OthersOf(t, k, y))
    ensures BatchStep(BatchStep(Batch(t, pcs), tasks, i), tasks, j) ==
              Batch(t - Orphans(t, k.tenant, k.phone).Keys, pcs[i := Attach(x)][j := Attach(y)])
  {
    assert t - OthersOf(t, k, x) - OthersOf(t, k, y) == t - Orphans(t, k.tenant, k.phone).Keys;
  }

  // Neither finds its row again, and both stop without writing.
  lemma NeitherAttaches(b: Batch, tasks: seq<Task>, i: nat, j: nat)
    requires i < |tasks| == |b.pcs| && j < |tasks| && i != j && tasks[i].Sync? && tasks[j].Sync?
    requires b.pcs[i].Attach? && b.pcs[i].keep !in b.table && b.pcs[j].Attach? && b.pcs[j].keep !in b.table
    ensures BatchStep(BatchStep(b, tasks, i), tasks, j) == Batch(b.table, b.pcs[i := Finished][j := Finished])
  {
  }

  function LosingSchedule(i: nat, j: nat): seq<nat> {
    [] + [i] + [i] + [j] + [j] + [i] + [j] + [i] + [j]
  }

  lemma BothList(t: Table, tasks: seq<Task>, k: Key, i: nat, j: nat, x: Id, y: Id)
    requires !Keyed(t, k) && Torn(t, tasks, k, i, j) && Picks(t, tasks[i], k, x) && Picks(t, tasks[j], k, y)
    ensures RunSchedule(t, tasks, [] + [i] + [i] + [j] + [j]) ==
              Batch(t, Started(t, tasks).pcs[i := DeleteExtras(x, OthersOf(t, k, x))]
                                            [j := DeleteExtras(y, OthersOf(t, k, y))])
  {
    var b := Started(t, tasks);
    TwoInMap(Orphans(t, k.tenant, k.phone));
    RunTwo(t, tasks, [], i, i);
    RunTwo(t, tasks, [] + [i] + [i], j, j);
    TwoCallsList(b, tasks, k, i, x);
    TwoCallsList(Batch(t, b.pcs[i := DeleteExtras(x, OthersOf(t, k, x))]), tasks, k, j, y);
  }

  lemma DeletesRun(t: Table, tasks: seq<Task>, schedule: seq<nat>, k: Key, i: nat, j: nat, x: Id, y: Id)
    requires i < |tasks| && j < |tasks| && i != j && TaskFor(tasks[i], k) && TaskFor(tasks[j], k) && x != y
    requires x in Orphans(t, k.tenant, k.phone) && y in Orphans(t, k.tenant, k.phone)
    requires RunSchedule(t, tasks, schedule).table == t
    requires RunSchedule(t, tasks, schedule).pcs[i] == DeleteExtras(x, OthersOf(t, k, x))
    requires RunSchedule(t, tasks, schedule).pcs[j] == DeleteExtras(y, OthersOf(t, k, y))
    ensures RunSchedule(t, tasks, schedule + [i] + [j]) ==
              Batch(t - Orphans(t, k.tenant, k.phone).Keys,
                    RunSchedule(t, tasks, schedule).pcs[i := Attach(x)][j := Attach(y)])
  {
    BothDelete(t, RunSchedule(t, tasks, schedule).pcs, tasks, k, i, j, x, y);
    RunTwo(t, tasks, schedule, i, j);
  }

  lemma AttachesRun(t: Table, tasks: seq<Task>, schedule: seq<nat>, i: nat, j: nat)
    requires i < |tasks| && j < |tasks| && i != j && tasks[i].Sync? && tasks[j].Sync?
    requires var b := RunSchedule(t, tasks, schedule);
             b.pcs[i].Attach? && b.pcs[i].keep !in b.table && b.pcs[j].Attach? && b.pcs[j].keep !in b.table
    ensures var b := RunSchedule(t, tasks, schedule);
            RunSchedule(t, tasks, schedule + [i] + [j]) == Batch(b.table, b.pcs[i := Finished][j := Finished])
  {
    NeitherAttaches(RunSchedule(t, tasks, schedule), tasks, i, j);
    RunTwo(t, tasks, schedule, i, j);
  }

  lemma UpdatedAgain(pcs: seq<Pc>, i: nat, j: nat, a: Pc, b: Pc)
    requires i < |pcs| && j < |pcs| && i != j
    ensures pcs[i := a][j := b][i := Finished][j := Finished] == pcs[i := Finished][j := Finished]
  {
  }

  // From the moment both have listed the orphans, four more calls.
  lemma ListedIsLost(t: Table, tasks: seq<Task>, listed: seq<nat>, k: Key, i: nat, j: nat, x: Id, y: Id)
    requires i < |tasks| && j < |tasks| && i != j && TaskFor(tasks[i], k) && TaskFor(tasks[j], k) && x != y
    requires x in Orphans(t, k.tenant, k.phone) && y in Orphans(t, k.tenant, k.phone)
    requires RunSchedule(t, tasks, listed).table == t
    requires RunSchedule(t, tasks, listed).pcs[i] == DeleteExtras(x, OthersOf(t, k, x))
    requires RunSchedule(t, tasks, listed).pcs[j] == DeleteExtras(y, OthersOf(t, k, y))
    ensures var r := RunSchedule(t, tasks, listed + [i] + [j] + [i] + [j]);
            && r.table == t - Orphans(t, k.tenant, k.phone).Keys
            && r.pcs == RunSchedule(t, tasks, listed).pcs[i := Finished][j := Finished]
  {
    var pcs := RunSchedule(t, tasks, listed).pcs;
    DeletesRun(t, tasks, listed, k, i, j, x, y);
    AttachesRun(t, tasks, listed + [i] + [j], i, j);
    UpdatedAgain(pcs, i, j, Attach(x), Attach(y));
  }

  // The race: each task deletes the row the other one keeps, and neither writes anything.
  lemma TieLosesConversation(t: Table, tasks: seq<Task>, k: Key, i: nat, j: nat)
    requires !Keyed(t, k) && Torn(t, tasks, k, i, j)
    ensures var r := RunSchedule(t, tasks, LosingSchedule(i, j));
            && r.table == t - Orphans(t, k.tenant, k.phone).Keys
            && r.pcs == Started(t, tasks).pcs[i := Finished][j := Finished]
  {
    var orphans := Orphans(t, k.tenant, k.phone);
    var x, y := OldestOf(orphans, tasks[i].hint), OldestOf(orphans, tasks[j].hint);
    BothList(t, tasks, k, i, j, x, y);
    UpdatedAgain(Started(t, tasks).pcs, i, j, DeleteExtras(x, OthersOf(t, k, x)), DeleteExtras(y, OthersOf(t, k, y)));
    ListedIsLost(t, tasks, [] + [i] + [i] + [j] + [j], k, i, j, x, y);
  }

  // ── What is lost stays lost ──────────────────────────────────────────────

  // No row of the start has the key, and none of the number is an orphan.
  ghost predicate NoneLeft(start: Table, t: Table, k: Key) {
    forall c :: c in t ==> (c in start ==> !HasKey(t[c], k)) && !IsOrphan(t[c], k.tenant, k.phone)
  }

  ghost predicate AttachesNone(task: Task, pc: Pc, k: Key) {
    TaskFor(task, k) ==> !pc.DeleteExtras? && !pc.Attach?
  }

  ghost predicate Lost(start: Table, b: Batch, tasks: seq<Task>, k: Key) {
    && |b.pcs| == |tasks| && NoneLeft(start, b.table, k)
    && forall i :: 0 <= i < |tasks| ==> AttachesNone(tasks[i], b.pcs[i], k)
  }

  lemma StepLeavesNone(start: Table, t: Table, task: Task, pc: Pc, k: Key, ids: set<Id>)
    requires NoneLeft(start, t, k) && AttachesNone(task, pc, k) && FreshFor(start, task)
    requires SameSession(task, k) && KeepIsOwn(start, task, pc) && Grown(start, t, k.session, ids)
    ensures NoneLeft(start, TaskStep(t, task, pc).0, k)
  {
  }

  lemma StepAttachesNone(start: Table, t: Table, task: Task, pc: Pc, k: Key)
    requires NoneLeft(start, t, k) && AttachesNone(task, pc, k)
    ensures AttachesNone(task, TaskStep(t, task, pc).1, k)
  {
    if TaskFor(task, k) { assert Orphans(t, k.tenant, k.phone) == map[]; }
  }

  lemma LostStep(start: Table, b: Batch, tasks: seq<Task>, k: Key, i: nat)
    requires ReadyTasks(start, tasks, k.session) && KeysInv(start, b, tasks, k.session)
    requires Lost(start, b, tasks, k) && i < |tasks|
    ensures Lost(start, BatchStep(b, tasks, i), tasks, k)
  {
    var task, pc := tasks[i], b.pcs[i];
    assert FreshFor(start, task) && TaskReady(b.table, task, pc, k.session) && KeepIsOwn(start, task, pc);
    StepLeavesNone(start, b.table, task, pc, k, NewIds(tasks));
    StepAttachesNone(start, b.table, task, pc, k);
  }

  lemma {:induction false} StaysLost(t: Table, tasks: seq<Task>, before: seq<nat>, rest: seq<nat>, k: Key)
    requires UniqueKeys(t) && ReadyTasks(t, tasks, k.session)
    requires Lost(t, RunSchedule(t, tasks, before), tasks, k)
    ensures Lost(t, RunSchedule(t, tasks, before + rest), tasks, k)
  {
    if rest == [] {
      assert before + rest == before;
    } else {
      var n := |rest| - 1;
      StaysLost(t, tasks, before, rest[..n], k);
      ScheduleKeepsKeys(t, tasks, before + rest[..n], k.session);
      RunSnoc(t, tasks, before + rest[..n], rest[n]);
      assert before + rest[..n] + [rest[n]] == before + rest;
      if rest[n] < |tasks| { LostStep(t, RunSchedule(t, tasks, before + rest[..n]), tasks, k, rest[n]); }
    }
  }

  lemma TieLoses(t: Table, tasks: seq<Task>, k: Key, i: nat, j: nat)
    requires !Keyed(t, k) && Torn(t, tasks, k, i, j)
    ensures Lost(t, RunSchedule(t, tasks, LosingSchedule(i, j)), tasks, k)
  {
    TieLosesConversation(t, tasks, k, i, j);
    var b := RunSchedule(t, tasks, LosingSchedule(i, j));
    assert forall c :: c in b.table ==> c !in Orphans(t, k.tenant, k.phone);
  }

  // ── When the conversation survives ───────────────────────────────────────

  // A row that was there before has the key.
  ghost predicate Held(t: Table, u: Table, k: Key) {
    exists c: Id :: c in t && HasTheKey(u, k, c)
  }

  // Whatever the interleaving, once the batch is finished.
  ghost predicate KeepsConversation(t: Table, tasks: seq<Task>, k: Key) {
    forall schedule: seq<nat> ::
      AllFinished(RunSchedule(t, tasks, schedule)) ==> Held(t, RunSchedule(t, tasks, schedule).table, k)
  }

  lemma KeyedIsHeld(t: Table, tasks: seq<Task>, schedule: seq<nat>, k: Key)
    requires Keyed(t, k) && ReadyTasks(t, tasks, k.session)
    ensures Held(t, RunSchedule(t, tasks, schedule).table, k)
  {
    var c := RowOf(t, k);
    forall task | task in tasks && task.Sync? ensures task.id !in t { assert FreshFor(t, task); }
    ScheduleKeepsRow(t, tasks, schedule, c);
    assert HasTheKey(RunSchedule(t, tasks, schedule).table, k, c);
  }

  lemma TornNotKept(t: Table, tasks: seq<Task>, k: Key, i: nat, j: nat)
    requires UniqueKeys(t) && ReadyTasks(t, tasks, k.session) && !Keyed(t, k) && Torn(t, tasks, k, i, j)
    ensures !KeepsConversation(t, tasks, k)
  {
    var schedule := LosingSchedule(i, j) + FiveEach(|tasks|);
    TieLoses(t, tasks, k, i, j);
    StaysLost(t, tasks, LosingSchedule(i, j), FiveEach(|tasks|), k);
    Continues(t, tasks, LosingSchedule(i, j));
    assert AllFinished(RunSchedule(t, tasks, schedule));
  }

  // A number of the batch that has a row, or orphans, keeps its conversation under every
  // interleaving if and only if it has a row, or all its tasks are given the same orphan first.
  lemma KeepsConversationIff(t: Table, tasks: seq<Task>, k: Key, i: nat)
    requires UniqueKeys(t) && ReadyTasks(t, tasks, k.session) && i < |tasks| && TaskFor(tasks[i], k)
    requires Keyed(t, k) || Orphans(t, k.tenant, k.phone) != map[]
    ensures KeepsConversation(t, tasks, k) <==>
              Keyed(t, k) || AllPick(t, tasks, k, OldestOf(Orphans(t, k.tenant, k.phone), tasks[i].hint))
  {
    if Keyed(t, k) {
      forall schedule: seq<nat> ensures Held(t, RunSchedule(t, tasks, schedule).table, k) {
        KeyedIsHeld(t, tasks, schedule, k);
      }
    } else {
      var x := OldestOf(Orphans(t, k.tenant, k.phone), tasks[i].hint);
      if AllPick(t, tasks, k, x) {
        forall schedule: seq<nat> | AllFinished(RunSchedule(t, tasks, schedule))
          ensures Held(t, RunSchedule(t, tasks, schedule).table, k)
        {
          OldestOrphanSurvives(t, tasks, schedule, k, x, i);
          assert HasTheKey(RunSchedule(t, tasks, schedule).table, k, x);
        }
      } else {
        var j :| 0 <= j < |tasks| && !Picks(t, tasks[j], k, x);
        TornNotKept(t, tasks, k, i, j);
      }
    }
  }

  // ── Whatever order the database returns equally old orphans in ───────────

  function WithHints(tasks: seq<Task>, hints: seq<Id>): (r: seq<Task>)
    requires |hints| == |tasks|
  {
    seq(|tasks|, i requires 0 <= i < |tasks| =>
      if tasks[i].Sync? then tasks[i].(hint := hints[i]) else tasks[i])
  }

  lemma HintsReady(t: Table, tasks: seq<Task>, hints: seq<Id>, session: Id)
    requires |hints| == |tasks| && ReadyTasks(t, tasks, session)
    ensures ReadyTasks(t, WithHints(tasks, hints), session)
  {
    var other := WithHints(tasks, hints);
    forall task | task in other ensures FreshFor(t, task) && (task.Sync? ==> task.key.session == session) {
      var i :| 0 <= i < |other| && other[i] == task;
      assert tasks[i] in tasks && FreshFor(t, tasks[i]);
    }
  }

  ghost predicate KeepsUnderAllTies(t: Table, tasks: seq<Task>, k: Key) {
    forall hints: seq<Id> :: |hints| == |tasks| ==> KeepsConversation(t, WithHints(tasks, hints), k)
  }

  ghost predicate OnlyOnce(tasks: seq<Task>, k: Key) {
    forall i, j :: 0 <= i < |tasks| && 0 <= j < |tasks| && TaskFor(tasks[i], k) && TaskFor(tasks[j], k) ==> i == j
  }

  // Two equally old orphans, none older.
  ghost predicate TiedOrphans(t: Table, k: Key, x: Id, y: Id) {
    x != y && Oldest(Orphans(t, k.tenant, k.phone), x) && Oldest(Orphans(t, k.tenant, k.phone), y)
  }

  ghost predicate HasTie(t: Table, k: Key) {
    exists x: Id, y: Id :: TiedOrphans(t, k, x, y)
  }

  lemma UntiedIsKept(t: Table, tasks: seq<Task>, k: Key, i: nat)
    requires UniqueKeys(t) && ReadyTasks(t, tasks, k.session) && i < |tasks| && TaskFor(tasks[i], k)
    requires Keyed(t, k) || Orphans(t, k.tenant, k.phone) != map[]
    requires Keyed(t, k) || OnlyOnce(tasks, k) || !HasTie(t, k)
    ensures KeepsConversation(t, tasks, k)
  {
    KeepsConversationIff(t, tasks, k, i);
    if !Keyed(t, k) {
      var orphans := Orphans(t, k.tenant, k.phone);
      var x := OldestOf(orphans, tasks[i].hint);
      forall j | 0 <= j < |tasks| ensures Picks(t, tasks[j], k, x) {
        if TaskFor(tasks[j], k) && j != i { assert !TiedOrphans(t, k, x, OldestOf(orphans, tasks[j].hint)); }
      }
    }
  }

  lemma TieIsNotKept(t: Table, tasks: seq<Task>, k: Key, i: nat, j: nat, x: Id, y: Id)
    requires UniqueKeys(t) && ReadyTasks(t, tasks, k.session) && !Keyed(t, k) && TiedOrphans(t, k, x, y)
    requires i < |tasks| && j < |tasks| && i != j && TaskFor(tasks[i], k) && TaskFor(tasks[j], k)
    ensures !KeepsUnderAllTies(t, tasks, k)
  {
    var hints := seq(|tasks|, n => if n == i then x else y);
    HintsReady(t, tasks, hints, k.session);
    TornNotKept(t, WithHints(tasks, hints), k, i, j);
  }

  // A number of the batch that has a row, or orphans, keeps its conversation under every
  // interleaving and every order of equally old orphans if and only if it has a row, or only one
  // chat of the batch has the number, or one of its orphans is older than all the others.
  lemma KeptUnderAllTiesIff(t: Table, tasks: seq<Task>, k: Key, i: nat)
    requires UniqueKeys(t) && ReadyTasks(t, tasks, k.session) && i < |tasks| && TaskFor(tasks[i], k)
    requires Keyed(t, k) || Orphans(t, k.tenant, k.phone) != map[]
    ensures KeepsUnderAllTies(t, tasks, k) <==> Keyed(t, k) || OnlyOnce(tasks, k) || !HasTie(t, k)
  {
    if Keyed(t, k) || OnlyOnce(tasks, k) || !HasTie(t, k) {
      forall hints: seq<Id> | |hints| == |tasks| ensures KeepsConversation(t, WithHints(tasks, hints), k) {
        HintsReady(t, tasks, hints, k.session);
        assert OnlyOnce(tasks, k) ==> OnlyOnce(WithHints(tasks, hints), k) by {
          assert forall n :: 0 <= n < |tasks| ==> (TaskFor(WithHints(tasks, hints)[n], k) <==> TaskFor(tasks[n], k));
        }
        UntiedIsKept(t, WithHints(tasks, hints), k, i);
      }
    } else {
      var x, y :| TiedOrphans(t, k, x, y);
      var a, b :| 0 <= a < |tasks| && 0 <= b < |tasks| && TaskFor(tasks[a], k) && TaskFor(tasks[b], k) && a != b;
      TieIsNotKept(t, tasks, k, a, b, x, y);
    }
  }
}
