// Chat sync: batches of twenty chats whose tasks run concurrently, each a small
// program of separate database calls. Whatever way the calls of a batch
// interleave, the table ends as if the chats had been handled one by one.

module ChatSync {
  import opened Common
  import opened Conversations

  const BATCH_SIZE := 20
  const PREVIEW_LENGTH := 500

  // A chat as the engine sends it; None is a field of the wrong type, or missing.
  datatype Chat = Chat(jid: string, lastMessageAt: Option<int>, lastMessageText: Option<string>,
                       unreadCount: Option<int>, contactName: Option<string>)

  // What the environment supplies to one task: the id of the row it may insert, the clock, and
  // which of equally old orphans the database returns first.
  datatype Draw = Draw(id: Id, now: int, hint: Id)

  function Clip(s: string): string {
    if |s| <= PREVIEW_LENGTH then s else s[..PREVIEW_LENGTH]
  }

  function TrimStart(s: string): string {
    if s != "" && IsSpace(s[0]) then TrimStart(s[1..]) else s
  }

  function TrimEnd(s: string): string {
    if s != "" && IsSpace(s[|s| - 1]) then TrimEnd(s[..|s| - 1]) else s
  }

  function Preview(c: Chat): string {
    if c.lastMessageText.Some? then Clip(c.lastMessageText.value) else ""
  }

  function Unread(c: Chat): nat {
    if c.unreadCount.Some? && c.unreadCount.value >= 0 then c.unreadCount.value else 0
  }

  /** s.trim(), or None where that is empty. */
  function Trimmed(s: Option<string>): Option<string> {
    if s.Some? && !Blank(s.value) then Some(TrimEnd(TrimStart(s.value))) else None
  }

  function ContactName(c: Chat): Option<string> {
    Trimmed(c.contactName)
  }

  predicate HasRealContent(c: Chat) {
    !Blank(Preview(c)) || Unread(c) > 0 || ContactName(c).Some?
  }

  // The text is the beginning of the other, all of it up to 500 characters.
  predicate IsClipped(clipped: string, text: string) {
    clipped <= text && |clipped| == if |text| < 500 then |text| else 500
  }

  lemma {:induction false} TrimStartMeans(s: string)
    ensures exists lead :: s == lead + TrimStart(s) && Blank(lead)
    ensures TrimStart(s) != "" ==> !IsSpace(TrimStart(s)[0])
  {
    if s != "" && IsSpace(s[0]) {
      TrimStartMeans(s[1..]);
      var lead :| s[1..] == lead + TrimStart(s[1..]) && Blank(lead);
      assert s == ([s[0]] + lead) + TrimStart(s) && Blank([s[0]] + lead);
    } else {
      assert s == "" + TrimStart(s) && Blank("");
    }
  }

  lemma {:induction false} TrimEndMeans(s: string)
    ensures exists tail :: s == TrimEnd(s) + tail && Blank(tail)
    ensures TrimEnd(s) != "" ==> !IsSpace(TrimEnd(s)[|TrimEnd(s)| - 1])
  {
    if s != "" && IsSpace(s[|s| - 1]) {
      var init := s[..|s| - 1];
      TrimEndMeans(init);
      var tail :| init == TrimEnd(init) + tail && Blank(tail);
      assert s == TrimEnd(s) + (tail + [s[|s| - 1]]) && Blank(tail + [s[|s| - 1]]);
    } else {
      assert s == TrimEnd(s) + "" && Blank("");
    }
  }

  // The text without the white space around it; it neither begins nor ends with any.
  ghost predicate IsTrimmed(trimmed: string, text: string) {
    && trimmed != "" && !IsSpace(trimmed[0]) && !IsSpace(trimmed[|trimmed| - 1])
    && exists lead, tail :: text == lead + trimmed + tail && Blank(lead) && Blank(tail)
  }

  lemma BlankParts(a: string, b: string)
    requires Blank(a) && Blank(b)
    ensures Blank(a + b)
  {
  }

  // Nothing but white space is no name; any other text is a name without the white space around it.
  lemma TrimmedMeans(text: string)
    ensures Trimmed(Some(text)).None? <==> Blank(text)
    ensures Trimmed(Some(text)).Some? ==> IsTrimmed(Trimmed(Some(text)).value, text)
  {
    if !Blank(text) {
      var start := TrimStart(text);
      var trimmed := TrimEnd(start);
      TrimStartMeans(text);
      TrimEndMeans(start);
      var lead :| text == lead + start && Blank(lead);
      var tail :| start == trimmed + tail && Blank(tail);
      if trimmed == "" { BlankParts(lead, tail); }
      assert start[0] == trimmed[0];
      assert text == lead + trimmed + tail;
    }
  }

  // What a task skips: no address, a newsletter, or a broadcast. Groups and linked devices are synced.
  predicate IsIgnored(jid: string) {
    jid == "" || EndsWith(jid, "@newsletter") || EndsWith(jid, "@broadcast")
  }

  // The chat has something other than white space among the first 500 characters of its text,
  // unread messages, or a name.
  predicate SaysSomething(c: Chat) {
    || (c.lastMessageText.Some? &&
        exists i :: 0 <= i < |c.lastMessageText.value| && i < 500 && !IsSpace(c.lastMessageText.value[i]))
    || (c.unreadCount.Some? && c.unreadCount.value > 0)
    || (c.contactName.Some? && !Blank(c.contactName.value))
  }

  lemma ContentMeans(c: Chat)
    ensures HasRealContent(c) <==> SaysSomething(c)
  {
    if c.lastMessageText.Some? {
      var text, clipped := c.lastMessageText.value, Clip(c.lastMessageText.value);
      assert forall i :: 0 <= i < |clipped| ==> clipped[i] == text[i];
      assert |clipped| == if |text| < 500 then |text| else 500;
    }
  }

  datatype Task = Skip | Sync(key: Key, id: Id, hint: Id, row: Conversation, patch: Patch, hasContent: bool)

  function TaskOf(tenant: Id, session: Id, c: Chat, d: Draw): Task {
    if c.jid == "" || EndsWith(c.jid, "@newsletter") || EndsWith(c.jid, "@broadcast") then Skip
    else
      var phone := NormaliseJid(c.jid);
      var at := if c.lastMessageAt.Some? then c.lastMessageAt.value else d.now;
      Sync(Key(tenant, session, phone), d.id, d.hint,
           Conversation(tenant, Some(session), phone, d.now, true, Unread(c), at, Preview(c), ContactName(c), None),
           Patch(at, Preview(c), SetTo(Unread(c)), false, ContactName(c), None), HasRealContent(c))
  }

  // A chat is skipped exactly when its address is one of those; every other chat is a task for the
  // normalised address.
  lemma SkippedIff(tenant: Id, session: Id, c: Chat, d: Draw)
    ensures var task := TaskOf(tenant, session, c, d);
            && (task.Skip? <==> IsIgnored(c.jid))
            && (task.Sync? ==>
                  && task.key == Key(tenant, session, NormaliseJid(c.jid)) && task.id == d.id && task.hint == d.hint
                  && (task.hasContent <==> SaysSomething(c)))
  {
    ContentMeans(c);
  }

  // ── A task run without interruption ──────────────────────────────────────

  function Written(t: Table, task: Task): Table
    requires task.Sync?
  {
    if task.hasContent then Upsert(t, task.key, task.id, task.row, task.patch) else UpdateKeyed(t, task.key, task.patch)
  }

  function RunTask(t: Table, task: Task): Table {
    if task.Skip? then t else Written(Reattach(t, task.key, task.hint), task)
  }

  function SyncAll(t: Table, tasks: seq<Task>): Table {
    if tasks == [] then t else RunTask(SyncAll(t, tasks[..|tasks| - 1]), tasks[|tasks| - 1])
  }

  // ── A task as the database sees it, call by call ─────────────────────────

  datatype Pc =
    | FindKeeper | DeleteOrphans | FindOrphans
    | DeleteExtras(keep: Id, extras: set<Id>) | Attach(keep: Id)
    | Write | Finished

  function Initial(task: Task): Pc {
    if task.Skip? then Finished else FindKeeper
  }

  // Attaching fails when the row is gone or another row already has the key; the task then stops.
  predicate CanAttach(t: Table, k: Key, keep: Id) {
    keep in t && forall c :: c in t && c != keep ==> !HasKey(t[c], k)
  }

  function TaskStep(t: Table, task: Task, pc: Pc): (Table, Pc) {
    if task.Skip? then (t, pc)
    else
      var k := task.key;
      var orphans := Orphans(t, k.tenant, k.phone);
      match pc
      case FindKeeper => (t, if Keyed(t, k) then DeleteOrphans else FindOrphans)
      case DeleteOrphans => (t - orphans.Keys, Write)
      case FindOrphans =>
        if orphans == map[] then (t, Write)
        else
          var keep := OldestOf(orphans, task.hint);
          (t, if |orphans| > 1 then DeleteExtras(keep, orphans.Keys - {keep}) else Attach(keep))
      case DeleteExtras(keep, extras) => (t - extras, Attach(keep))
      case Attach(keep) =>
        if CanAttach(t, k, keep) then (t[keep := t[keep].(session := Some(k.session))], Write) else (t, Finished)
      case Write => (Written(t, task), Finished)
      case Finished => (t, Finished)
  }

  function RestAttach(t: Table, task: Task, keep: Id): Table
    requires task.Sync?
  {
    if CanAttach(t, task.key, keep) then Written(t[keep := t[keep].(session := Some(task.key.session))], task) else t
  }

  // What the rest of the task makes of the table if nothing else interferes.
  function Rest(t: Table, task: Task, pc: Pc): Table {
    if task.Skip? then t
    else
      var k := task.key;
      match pc
      case FindKeeper => RunTask(t, task)
      case DeleteOrphans => Written(t - Orphans(t, k.tenant, k.phone).Keys, task)
      case FindOrphans =>
        var orphans := Orphans(t, k.tenant, k.phone);
        if orphans == map[] then Written(t, task)
        else RestAttach(t - (orphans.Keys - {OldestOf(orphans, task.hint)}), task, OldestOf(orphans, task.hint))
      case DeleteExtras(keep, extras) => RestAttach(t - extras, task, keep)
      case Attach(keep) => RestAttach(t, task, keep)
      case Write => Written(t, task)
      case Finished => t
  }

  lemma KeeperMissing(t: Table, task: Task)
    requires task.Sync? && !Keyed(t, task.key)
    ensures Rest(t, task, FindOrphans) == RunTask(t, task)
  {
    var k := task.key;
    var orphans := Orphans(t, k.tenant, k.phone);
    if orphans != map[] {
      var keep := OldestOf(orphans, task.hint);
      var u := t - (orphans.Keys - {keep});
      assert u[keep] == t[keep];
      assert CanAttach(u, k, keep);
      assert Kept(t, k, keep) == u[keep := u[keep].(session := Some(k.session))];
    }
  }

  lemma KeeperPresent(t: Table, task: Task)
    requires task.Sync? && Keyed(t, task.key)
    ensures Rest(t, task, DeleteOrphans) == RunTask(t, task)
  {
  }

  lemma SingleOrphan(t: Table, task: Task)
    requires task.Sync? && |Orphans(t, task.key.tenant, task.key.phone)| == 1
    ensures var orphans := Orphans(t, task.key.tenant, task.key.phone);
            t - (orphans.Keys - {OldestOf(orphans, task.hint)}) == t
  {
    var orphans := Orphans(t, task.key.tenant, task.key.phone);
    var keep := OldestOf(orphans, task.hint);
    TwoInMap(orphans);
    assert orphans.Keys - {keep} == {};
  }

  lemma OrphansFound(t: Table, task: Task)
    requires task.Sync?
    ensures var s := TaskStep(t, task, FindOrphans); s.0 == t && Rest(t, task, s.1) == Rest(t, task, FindOrphans)
  {
    var orphans := Orphans(t, task.key.tenant, task.key.phone);
    if orphans != map[] {
      var keep := OldestOf(orphans, task.hint);
      assert keep in orphans.Keys;
      if |orphans| == 1 { SingleOrphan(t, task); }
    }
  }

  lemma KeeperLookedUp(t: Table, task: Task)
    requires task.Sync?
    ensures var s := TaskStep(t, task, FindKeeper); s.0 == t && Rest(t, task, s.1) == Rest(t, task, FindKeeper)
  {
    if Keyed(t, task.key) { KeeperPresent(t, task); } else { KeeperMissing(t, task); }
  }

  lemma WriteKeepsRest(t: Table, task: Task, pc: Pc)
    requires task.Sync? && !pc.FindKeeper? && !pc.FindOrphans?
    ensures var s := TaskStep(t, task, pc); Rest(s.0, task, s.1) == Rest(t, task, pc)
  {
  }

  lemma StepKeepsRest(t: Table, task: Task, pc: Pc)
    ensures Rest(TaskStep(t, task, pc).0, task, TaskStep(t, task, pc).1) == Rest(t, task, pc)
  {
    if task.Sync? {
      if pc == FindKeeper {
        KeeperLookedUp(t, task);
      } else if pc == FindOrphans {
        OrphansFound(t, task);
      } else {
        WriteKeepsRest(t, task, pc);
      }
    }
  }

  // ── Slices: the rows of one tenant and number ────────────────────────────

  datatype Spot = Spot(tenant: Id, phone: string)

  function SpotOf(c: Conversation): Spot {
    Spot(c.tenant, c.phone)
  }

  function Slice(t: Table, s: Spot): Table {
    map c | c in t && SpotOf(t[c]) == s :: t[c]
  }

  function TaskSpot(task: Task): Spot
    requires task.Sync?
  {
    Spot(task.key.tenant, task.key.phone)
  }

  predicate TaskFor(task: Task, k: Key) {
    task.Sync? && task.key == k
  }

  ghost predicate RowMatches(task: Task) {
    task.Sync? ==> HasKey(task.row, task.key)
  }

  lemma SlicesDetermine(t: Table, u: Table)
    requires forall s :: Slice(t, s) == Slice(u, s)
    ensures t == u
  {
    forall c | c in t ensures c in u && u[c] == t[c] {
      assert c in Slice(t, SpotOf(t[c]));
      assert Slice(u, SpotOf(t[c])) == Slice(t, SpotOf(t[c]));
    }
    forall c | c in u ensures c in t {
      assert c in Slice(u, SpotOf(u[c]));
      assert Slice(t, SpotOf(u[c])) == Slice(u, SpotOf(u[c]));
    }
  }

  // ── Every call of a task works on the task's own slice ───────────────────
  //
  // Slicing commutes with each call, and no call changes another slice.

  lemma KeyedInSlice(t: Table, k: Key)
    ensures Keyed(Slice(t, Spot(k.tenant, k.phone)), k) <==> Keyed(t, k)
    ensures Orphans(Slice(t, Spot(k.tenant, k.phone)), k.tenant, k.phone) == Orphans(t, k.tenant, k.phone)
  {
    if Keyed(t, k) {
      var c :| c in t && HasKey(t[c], k);
      assert c in Slice(t, Spot(k.tenant, k.phone));
    }
  }

  lemma WrittenInSlice(t: Table, task: Task)
    requires task.Sync? && RowMatches(task)
    ensures Slice(Written(t, task), TaskSpot(task)) == Written(Slice(t, TaskSpot(task)), task)
  {
    KeyedInSlice(t, task.key);
  }

  lemma DeleteInSlice(t: Table, ids: set<Id>, s: Spot)
    ensures Slice(t - ids, s) == Slice(t, s) - ids
  {
  }

  lemma AttachInSlice(t: Table, k: Key, keep: Id)
    requires keep in Slice(t, Spot(k.tenant, k.phone))
    ensures var s := Spot(k.tenant, k.phone);
            && (CanAttach(Slice(t, s), k, keep) <==> CanAttach(t, k, keep))
            && Slice(t[keep := t[keep].(session := Some(k.session))], s) ==
              Slice(t, s)[keep := t[keep].(session := Some(k.session))]
  {
    var s := Spot(k.tenant, k.phone);
    if CanAttach(Slice(t, s), k, keep) {
      forall c | c in t && c != keep ensures !HasKey(t[c], k) {
        assert HasKey(t[c], k) ==> c in Slice(t, s);
      }
    }
  }

  // The rows a task remembers between calls are rows of its slice.
  ghost predicate PcOk(t: Table, task: Task, pc: Pc) {
    task.Sync? ==>
      match pc
      case DeleteExtras(keep, extras) =>
        keep in Slice(t, TaskSpot(task)) && keep !in extras && extras <= Slice(t, TaskSpot(task)).Keys
      case Attach(keep) => keep in Slice(t, TaskSpot(task))
      case _ => true
  }

  lemma StepKeepsPcOk(t: Table, task: Task, pc: Pc)
    requires PcOk(t, task, pc)
    ensures var s := TaskStep(t, task, pc); PcOk(s.0, task, s.1)
  {
    if task.Sync? && pc.DeleteExtras? { DeleteInSlice(t, pc.extras, TaskSpot(task)); }
  }

  lemma RestAttachInSlice(t: Table, task: Task, keep: Id)
    requires task.Sync? && RowMatches(task) && keep in Slice(t, TaskSpot(task))
    ensures Slice(RestAttach(t, task, keep), TaskSpot(task)) == RestAttach(Slice(t, TaskSpot(task)), task, keep)
  {
    AttachInSlice(t, task.key, keep);
    if CanAttach(t, task.key, keep) {
      WrittenInSlice(t[keep := t[keep].(session := Some(task.key.session))], task);
    }
  }

  lemma ReattachInSlice(t: Table, k: Key, hint: Id)
    ensures Slice(Reattach(t, k, hint), Spot(k.tenant, k.phone)) == Reattach(Slice(t, Spot(k.tenant, k.phone)), k, hint)
  {
    var s, orphans := Spot(k.tenant, k.phone), Orphans(t, k.tenant, k.phone);
    KeyedInSlice(t, k);
    if Keyed(t, k) {
      DeleteInSlice(t, orphans.Keys, s);
    } else if orphans != map[] {
      var keep := OldestOf(orphans, hint);
      DeleteInSlice(t, orphans.Keys - {keep}, s);
      AttachInSlice(t - (orphans.Keys - {keep}), k, keep);
    }
  }

  lemma RestInSlice(t: Table, task: Task, pc: Pc)
    requires task.Sync? && RowMatches(task) && PcOk(t, task, pc)
    ensures Slice(Rest(t, task, pc), TaskSpot(task)) == Rest(Slice(t, TaskSpot(task)), task, pc)
  {
    var s, k := TaskSpot(task), task.key;
    var orphans := Orphans(t, k.tenant, k.phone);
    KeyedInSlice(t, k);
    match pc
    case FindKeeper =>
      ReattachInSlice(t, k, task.hint);
      WrittenInSlice(Reattach(t, k, task.hint), task);
    case DeleteOrphans =>
      DeleteInSlice(t, orphans.Keys, s);
      WrittenInSlice(t - orphans.Keys, task);
    case FindOrphans =>
      if orphans == map[] {
        WrittenInSlice(t, task);
      } else {
        var keep := OldestOf(orphans, task.hint);
        DeleteInSlice(t, orphans.Keys - {keep}, s);
        RestAttachInSlice(t - (orphans.Keys - {keep}), task, keep);
      }
    case DeleteExtras(keep, extras) =>
      DeleteInSlice(t, extras, s);
      RestAttachInSlice(t - extras, task, keep);
    case Attach(keep) => RestAttachInSlice(t, task, keep);
    case Write => WrittenInSlice(t, task);
    case Finished =>
  }

  lemma WrittenElsewhere(t: Table, task: Task, other: Spot)
    requires task.Sync? && RowMatches(task) && other != TaskSpot(task) && task.id !in t
    ensures Slice(Written(t, task), other) == Slice(t, other)
  {
  }

  lemma StepElsewhere(t: Table, task: Task, pc: Pc, other: Spot)
    requires task.Sync? && RowMatches(task) && other != TaskSpot(task) && PcOk(t, task, pc) &&
               (pc != Finished ==> task.id !in t)
    ensures Slice(TaskStep(t, task, pc).0, other) == Slice(t, other)
  {
    if pc.Write? { WrittenElsewhere(t, task, other); }
    if pc.DeleteExtras? { DeleteInSlice(t, pc.extras, other); }
  }

  lemma StepIds(t: Table, task: Task, pc: Pc)
    ensures var s := TaskStep(t, task, pc);
            task.Sync? ==> s.0.Keys <= t.Keys + (if pc.Write? then {task.id} else {}) && (pc.Write? ==> s.1.Finished?)
  {
  }

  lemma RunTaskElsewhere(t: Table, task: Task, other: Spot)
    requires task.Sync? && RowMatches(task) && other != TaskSpot(task) && task.id !in t
    ensures Slice(RunTask(t, task), other) == Slice(t, other)
  {
    var k := task.key;
    var u := Reattach(t, k, task.hint);
    assert u.Keys <= t.Keys && Slice(u, other) == Slice(t, other);
    WrittenElsewhere(u, task, other);
  }

  lemma RunTaskInSlice(t: Table, task: Task)
    requires task.Sync? && RowMatches(task)
    ensures Slice(RunTask(t, task), TaskSpot(task)) == RunTask(Slice(t, TaskSpot(task)), task)
  {
    RestInSlice(t, task, FindKeeper);
  }

  lemma RunTaskIds(t: Table, task: Task)
    ensures RunTask(t, task).Keys <= t.Keys + (if task.Sync? then {task.id} else {})
  {
  }

  // ── A batch under any schedule ───────────────────────────────────────────

  datatype Batch = Batch(table: Table, pcs: seq<Pc>)

  ghost function BatchStep(b: Batch, tasks: seq<Task>, i: nat): Batch {
    if i < |tasks| && i < |b.pcs| then
      var s := TaskStep(b.table, tasks[i], b.pcs[i]);
      Batch(s.0, b.pcs[i := s.1])
    else b
  }

  function Started(t: Table, tasks: seq<Task>): Batch {
    Batch(t, seq(|tasks|, i requires 0 <= i < |tasks| => Initial(tasks[i])))
  }

  // schedule lists, call by call, whose turn it is.
  ghost function RunSchedule(t: Table, tasks: seq<Task>, schedule: seq<nat>): (b: Batch)
    ensures |b.pcs| == |tasks|
  {
    if schedule == [] then Started(t, tasks)
    else BatchStep(RunSchedule(t, tasks, schedule[..|schedule| - 1]), tasks, schedule[|schedule| - 1])
  }

  ghost predicate AllFinished(b: Batch) {
    forall i :: 0 <= i < |b.pcs| ==> b.pcs[i] == Finished
  }

  predicate Apart(a: Task, b: Task) {
    a.Sync? && b.Sync? ==> a.id != b.id && TaskSpot(a) != TaskSpot(b)
  }

  ghost predicate FreshFor(t: Table, task: Task) {
    RowMatches(task) && (task.Sync? ==> task.id !in t)
  }

  // The tasks have different numbers and different new ids, none of them in use.
  ghost predicate Independent(t: Table, tasks: seq<Task>) {
    && (forall i :: 0 <= i < |tasks| ==> FreshFor(t, tasks[i]))
    && (forall i, j :: 0 <= i < j < |tasks| ==> Apart(tasks[i], tasks[j]))
  }

  ghost predicate Touched(tasks: seq<Task>, s: Spot) {
    exists i :: 0 <= i < |tasks| && tasks[i].Sync? && TaskSpot(tasks[i]) == s
  }

  ghost predicate TaskOk(t: Table, task: Task, pc: Pc) {
    task.Sync? ==> RowMatches(task) && PcOk(t, task, pc) && (pc != Finished ==> task.id !in t)
  }

  // Left alone from here, the task would make of its slice what it would have made of it at the start.
  ghost predicate OnTrack(start: Table, t: Table, task: Task, pc: Pc) {
    task.Sync? ==> Slice(Rest(t, task, pc), TaskSpot(task)) == Slice(RunTask(start, task), TaskSpot(task))
  }

  lemma OwnStep(start: Table, t: Table, task: Task, pc: Pc)
    requires TaskOk(t, task, pc) && OnTrack(start, t, task, pc)
    ensures var s := TaskStep(t, task, pc); TaskOk(s.0, task, s.1) && OnTrack(start, s.0, task, s.1)
  {
    StepKeepsPcOk(t, task, pc);
    StepKeepsRest(t, task, pc);
    StepIds(t, task, pc);
  }

  lemma OtherStep(start: Table, t: Table, mover: Task, moverPc: Pc, task: Task, pc: Pc)
    requires TaskOk(t, mover, moverPc) && TaskOk(t, task, pc) && OnTrack(start, t, task, pc) && Apart(mover, task)
    ensures var u := TaskStep(t, mover, moverPc).0; TaskOk(u, task, pc) && OnTrack(start, u, task, pc)
  {
    if mover.Sync? && task.Sync? {
      var u := TaskStep(t, mover, moverPc).0;
      StepElsewhere(t, mover, moverPc, TaskSpot(task));
      StepIds(t, mover, moverPc);
      RestInSlice(t, task, pc);
      assert PcOk(u, task, pc);
      RestInSlice(u, task, pc);
    }
  }

  ghost predicate BatchInv(start: Table, b: Batch, tasks: seq<Task>) {
    && |b.pcs| == |tasks|
    && (forall i :: 0 <= i < |tasks| ==>
          TaskOk(b.table, tasks[i], b.pcs[i]) && OnTrack(start, b.table, tasks[i], b.pcs[i]))
    && (forall s :: !Touched(tasks, s) ==> Slice(b.table, s) == Slice(start, s))
  }

  lemma BatchStarts(t: Table, tasks: seq<Task>)
    requires Independent(t, tasks)
    ensures BatchInv(t, Started(t, tasks), tasks)
  {
    forall i | 0 <= i < |tasks|
      ensures TaskOk(t, tasks[i], Initial(tasks[i])) && OnTrack(t, t, tasks[i], Initial(tasks[i]))
    {
      assert FreshFor(t, tasks[i]);
    }
  }

  lemma BatchStepKeeps(start: Table, b: Batch, tasks: seq<Task>, i: nat)
    requires Independent(start, tasks) && BatchInv(start, b, tasks) && i < |tasks|
    ensures BatchInv(start, BatchStep(b, tasks, i), tasks)
  {
    var c := BatchStep(b, tasks, i);
    forall j | 0 <= j < |tasks|
      ensures TaskOk(c.table, tasks[j], c.pcs[j]) && OnTrack(start, c.table, tasks[j], c.pcs[j])
    {
      if j == i {
        OwnStep(start, b.table, tasks[i], b.pcs[i]);
      } else {
        assert Apart(tasks[i], tasks[j]) by {
          assert if i < j then Apart(tasks[i], tasks[j]) else Apart(tasks[j], tasks[i]);
        }
        OtherStep(start, b.table, tasks[i], b.pcs[i], tasks[j], b.pcs[j]);
      }
    }
    forall s | !Touched(tasks, s) ensures Slice(c.table, s) == Slice(start, s) {
      if tasks[i].Sync? { StepElsewhere(b.table, tasks[i], b.pcs[i], s); }
    }
  }

  lemma {:induction false} ScheduleKeeps(t: Table, tasks: seq<Task>, schedule: seq<nat>)
    requires Independent(t, tasks)
    ensures BatchInv(t, RunSchedule(t, tasks, schedule), tasks)
  {
    if schedule == [] {
      BatchStarts(t, tasks);
    } else {
      var n := |schedule| - 1;
      ScheduleKeeps(t, tasks, schedule[..n]);
      if schedule[n] < |tasks| { BatchStepKeeps(t, RunSchedule(t, tasks, schedule[..n]), tasks, schedule[n]); }
    }
  }

  // ── One by one ───────────────────────────────────────────────────────────

  ghost predicate Alike(start: Table, t: Table, tasks: seq<Task>) {
    && (forall i :: 0 <= i < |tasks| && tasks[i].Sync? ==>
          Slice(t, TaskSpot(tasks[i])) == Slice(RunTask(start, tasks[i]), TaskSpot(tasks[i])))
    && (forall s :: !Touched(tasks, s) ==> Slice(t, s) == Slice(start, s))
  }

  function NewIds(tasks: seq<Task>): set<Id> {
    set task | task in tasks && task.Sync? :: task.id
  }

  lemma NewIdsSnoc(tasks: seq<Task>)
    requires tasks != []
    ensures NewIds(tasks) ==
              NewIds(tasks[..|tasks| - 1]) + if tasks[|tasks| - 1].Sync? then {tasks[|tasks| - 1].id} else {}
  {
    assert tasks == tasks[..|tasks| - 1] + [tasks[|tasks| - 1]];
  }

  lemma {:induction false} SequentialIds(t: Table, tasks: seq<Task>)
    ensures SyncAll(t, tasks).Keys <= t.Keys + NewIds(tasks)
  {
    if tasks != [] {
      var n := |tasks| - 1;
      SequentialIds(t, tasks[..n]);
      NewIdsSnoc(tasks);
      RunTaskIds(SyncAll(t, tasks[..n]), tasks[n]);
    }
  }

  lemma IndependentPrefix(t: Table, tasks: seq<Task>)
    requires Independent(t, tasks) && tasks != []
    ensures Independent(t, tasks[..|tasks| - 1])
  {
  }

  lemma TouchedSnoc(tasks: seq<Task>)
    requires tasks != []
    ensures forall s :: Touched(tasks, s) <==>
              Touched(tasks[..|tasks| - 1], s) || (tasks[|tasks| - 1].Sync? && TaskSpot(tasks[|tasks| - 1]) == s)
  {
    forall s | Touched(tasks[..|tasks| - 1], s) ensures Touched(tasks, s) {
      var i :| 0 <= i < |tasks| - 1 && tasks[..|tasks| - 1][i].Sync? && TaskSpot(tasks[..|tasks| - 1][i]) == s;
      assert tasks[i].Sync?;
    }
    forall s | Touched(tasks, s) && !(tasks[|tasks| - 1].Sync? && TaskSpot(tasks[|tasks| - 1]) == s)
      ensures Touched(tasks[..|tasks| - 1], s)
    {
      var i :| 0 <= i < |tasks| && tasks[i].Sync? && TaskSpot(tasks[i]) == s;
      assert tasks[..|tasks| - 1][i].Sync?;
    }
  }

  lemma SequentialSkip(t: Table, tasks: seq<Task>)
    requires tasks != [] && tasks[|tasks| - 1].Skip?
    requires Alike(t, SyncAll(t, tasks[..|tasks| - 1]), tasks[..|tasks| - 1])
    ensures Alike(t, SyncAll(t, tasks), tasks)
  {
    TouchedSnoc(tasks);
    forall i | 0 <= i < |tasks| && tasks[i].Sync?
      ensures Slice(SyncAll(t, tasks), TaskSpot(tasks[i])) == Slice(RunTask(t, tasks[i]), TaskSpot(tasks[i]))
    {
      assert tasks[..|tasks| - 1][i] == tasks[i];
    }
  }

  lemma LastIdFresh(t: Table, tasks: seq<Task>)
    requires Independent(t, tasks) && tasks != [] && tasks[|tasks| - 1].Sync?
    ensures tasks[|tasks| - 1].id !in t.Keys + NewIds(tasks[..|tasks| - 1])
  {
    assert FreshFor(t, tasks[|tasks| - 1]);
    forall task | task in tasks[..|tasks| - 1] && task.Sync? ensures task.id != tasks[|tasks| - 1].id {
      var i :| 0 <= i < |tasks| - 1 && tasks[i] == task;
      assert Apart(tasks[i], tasks[|tasks| - 1]);
    }
  }

  lemma SequentialStep(t: Table, tasks: seq<Task>)
    requires tasks != [] && tasks[|tasks| - 1].Sync? && Independent(t, tasks)
    requires Alike(t, SyncAll(t, tasks[..|tasks| - 1]), tasks[..|tasks| - 1])
    requires tasks[|tasks| - 1].id !in SyncAll(t, tasks[..|tasks| - 1])
    ensures Alike(t, SyncAll(t, tasks), tasks)
  {
    var n := |tasks| - 1;
    var init, last := tasks[..n], tasks[n];
    var u := SyncAll(t, init);
    var v := RunTask(u, last);
    assert FreshFor(t, last);
    TouchedSnoc(tasks);
    forall i | 0 <= i < |tasks| && tasks[i].Sync?
      ensures Slice(v, TaskSpot(tasks[i])) == Slice(RunTask(t, tasks[i]), TaskSpot(tasks[i]))
    {
      if i < n {
        assert init[i] == tasks[i] && Apart(tasks[i], last);
        RunTaskElsewhere(u, last, TaskSpot(tasks[i]));
      } else {
        assert !Touched(init, TaskSpot(last)) by {
          assert forall j :: 0 <= j < n ==> init[j] == tasks[j] && Apart(tasks[j], last);
        }
        RunTaskInSlice(u, last);
        RunTaskInSlice(t, last);
      }
    }
    forall s | !Touched(tasks, s) ensures Slice(v, s) == Slice(t, s) {
      RunTaskElsewhere(u, last, s);
    }
  }

  lemma {:induction false} SequentialSlices(t: Table, tasks: seq<Task>)
    requires Independent(t, tasks)
    ensures Alike(t, SyncAll(t, tasks), tasks)
  {
    if tasks != [] {
      var n := |tasks| - 1;
      IndependentPrefix(t, tasks);
      SequentialSlices(t, tasks[..n]);
      TouchedSnoc(tasks);
      if tasks[n].Sync? {
        SequentialIds(t, tasks[..n]);
        LastIdFresh(t, tasks);
        SequentialStep(t, tasks);
      } else {
        SequentialSkip(t, tasks);
      }
    }
  }

  lemma SliceWhenFinished(t: Table, b: Batch, tasks: seq<Task>, s: Spot)
    requires BatchInv(t, b, tasks) && AllFinished(b) && Alike(t, SyncAll(t, tasks), tasks)
    ensures Slice(b.table, s) == Slice(SyncAll(t, tasks), s)
  {
    if Touched(tasks, s) {
      var i :| 0 <= i < |tasks| && tasks[i].Sync? && TaskSpot(tasks[i]) == s;
      assert OnTrack(t, b.table, tasks[i], b.pcs[i]) && b.pcs[i] == Finished;
    }
  }

  // Chats with different normalised JIDs: every way of interleaving the database calls of their
  // tasks leaves the table that handling them one by one leaves.
  lemma OrderIndependent(t: Table, tasks: seq<Task>, schedule: seq<nat>)
    requires Independent(t, tasks) && AllFinished(RunSchedule(t, tasks, schedule))
    ensures RunSchedule(t, tasks, schedule).table == SyncAll(t, tasks)
  {
    var b, u := RunSchedule(t, tasks, schedule), SyncAll(t, tasks);
    ScheduleKeeps(t, tasks, schedule);
    SequentialSlices(t, tasks);
    forall s ensures Slice(b.table, s) == Slice(u, s) {
      SliceWhenFinished(t, b, tasks, s);
    }
    SlicesDetermine(b.table, u);
  }

  // ── Every task finishes ──────────────────────────────────────────────────

  function CallsLeft(pc: Pc): nat {
    match pc
    case FindKeeper => 5
    case FindOrphans => 4
    case DeleteExtras(_, _) => 3
    case Attach(_) => 2
    case DeleteOrphans => 2
    case Write => 1
    case Finished => 0
  }

  function Turns(schedule: seq<nat>, i: nat): nat {
    if schedule == [] then 0
    else Turns(schedule[..|schedule| - 1], i) + if schedule[|schedule| - 1] == i then 1 else 0
  }

  lemma {:induction false} TurnsCount(t: Table, tasks: seq<Task>, schedule: seq<nat>, i: nat)
    requires i < |tasks|
    ensures var pc := RunSchedule(t, tasks, schedule).pcs[i];
            (tasks[i].Skip? ==> pc == Finished) && (CallsLeft(pc) == 0 || CallsLeft(pc) + Turns(schedule, i) <= 5)
  {
    if schedule != [] { TurnsCount(t, tasks, schedule[..|schedule| - 1], i); }
  }

  // A schedule that gives every task five turns lets the whole batch finish.
  lemma BatchFinishes(t: Table, tasks: seq<Task>, schedule: seq<nat>)
    requires forall i :: 0 <= i < |tasks| ==> Turns(schedule, i) >= 5
    ensures AllFinished(RunSchedule(t, tasks, schedule))
  {
    forall i | 0 <= i < |tasks| ensures RunSchedule(t, tasks, schedule).pcs[i] == Finished {
      TurnsCount(t, tasks, schedule, i);
    }
  }

  /** Five turns for each of the first n tasks. */
  function FiveEach(n: nat): seq<nat> {
    if n == 0 then [] else FiveEach(n - 1) + [n - 1, n - 1, n - 1, n - 1, n - 1]
  }

  lemma {:induction false} TurnsAppend(a: seq<nat>, b: seq<nat>, i: nat)
    ensures Turns(a + b, i) == Turns(a, i) + Turns(b, i)
  {
    if b == [] {
      assert a + b == a;
    } else {
      TurnsAppend(a, b[..|b| - 1], i);
      assert (a + b)[..|a + b| - 1] == a + b[..|b| - 1];
    }
  }

  lemma FiveTurns(i: nat)
    ensures Turns([i, i, i, i, i], i) == 5
  {
    TurnsAppend([i], [i], i);
    TurnsAppend([i, i], [i, i], i);
    TurnsAppend([i, i, i, i], [i], i);
    assert [i] + [i] == [i, i] && [i, i] + [i, i] == [i, i, i, i] && [i, i, i, i] + [i] == [i, i, i, i, i];
  }

  lemma {:induction false} FiveEachTurns(n: nat, i: nat)
    requires i < n
    ensures Turns(FiveEach(n), i) >= 5
  {
    TurnsAppend(FiveEach(n - 1), [n - 1, n - 1, n - 1, n - 1, n - 1], i);
    if i == n - 1 { FiveTurns(i); } else { FiveEachTurns(n - 1, i); }
  }

  // Every schedule can be continued until the batch is finished.
  lemma Continues(t: Table, tasks: seq<Task>, schedule: seq<nat>)
    ensures AllFinished(RunSchedule(t, tasks, schedule + FiveEach(|tasks|)))
  {
    forall i | 0 <= i < |tasks| ensures Turns(schedule + FiveEach(|tasks|), i) >= 5 {
      TurnsAppend(schedule, FiveEach(|tasks|), i);
      FiveEachTurns(|tasks|, i);
    }
    BatchFinishes(t, tasks, schedule + FiveEach(|tasks|));
  }

  // ── What one chat may create ─────────────────────────────────────────────

  lemma KeyedAfterUpdate(t: Table, k: Key, p: Patch)
    requires UniqueKeys(t)
    ensures Keyed(UpdateKeyed(t, k, p), k) <==> Keyed(t, k)
    ensures Keyed(t, k) ==> RowOf(UpdateKeyed(t, k, p), k) == RowOf(t, k)
  {
    var u := UpdateKeyed(t, k, p);
    if Keyed(t, k) {
      UpdateKeepsKeys(t, k, p);
      assert HasKey(u[RowOf(t, k)], k);
      RowIs(u, k, RowOf(t, k));
    }
    if Keyed(u, k) { assert HasKey(t[RowOf(u, k)], k); }
  }

  lemma NoOrphansWritten(t: Table, task: Task)
    requires task.Sync? && RowMatches(task) && Orphans(t, task.key.tenant, task.key.phone) == map[]
    ensures Orphans(Written(t, task), task.key.tenant, task.key.phone) == map[]
  {
    assert forall c :: c in t && IsOrphan(t[c], task.key.tenant, task.key.phone) ==>
      c in Orphans(t, task.key.tenant, task.key.phone);
  }

  // A chat with nothing in it never makes a row; any other chat, a row it finds, or an orphan it
  // re-attaches, leaves its key with one row, and no orphan of the number remains.
  lemma RunTaskTheorem(t: Table, task: Task)
    requires task.Sync? && UniqueKeys(t) && FreshFor(t, task)
    ensures var u := RunTask(t, task); var k := task.key;
            && UniqueKeys(u)
            && (Keyed(u, k) <==> Keyed(t, k) || Orphans(t, k.tenant, k.phone) != map[] || task.hasContent)
            && Orphans(u, k.tenant, k.phone) == map[]
            && (Keyed(t, k) ==> Keyed(u, k) && RowOf(u, k) == RowOf(t, k))
  {
    var k := task.key;
    var v := Reattach(t, k, task.hint);
    ReattachTheorem(t, k, task.hint);
    if Keyed(t, k) { RowIs(v, k, RowOf(t, k)); }
    if task.hasContent {
      UpsertTheorem(v, k, task.id, task.row, task.patch);
    } else {
      UpdateKeepsKeys(v, k, task.patch);
      KeyedAfterUpdate(v, k, task.patch);
    }
    NoOrphansWritten(v, task);
  }

  // What one chat makes of the row it writes to.
  lemma WrittenRow(t: Table, task: Task)
    requires UniqueKeys(t) && task.Sync? && FreshFor(t, task) && Keyed(RunTask(t, task), task.key)
    ensures var before := Found(t, task.key, task.hint); var u := RunTask(t, task);
            u[RowOf(u, task.key)] ==
              if before.Some? then Patched(before.value.(session := Some(task.key.session)), task.patch) else task.row
  {
    var k := task.key;
    var v := Reattach(t, k, task.hint);
    ReattachFinds(t, k, task.hint);
    assert task.id !in v by { ReattachTheorem(t, k, task.hint); }
    if task.hasContent {
      UpsertTheorem(v, k, task.id, task.row, task.patch);
    } else {
      KeyedAfterUpdate(v, k, task.patch);
    }
  }

  // The row a chat leaves shows the chat: its unread count, the first 500 characters of its text, its
  // time, and its name if it has one. The row it found keeps everything else.
  ghost predicate ShowsChat(row: Conversation, c: Chat, now: int, before: Option<Conversation>) {
    && row.unread == (if c.unreadCount.Some? && c.unreadCount.value > 0 then c.unreadCount.value else 0)
    && IsClipped(row.lastMessageText, if c.lastMessageText.Some? then c.lastMessageText.value else "")
    && row.lastMessageAt == (if c.lastMessageAt.Some? then c.lastMessageAt.value else now)
    && (if c.contactName.Some? && !Blank(c.contactName.value)
        then row.contactName.Some? && IsTrimmed(row.contactName.value, c.contactName.value)
        else row.contactName == if before.Some? then before.value.contactName else None)
    && row.contactId == (if before.Some? then before.value.contactId else None)
    && row.createdAt == (if before.Some? then before.value.createdAt else now)
    && row.open == (before.None? || before.value.open)
  }

  lemma SyncedRow(t: Table, tenant: Id, session: Id, c: Chat, d: Draw)
    requires UniqueKeys(t) && d.id !in t && TaskOf(tenant, session, c, d).Sync?
    requires Keyed(RunTask(t, TaskOf(tenant, session, c, d)), Key(tenant, session, NormaliseJid(c.jid)))
    ensures var k := Key(tenant, session, NormaliseJid(c.jid)); var u := RunTask(t, TaskOf(tenant, session, c, d));
            ShowsChat(u[RowOf(u, k)], c, d.now, Found(t, k, d.hint))
  {
    WrittenRow(t, TaskOf(tenant, session, c, d));
    if c.contactName.Some? { TrimmedMeans(c.contactName.value); }
  }

  lemma StepRowHasContent(t: Table, task: Task, pc: Pc, c: Id)
    requires c in TaskStep(t, task, pc).0 && c !in t
    ensures task.Sync? && task.id == c && task.hasContent
  {
  }

  // Under any schedule, finished or not, a row that was not there before belongs to a chat with
  // text, unread messages or a name.
  lemma {:induction false} NewRowsHaveContent(t: Table, tasks: seq<Task>, schedule: seq<nat>, c: Id)
    returns (task: Task)
    requires c in RunSchedule(t, tasks, schedule).table && c !in t
    ensures task in tasks && task.Sync? && task.id == c && task.hasContent
  {
    var n := |schedule| - 1;
    var b := RunSchedule(t, tasks, schedule[..n]);
    if c in b.table {
      task := NewRowsHaveContent(t, tasks, schedule[..n], c);
    } else {
      task := tasks[schedule[n]];
      StepRowHasContent(b.table, task, b.pcs[schedule[n]], c);
    }
  }

  // ── Batches ──────────────────────────────────────────────────────────────

  function Batches(tasks: seq<Task>): seq<seq<Task>> {
    if tasks == [] then []
    else if |tasks| <= BATCH_SIZE then [tasks]
    else [tasks[..BATCH_SIZE]] + Batches(tasks[BATCH_SIZE..])
  }

  function Flatten(batches: seq<seq<Task>>): seq<Task> {
    if batches == [] then [] else batches[0] + Flatten(batches[1..])
  }

  // The slices cover every chat once, in order, and every slice but the last is full.
  lemma {:induction false} BatchesCover(tasks: seq<Task>)
    ensures Flatten(Batches(tasks)) == tasks
    ensures forall i :: 0 <= i < |Batches(tasks)| ==> 0 < |Batches(tasks)[i]| <= 20
    ensures forall i :: 0 <= i < |Batches(tasks)| - 1 ==> |Batches(tasks)[i]| == 20
  {
    if |tasks| > BATCH_SIZE {
      var rest := Batches(tasks[BATCH_SIZE..]);
      BatchesCover(tasks[BATCH_SIZE..]);
      assert Batches(tasks)[1..] == rest;
      assert tasks[..BATCH_SIZE] + tasks[BATCH_SIZE..] == tasks;
      assert forall i :: 1 <= i < |Batches(tasks)| ==> Batches(tasks)[i] == rest[i - 1];
    } else if tasks != [] {
      assert Batches(tasks)[1..] == [];
    }
  }

  // Each batch runs under its own schedule, and the next starts when all its tasks have finished.
  ghost function RunBatches(t: Table, batches: seq<seq<Task>>, schedules: seq<seq<nat>>): Table
    requires |schedules| == |batches|
    decreases |batches|
  {
    if batches == [] then t
    else RunBatches(RunSchedule(t, batches[0], schedules[0]).table, batches[1..], schedules[1..])
  }

  lemma {:induction false} SyncedRowsHaveContent(t: Table, batches: seq<seq<Task>>, schedules: seq<seq<nat>>, c: Id)
    returns (task: Task)
    requires |schedules| == |batches| && c in RunBatches(t, batches, schedules) && c !in t
    ensures task in Flatten(batches) && task.Sync? && task.id == c && task.hasContent
    decreases |batches|
  {
    var u := RunSchedule(t, batches[0], schedules[0]).table;
    if c in u {
      task := NewRowsHaveContent(t, batches[0], schedules[0], c);
    } else {
      task := SyncedRowsHaveContent(u, batches[1..], schedules[1..], c);
    }
  }

  ghost predicate Completes(t: Table, batches: seq<seq<Task>>, schedules: seq<seq<nat>>)
    requires |schedules| == |batches|
    decreases |batches|
  {
    batches == [] ||
    (AllFinished(RunSchedule(t, batches[0], schedules[0])) &&
     Completes(RunSchedule(t, batches[0], schedules[0]).table, batches[1..], schedules[1..]))
  }

  ghost predicate DistinctSpots(tasks: seq<Task>) {
    forall i, j :: 0 <= i < j < |tasks| && tasks[i].Sync? && tasks[j].Sync? ==> TaskSpot(tasks[i]) != TaskSpot(tasks[j])
  }

  // Only chats of one batch need different numbers; every task needs its own new id.
  ghost predicate ApartWithinBatches(batches: seq<seq<Task>>) {
    forall b :: b in batches ==> DistinctSpots(b)
  }

  ghost predicate DistinctIds(tasks: seq<Task>) {
    forall i, j :: 0 <= i < j < |tasks| && tasks[i].Sync? && tasks[j].Sync? ==> tasks[i].id != tasks[j].id
  }

  ghost predicate AllFresh(t: Table, tasks: seq<Task>) {
    forall task :: task in tasks ==> FreshFor(t, task)
  }

  lemma {:induction false} SyncAllAppend(t: Table, a: seq<Task>, b: seq<Task>)
    ensures SyncAll(SyncAll(t, a), b) == SyncAll(t, a + b)
  {
    if b == [] {
      assert a + b == a;
    } else {
      SyncAllAppend(t, a, b[..|b| - 1]);
      assert (a + b)[..|a + b| - 1] == a + b[..|b| - 1];
    }
  }

  lemma IdsApart(a: seq<Task>, b: seq<Task>)
    requires DistinctIds(a + b)
    ensures DistinctIds(a) && DistinctIds(b)
    ensures forall x, y :: x in a && y in b && x.Sync? && y.Sync? ==> x.id != y.id
  {
    var tasks := a + b;
    assert forall i :: 0 <= i < |a| ==> tasks[i] == a[i];
    assert forall i :: 0 <= i < |b| ==> tasks[|a| + i] == b[i];
    forall x, y | x in a && y in b && x.Sync? && y.Sync? ensures x.id != y.id {
      var i :| 0 <= i < |a| && a[i] == x;
      var j :| 0 <= j < |b| && b[j] == y;
      assert tasks[i].id != tasks[|a| + j].id;
    }
    forall i, j | 0 <= i < j < |b| && b[i].Sync? && b[j].Sync? ensures b[i].id != b[j].id {
      assert tasks[|a| + i].id != tasks[|a| + j].id;
    }
  }

  lemma FreshAfter(t: Table, a: seq<Task>, b: seq<Task>)
    requires AllFresh(t, a + b) && DistinctIds(a + b)
    ensures AllFresh(SyncAll(t, a), b) && DistinctIds(b)
  {
    SequentialIds(t, a);
    IdsApart(a, b);
    forall task | task in b ensures FreshFor(SyncAll(t, a), task) { assert task in a + b && FreshFor(t, task); }
  }

  lemma HeadIndependent(t: Table, a: seq<Task>, b: seq<Task>)
    requires AllFresh(t, a + b) && DistinctIds(a + b) && DistinctSpots(a)
    ensures Independent(t, a)
  {
    forall i | 0 <= i < |a| ensures FreshFor(t, a[i]) { assert a[i] in a + b; }
    forall i, j | 0 <= i < j < |a| ensures Apart(a[i], a[j]) {
      assert (a + b)[i] == a[i] && (a + b)[j] == a[j];
    }
  }

  // The whole sync, batch after batch under any schedules, is the one-by-one sync of all chats.
  lemma {:induction false} BatchesRefineSequential(t: Table, batches: seq<seq<Task>>, schedules: seq<seq<nat>>)
    requires |schedules| == |batches| && Completes(t, batches, schedules)
    requires ApartWithinBatches(batches) && AllFresh(t, Flatten(batches)) && DistinctIds(Flatten(batches))
    ensures RunBatches(t, batches, schedules) == SyncAll(t, Flatten(batches))
    decreases |batches|
  {
    if batches != [] {
      var head, rest := batches[0], Flatten(batches[1..]);
      HeadIndependent(t, head, rest);
      OrderIndependent(t, head, schedules[0]);
      FreshAfter(t, head, rest);
      BatchesRefineSequential(SyncAll(t, head), batches[1..], schedules[1..]);
      SyncAllAppend(t, head, rest);
    }
  }

  lemma SyncRefinesSequential(t: Table, tasks: seq<Task>, schedules: seq<seq<nat>>)
    requires |schedules| == |Batches(tasks)| && Completes(t, Batches(tasks), schedules)
    requires ApartWithinBatches(Batches(tasks)) && AllFresh(t, tasks) && DistinctIds(tasks)
    ensures RunBatches(t, Batches(tasks), schedules) == SyncAll(t, tasks)
  {
    BatchesCover(tasks);
    BatchesRefineSequential(t, Batches(tasks), schedules);
  }
}
