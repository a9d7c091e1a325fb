// The unread counters of the inbox: when they equal the number of stored
// inbound messages that have not been read.

module InboxUnread {
  import opened Common
  import opened Conversations
  import opened ChatSync
  import opened ChatSyncKeys
  import opened Inbox

  ghost function UnreadOf(messages: map<Id, Message>, c: Id): set<Id> {
    set m | m in messages && messages[m].conversation == Some(c) && messages[m].inbound && messages[m].status != Read
  }

  ghost predicate Counted(t: Table, messages: map<Id, Message>) {
    forall c :: c in t ==> t[c].unread == |UnreadOf(messages, c)|
  }

  // The unread counter of the row a chat of this key will write to: its own, the oldest orphan's, or none yet.
  ghost function KnownUnread(t: Table, k: Key, hint: Id): nat {
    var orphans := Orphans(t, k.tenant, k.phone);
    if Keyed(t, k) then t[RowOf(t, k)].unread
    else if orphans != map[] then t[OldestOf(orphans, hint)].unread
    else 0
  }

  // The first and the last chat of a number in the whole list.
  ghost predicate IsFirst(tasks: seq<Task>, i: nat) {
    i < |tasks| && tasks[i].Sync? && forall n :: 0 <= n < i ==> !TaskFor(tasks[n], tasks[i].key)
  }

  ghost predicate IsLast(tasks: seq<Task>, j: nat) {
    j < |tasks| && tasks[j].Sync? && forall n :: j < n < |tasks| ==> !TaskFor(tasks[n], tasks[j].key)
  }

  // For every number of the sync, its last chat reports the number of unread messages the table
  // already has for it: the counter of the row its first chat finds.
  ghost predicate SyncAgrees(s: State, ev: Event)
    requires ev.ChatsSynced?
  {
    ev.session in s.sessions && WellFormed(s, ev) ==>
      var tasks := SyncTasks(s, ev.session, ev.chats, ev.clocks, ev.hints);
      forall i: nat, j: nat :: IsFirst(tasks, i) && IsLast(tasks, j) && tasks[i].key == tasks[j].key ==>
        Unread(ev.chats[j]) == KnownUnread(s.table, tasks[i].key, tasks[i].hint)
  }

  ghost predicate ChangesRead(messages: map<Id, Message>, externalId: string, status: Status) {
    exists m :: m in messages && messages[m].externalId == Some(externalId) && messages[m].inbound
                && messages[m].conversation.Some? && (messages[m].status == Read) != (status == Read)
  }

  // Steps that keep the counters: all but a sync that overwrites one with another number, and an
  // acknowledgement that changes whether an attached inbound message has been read.
  ghost predicate KeepsCounters(s: State, ev: Event) {
    && (ev.ChatsSynced? ==> Orderly(s, ev) && SyncAgrees(s, ev))
    && (ev.Ack? && ev.externalId != "" ==> !ChangesRead(s.messages, ev.externalId, ev.status))
  }

  ghost predicate NoneIn(messages: map<Id, Message>, c: Id) {
    forall m :: m in messages ==> messages[m].conversation != Some(c)
  }

  lemma UnreadAfterDetach(messages: map<Id, Message>, rows: set<Id>, c: Id)
    requires c in rows || NoneIn(messages, c)
    ensures UnreadOf(Detach(messages, rows), c) == UnreadOf(messages, c)
  {
  }

  lemma UnreadAfterAdd(messages: map<Id, Message>, m: Id, message: Message, c: Id)
    requires m !in messages && message.status != Read
    ensures |UnreadOf(messages[m := message], c)| ==
              |UnreadOf(messages, c)| + if message.inbound && message.conversation == Some(c) then 1 else 0
  {
    if message.inbound && message.conversation == Some(c) {
      assert UnreadOf(messages[m := message], c) == UnreadOf(messages, c) + {m};
    } else {
      assert UnreadOf(messages[m := message], c) == UnreadOf(messages, c);
    }
  }

  lemma UnreadAfterUpsert(t: Table, k: Key, id: Id, row: Conversation, p: Patch, inbound: bool, c: Id)
    requires UniqueKeys(t) && id !in t && HasKey(row, k) && c in Upsert(t, k, id, row, p)
    requires p.unread == (if inbound then Increment else Keep) && row.unread == (if inbound then 1 else 0)
    ensures Keyed(Upsert(t, k, id, row, p), k)
    ensures Upsert(t, k, id, row, p)[c].unread ==
              (if c in t then t[c].unread else 0) + if inbound && c == RowOf(Upsert(t, k, id, row, p), k) then 1 else 0
    ensures c !in t ==> c == id
  {
    var u := Upsert(t, k, id, row, p);
    UpsertTheorem(t, k, id, row, p);
    if HasKey(u[c], k) { RowIs(u, k, c); }
  }

  lemma LandOnCounts(s: State, t: Table, l: Landing)
    requires TableOk(s.table, s.nextRow, s.nextSession) && MessagesOk(s.messages, s.table, s.nextMessage)
    requires Counted(s.table, s.messages) && Prepared(s, t, l) && l.status != Read
    requires l.patch.unread == (if l.inbound then Increment else Keep) && l.row.unread == (if l.inbound then 1 else 0)
    ensures Counted(LandOn(s, t, l).table, LandOn(s, t, l).messages)
  {
    UpsertTheorem(t, l.key, s.nextRow, l.row, l.patch);
    var u := Upsert(t, l.key, s.nextRow, l.row, l.patch);
    var message := Message(l.key.tenant, Some(RowOf(u, l.key)), l.inbound, l.status, l.externalId);
    assert s.nextMessage !in s.messages && s.nextRow !in t;
    assert NoneIn(s.messages, s.nextRow);
    forall c | c in u ensures u[c].unread == |UnreadOf(Detach(s.messages, t.Keys)[s.nextMessage := message], c)| {
      UnreadAfterUpsert(t, l.key, s.nextRow, l.row, l.patch, l.inbound, c);
      UnreadAfterDetach(s.messages, t.Keys, c);
      UnreadAfterAdd(Detach(s.messages, t.Keys), s.nextMessage, message, c);
      if c !in t { assert UnreadOf(s.messages, c) == {}; }
    }
  }

  lemma LandCounts(s: State, ev: Event)
    requires Inv(s) && Counted(s.table, s.messages) && Lands(s, ev)
    ensures Counted(Step(s, ev).table, Step(s, ev).messages)
  {
    LandsPrepared(s, ev);
    LandOnCounts(s, ReattachedFor(s, ev), LandingOf(s, ev));
  }

  lemma SameUnread(t: Table, u: Table, before: map<Id, Message>, after: map<Id, Message>)
    requires Counted(t, before) && u.Keys == t.Keys
    requires forall c :: c in t ==> u[c].unread == t[c].unread && UnreadOf(after, c) == UnreadOf(before, c)
    ensures Counted(u, after)
  {
  }

  lemma ReadAllCounts(s: State, tenant: Id, c: Id)
    requires Inv(s) && Counted(s.table, s.messages)
    ensures var r := Step(s, MarkAsRead(tenant, c)); Counted(r.table, r.messages)
  {
    if c in s.table && s.table[c].tenant == tenant {
      var after := ReadAll(s.messages, tenant, c);
      assert UnreadOf(after, c) == {};
      forall d | d in s.table && d != c ensures UnreadOf(after, d) == UnreadOf(s.messages, d) {}
    }
  }

  lemma UnreadUnlessAcked(messages: map<Id, Message>, externalId: string, status: Status, c: Id)
    requires !ChangesRead(messages, externalId, status)
    ensures UnreadOf(Acked(messages, externalId, status), c) == UnreadOf(messages, c)
  {
    var after := Acked(messages, externalId, status);
    forall m | m in messages && messages[m].inbound && messages[m].conversation.Some?
      ensures (after[m].status == Read) == (messages[m].status == Read)
    {
    }
  }

  lemma AckCounts(t: Table, messages: map<Id, Message>, externalId: string, status: Status)
    requires Counted(t, messages) && !ChangesRead(messages, externalId, status)
    ensures Counted(t, Acked(messages, externalId, status))
  {
    forall c ensures UnreadOf(Acked(messages, externalId, status), c) == UnreadOf(messages, c) {
      UnreadUnlessAcked(messages, externalId, status, c);
    }
  }

  ghost predicate WritesUnread(task: Task) {
    task.Sync? ==> task.patch.unread == SetTo(task.row.unread) && (!task.hasContent ==> task.row.unread == 0)
  }

  // What one chat does to the counters: its row gets the chat's number, every other row keeps its own.
  lemma TaskUnread(t: Table, task: Task, c: Id)
    requires UniqueKeys(t) && task.Sync? && FreshFor(t, task) && WritesUnread(task) && c in RunTask(t, task)
    ensures var u := RunTask(t, task); var known := if c in t then t[c].unread else 0;
            if HasKey(u[c], task.key)
            then u[c].unread == task.row.unread && known == KnownUnread(t, task.key, task.hint)
            else c in t && u[c].unread == known
  {
    var k := task.key;
    var v := Reattach(t, k, task.hint);
    ReattachTheorem(t, k, task.hint);
    if c in v && HasKey(v[c], k) {
      RowIs(v, k, c);
      if HasKey(t[c], k) { RowIs(t, k, c); }
    }
  }

  // ── Chats handled one after another, numbers repeated or not ─────────────

  // What a task of another number leaves of the key's rows.
  lemma OtherTask(t: Table, task: Task, k: Key)
    requires FreshFor(t, task) && !TaskFor(task, k) && (task.Sync? ==> task.key.session == k.session)
    ensures Slice(RunTask(t, task), Spot(k.tenant, k.phone)) == Slice(t, Spot(k.tenant, k.phone))
  {
    if task.Sync? { RunTaskElsewhere(t, task, Spot(k.tenant, k.phone)); }
  }

  lemma SameSlice(t: Table, u: Table, k: Key, hint: Id)
    requires UniqueKeys(t) && UniqueKeys(u) && Slice(t, Spot(k.tenant, k.phone)) == Slice(u, Spot(k.tenant, k.phone))
    ensures Keyed(t, k) <==> Keyed(u, k)
    ensures Orphans(t, k.tenant, k.phone) == Orphans(u, k.tenant, k.phone)
    ensures KnownUnread(t, k, hint) == KnownUnread(u, k, hint)
  {
    KeyedInSlice(t, k);
    KeyedInSlice(u, k);
    if Keyed(t, k) {
      var c := RowOf(t, k);
      assert c in Slice(t, Spot(k.tenant, k.phone)) && c in Slice(u, Spot(k.tenant, k.phone));
      RowIs(u, k, c);
    } else if Orphans(t, k.tenant, k.phone) != map[] {
      var c := OldestOf(Orphans(t, k.tenant, k.phone), hint);
      assert c in Orphans(t, k.tenant, k.phone) && c in Orphans(u, k.tenant, k.phone);
    }
  }

  ghost predicate Sequence(t: Table, tasks: seq<Task>, session: Id) {
    UniqueKeys(t) && ReadyTasks(t, tasks, session) && forall i :: 0 <= i < |tasks| ==> WritesUnread(tasks[i])
  }

  lemma {:induction false} SequenceKeys(t: Table, tasks: seq<Task>, session: Id)
    requires Sequence(t, tasks, session)
    ensures UniqueKeys(SyncAll(t, tasks))
    ensures tasks != [] ==>
              Sequence(t, tasks[..|tasks| - 1], session) && UniqueKeys(SyncAll(t, tasks[..|tasks| - 1])) &&
                FreshFor(SyncAll(t, tasks[..|tasks| - 1]), tasks[|tasks| - 1])
  {
    if tasks != [] {
      var init, last := tasks[..|tasks| - 1], tasks[|tasks| - 1];
      assert tasks == init + [last];
      IdsApart(init, [last]);
      FreshAfter(t, init, [last]);
      assert last in [last];
      SequenceKeys(t, init, session);
      if last.Sync? { RunTaskTheorem(SyncAll(t, init), last); }
    }
  }

  ghost predicate Mentions(tasks: seq<Task>, k: Key) {
    exists i :: 0 <= i < |tasks| && TaskFor(tasks[i], k)
  }

  lemma MentionsSnoc(tasks: seq<Task>, k: Key)
    requires tasks != []
    ensures Mentions(tasks, k) <==> Mentions(tasks[..|tasks| - 1], k) || TaskFor(tasks[|tasks| - 1], k)
  {
    if Mentions(tasks, k) && !TaskFor(tasks[|tasks| - 1], k) {
      var i :| 0 <= i < |tasks| && TaskFor(tasks[i], k);
      assert TaskFor(tasks[..|tasks| - 1][i], k);
    }
  }

  // Chats of other numbers leave the key's rows as they were.
  lemma {:induction false} NotMentioned(t: Table, tasks: seq<Task>, k: Key)
    requires Sequence(t, tasks, k.session) && !Mentions(tasks, k)
    ensures Slice(SyncAll(t, tasks), Spot(k.tenant, k.phone)) == Slice(t, Spot(k.tenant, k.phone))
  {
    if tasks != [] {
      SequenceKeys(t, tasks, k.session);
      MentionsSnoc(tasks, k);
      NotMentioned(t, tasks[..|tasks| - 1], k);
      assert tasks[|tasks| - 1] in tasks;
      OtherTask(SyncAll(t, tasks[..|tasks| - 1]), tasks[|tasks| - 1], k);
    }
  }

  // Any chat of the number leaves no orphan of it.
  lemma {:induction false} NoOrphansLeft(t: Table, tasks: seq<Task>, k: Key)
    requires Sequence(t, tasks, k.session) && Mentions(tasks, k)
    ensures Orphans(SyncAll(t, tasks), k.tenant, k.phone) == map[]
  {
    var init, last := tasks[..|tasks| - 1], tasks[|tasks| - 1];
    SequenceKeys(t, tasks, k.session);
    MentionsSnoc(tasks, k);
    if TaskFor(last, k) {
      RunTaskTheorem(SyncAll(t, init), last);
    } else {
      NoOrphansLeft(t, init, k);
      assert last in tasks;
      OtherTask(SyncAll(t, init), last, k);
      SameSlice(SyncAll(t, init), SyncAll(t, tasks), k, 0);
    }
  }

  ghost predicate MentionsContent(tasks: seq<Task>, k: Key) {
    exists i :: 0 <= i < |tasks| && TaskFor(tasks[i], k) && tasks[i].hasContent
  }

  lemma MentionsContentSnoc(tasks: seq<Task>, k: Key)
    requires tasks != []
    ensures var last := tasks[|tasks| - 1];
            MentionsContent(tasks, k) <==>
              MentionsContent(tasks[..|tasks| - 1], k) || (TaskFor(last, k) && last.hasContent)
  {
    var n := |tasks| - 1;
    if i :| 0 <= i < |tasks| && TaskFor(tasks[i], k) && tasks[i].hasContent {
      if i < n { assert TaskFor(tasks[..n][i], k); }
    }
    if i :| 0 <= i < n && TaskFor(tasks[..n][i], k) && tasks[..n][i].hasContent { assert TaskFor(tasks[i], k); }
  }

  // A number of the sync has a row afterwards if and only if it had one, or an orphan, or one of its
  // chats has anything in it.
  lemma {:induction false} SyncedIff(t: Table, tasks: seq<Task>, k: Key)
    requires Sequence(t, tasks, k.session) && Mentions(tasks, k)
    ensures Keyed(SyncAll(t, tasks), k) <==>
              Keyed(t, k) || Orphans(t, k.tenant, k.phone) != map[] || MentionsContent(tasks, k)
  {
    var init, last := tasks[..|tasks| - 1], tasks[|tasks| - 1];
    SequenceKeys(t, tasks, k.session);
    MentionsSnoc(tasks, k);
    MentionsContentSnoc(tasks, k);
    assert last in tasks;
    if TaskFor(last, k) {
      RunTaskTheorem(SyncAll(t, init), last);
    } else {
      OtherTask(SyncAll(t, init), last, k);
      SameSlice(SyncAll(t, init), SyncAll(t, tasks), k, 0);
    }
    if Mentions(init, k) {
      SyncedIff(t, init, k);
      NoOrphansLeft(t, init, k);
    } else {
      NotMentioned(t, init, k);
      SameSlice(SyncAll(t, init), t, k, 0);
    }
  }

  lemma RunTaskKeepsSpot(t: Table, task: Task, c: Id)
    requires task.Sync? && FreshFor(t, task) && c in t && c in RunTask(t, task)
    ensures SpotOf(RunTask(t, task)[c]) == SpotOf(t[c])
  {
  }

  lemma RunTaskKeepsRow(t: Table, task: Task, c: Id)
    requires UniqueKeys(t) && task.Sync? && FreshFor(t, task)
    requires c in t && !IsOrphan(t[c], task.key.tenant, task.key.phone)
    ensures var u := RunTask(t, task); c in u && u[c].session == t[c].session && SpotOf(u[c]) == SpotOf(t[c])
  {
    ReattachTheorem(t, task.key, task.hint);
  }

  lemma {:induction false} SequenceKeepsSpot(t: Table, tasks: seq<Task>, session: Id, c: Id)
    requires Sequence(t, tasks, session) && c in t && c in SyncAll(t, tasks)
    ensures SpotOf(SyncAll(t, tasks)[c]) == SpotOf(t[c])
  {
    if tasks != [] {
      var init, last := tasks[..|tasks| - 1], tasks[|tasks| - 1];
      SequenceKeys(t, tasks, session);
      assert last in tasks && FreshFor(t, last);
      RunTaskIds(SyncAll(t, init), last);
      SequenceKeepsSpot(t, init, session, c);
      if last.Sync? { RunTaskKeepsSpot(SyncAll(t, init), last, c); }
    }
  }

  ghost function CounterAt(t: Table, c: Id): nat {
    if c in t then t[c].unread else 0
  }

  // The row of the key has the number its last chat reports.
  lemma {:induction false} LastWrites(t: Table, tasks: seq<Task>, k: Key, j: nat, c: Id)
    requires Sequence(t, tasks, k.session) && IsLast(tasks, j) && tasks[j].key == k
    requires c in SyncAll(t, tasks) && HasKey(SyncAll(t, tasks)[c], k)
    ensures SyncAll(t, tasks)[c].unread == tasks[j].row.unread
  {
    var init, last := tasks[..|tasks| - 1], tasks[|tasks| - 1];
    SequenceKeys(t, tasks, k.session);
    if j == |tasks| - 1 {
      TaskUnread(SyncAll(t, init), last, c);
    } else {
      assert last in tasks;
      OtherTask(SyncAll(t, init), last, k);
      assert c in Slice(SyncAll(t, tasks), Spot(k.tenant, k.phone));
      assert c in Slice(SyncAll(t, init), Spot(k.tenant, k.phone));
      assert init[j] == tasks[j] && IsLast(init, j);
      LastWrites(t, init, k, j, c);
    }
  }

  // The first chat of a number finds the counter the table started with.
  lemma FirstFindsStart(t: Table, tasks: seq<Task>, k: Key, c: Id)
    requires tasks != [] && Sequence(t, tasks, k.session) && TaskFor(tasks[|tasks| - 1], k)
    requires !Mentions(tasks[..|tasks| - 1], k)
    requires c in SyncAll(t, tasks) && HasKey(SyncAll(t, tasks)[c], k)
    ensures CounterAt(t, c) == KnownUnread(t, k, tasks[|tasks| - 1].hint)
  {
    var init, last, s := tasks[..|tasks| - 1], tasks[|tasks| - 1], Spot(k.tenant, k.phone);
    var u := SyncAll(t, init);
    SequenceKeys(t, tasks, k.session);
    NotMentioned(t, init, k);
    SameSlice(u, t, k, last.hint);
    TaskUnread(u, last, c);
    if c in u {
      RunTaskKeepsSpot(u, last, c);
      assert c in Slice(u, s);
    }
    if c in t {
      SequenceKeepsSpot(t, tasks, k.session, c);
      assert c in Slice(t, s);
    }
  }

  // A later chat of the number either finds the key's row or makes it where there was nothing.
  lemma LaterChatFinds(t: Table, tasks: seq<Task>, k: Key, c: Id)
    requires tasks != [] && Sequence(t, tasks, k.session) && Mentions(tasks[..|tasks| - 1], k)
    requires c in SyncAll(t, tasks) && HasKey(SyncAll(t, tasks)[c], k)
    ensures var u := SyncAll(t, tasks[..|tasks| - 1]);
            (c in u && HasKey(u[c], k)) ||
              (c !in t && !Keyed(t, k) && Orphans(t, k.tenant, k.phone) == map[])
  {
    var init, last := tasks[..|tasks| - 1], tasks[|tasks| - 1];
    var u := SyncAll(t, init);
    SequenceKeys(t, tasks, k.session);
    NoOrphansLeft(t, init, k);
    assert last in tasks && FreshFor(t, last);
    if !TaskFor(last, k) {
      OtherTask(u, last, k);
      assert c in Slice(SyncAll(t, tasks), Spot(k.tenant, k.phone)) && c in Slice(u, Spot(k.tenant, k.phone));
    } else if Keyed(u, k) {
      RunTaskTheorem(u, last);
      RowIs(SyncAll(t, tasks), k, c);
    } else {
      SyncedIff(t, init, k);
      RunTaskIds(u, last);
      if c in u {
        assert c !in Orphans(u, k.tenant, k.phone);
        RunTaskKeepsSpot(u, last, c);
        RunTaskKeepsRow(u, last, c);
        assert HasKey(u[c], k);
      }
    }
  }

  // The counter of the key's row before the sync was the one the first chat of the number found.
  lemma {:induction false} FirstFinds(t: Table, tasks: seq<Task>, k: Key, i: nat, c: Id)
    requires Sequence(t, tasks, k.session) && IsFirst(tasks, i) && tasks[i].key == k
    requires c in SyncAll(t, tasks) && HasKey(SyncAll(t, tasks)[c], k)
    ensures CounterAt(t, c) == KnownUnread(t, k, tasks[i].hint)
  {
    var init := tasks[..|tasks| - 1];
    SequenceKeys(t, tasks, k.session);
    if i == |tasks| - 1 {
      FirstFindsStart(t, tasks, k, c);
    } else {
      assert TaskFor(init[i], k) && IsFirst(init, i);
      LaterChatFinds(t, tasks, k, c);
      if c in SyncAll(t, init) && HasKey(SyncAll(t, init)[c], k) { FirstFinds(t, init, k, i, c); }
    }
  }

  // A row of no number of the sync keeps its counter.
  lemma {:induction false} OtherRowKept(t: Table, tasks: seq<Task>, session: Id, c: Id)
    requires Sequence(t, tasks, session) && c in SyncAll(t, tasks)
    requires forall i :: 0 <= i < |tasks| && tasks[i].Sync? ==> !HasKey(SyncAll(t, tasks)[c], tasks[i].key)
    ensures SyncAll(t, tasks)[c].unread == CounterAt(t, c)
  {
    if tasks != [] {
      var init, last := tasks[..|tasks| - 1], tasks[|tasks| - 1];
      var u := SyncAll(t, init);
      SequenceKeys(t, tasks, session);
      if last.Sync? { TaskUnread(u, last, c); }
      forall i | 0 <= i < |init| && init[i].Sync? ensures !HasKey(u[c], init[i].key) {
        assert init[i] == tasks[i];
        if HasKey(u[c], init[i].key) && last.Sync? { RunTaskKeepsRow(u, last, c); }
      }
      OtherRowKept(t, init, session, c);
    }
  }

  lemma {:induction false} FirstOf(tasks: seq<Task>, n: nat) returns (i: nat)
    requires n < |tasks| && tasks[n].Sync?
    ensures IsFirst(tasks, i) && tasks[i].key == tasks[n].key
    decreases n
  {
    if m :| 0 <= m < n && TaskFor(tasks[m], tasks[n].key) {
      i := FirstOf(tasks, m);
    } else {
      i := n;
    }
  }

  lemma {:induction false} LastOf(tasks: seq<Task>, n: nat) returns (j: nat)
    requires n < |tasks| && tasks[n].Sync?
    ensures IsLast(tasks, j) && tasks[j].key == tasks[n].key
    decreases |tasks| - n
  {
    if m :| n < m < |tasks| && TaskFor(tasks[m], tasks[n].key) {
      j := LastOf(tasks, m);
    } else {
      j := n;
    }
  }

  // The last chat of every number reports what its first chat found.
  ghost predicate LastsAgree(t: Table, tasks: seq<Task>) {
    forall i: nat, j: nat :: IsFirst(tasks, i) && IsLast(tasks, j) && tasks[i].key == tasks[j].key ==>
      tasks[j].row.unread == KnownUnread(t, tasks[i].key, tasks[i].hint)
  }

  lemma KeptIfAgrees(t: Table, tasks: seq<Task>, session: Id, c: Id)
    requires Sequence(t, tasks, session) && LastsAgree(t, tasks) && c in SyncAll(t, tasks)
    ensures SyncAll(t, tasks)[c].unread == CounterAt(t, c)
  {
    if n :| 0 <= n < |tasks| && tasks[n].Sync? && HasKey(SyncAll(t, tasks)[c], tasks[n].key) {
      var k := tasks[n].key;
      assert tasks[n] in tasks;
      var i := FirstOf(tasks, n);
      var j := LastOf(tasks, n);
      LastWrites(t, tasks, k, j, c);
      FirstFinds(t, tasks, k, i, c);
    } else {
      OtherRowKept(t, tasks, session, c);
    }
  }

  lemma AgreesIfKept(t: Table, tasks: seq<Task>, session: Id, i: nat, j: nat)
    requires Sequence(t, tasks, session) && IsFirst(tasks, i) && IsLast(tasks, j) && tasks[i].key == tasks[j].key
    requires forall c :: c in SyncAll(t, tasks) ==> SyncAll(t, tasks)[c].unread == CounterAt(t, c)
    ensures tasks[j].row.unread == KnownUnread(t, tasks[i].key, tasks[i].hint)
  {
    var u, k := SyncAll(t, tasks), tasks[i].key;
    assert tasks[i] in tasks && TaskFor(tasks[i], k) && TaskFor(tasks[j], k);
    if Keyed(u, k) {
      var c := RowOf(u, k);
      LastWrites(t, tasks, k, j, c);
      FirstFinds(t, tasks, k, i, c);
    } else {
      SyncedIff(t, tasks, k);
      assert !tasks[j].hasContent;
    }
  }

  lemma CountsWhenKept(s: State, u: Table)
    requires Inv(s) && Counted(s.table, s.messages)
    ensures Counted(u, Detach(s.messages, u.Keys)) <==> forall c :: c in u ==> u[c].unread == CounterAt(s.table, c)
  {
    forall c | c in u ensures |UnreadOf(Detach(s.messages, u.Keys), c)| == CounterAt(s.table, c) {
      UnreadAfterDetach(s.messages, u.Keys, c);
      if c !in s.table { assert UnreadOf(s.messages, c) == {}; }
    }
  }

  lemma SyncIsSequence(s: State, ev: Event)
    requires Inv(s) && ev.ChatsSynced? && ev.session in s.sessions && WellFormed(s, ev)
    ensures var tasks := SyncTasks(s, ev.session, ev.chats, ev.clocks, ev.hints);
            && Sequence(s.table, tasks, s.sessions[ev.session].id)
            && (forall i :: 0 <= i < |tasks| && tasks[i].Sync? ==> tasks[i].row.unread == Unread(ev.chats[i]))
  {
    TasksReady(s, ev.session, ev.chats, ev.clocks, ev.hints);
  }

  // A sync in which no batch holds two chats of one number keeps the counters, under every
  // schedule, if and only if the last chat of every number reports what the table counts.
  lemma SyncCountsIff(s: State, ev: Event)
    requires Inv(s) && Counted(s.table, s.messages) && ev.ChatsSynced? && Orderly(s, ev)
    ensures Counted(Step(s, ev).table, Step(s, ev).messages) <==> SyncAgrees(s, ev)
  {
    if ev.session in s.sessions && WellFormed(s, ev) {
      var t, tasks := s.table, SyncTasks(s, ev.session, ev.chats, ev.clocks, ev.hints);
      var u, session := SyncAll(t, tasks), s.sessions[ev.session].id;
      SyncIsSequential(s, ev);
      SyncIsSequence(s, ev);
      CountsWhenKept(s, u);
      assert SyncAgrees(s, ev) <==> LastsAgree(t, tasks);
      if LastsAgree(t, tasks) {
        forall c | c in u ensures u[c].unread == CounterAt(t, c) { KeptIfAgrees(t, tasks, session, c); }
      } else if forall c :: c in u ==> u[c].unread == CounterAt(t, c) {
        forall i: nat, j: nat | IsFirst(tasks, i) && IsLast(tasks, j) && tasks[i].key == tasks[j].key
          ensures tasks[j].row.unread == KnownUnread(t, tasks[i].key, tasks[i].hint)
        {
          AgreesIfKept(t, tasks, session, i, j);
        }
      }
    }
  }

  lemma StepKeepsCounted(s: State, ev: Event)
    requires Inv(s) && Counted(s.table, s.messages) && KeepsCounters(s, ev)
    ensures Counted(Step(s, ev).table, Step(s, ev).messages)
  {
    match ev
    case SessionAdded(_, _) =>
    case SessionDeleted(session) =>
      if session in s.sessions {
        SameUnread(s.table, Orphaned(s.table, s.sessions[session].id), s.messages, s.messages);
      }
    case MarkAsRead(tenant, c) => ReadAllCounts(s, tenant, c);
    case Ack(externalId, status) => if externalId != "" { AckCounts(s.table, s.messages, externalId, status); }
    case ChatsSynced(_, _, _, _, _) => SyncCountsIff(s, ev);
    case _ => if Lands(s, ev) { LandCounts(s, ev); }
  }

  ghost predicate KeepsCountersAll(s: State, evs: seq<Event>) {
    evs == [] || (KeepsCountersAll(s, evs[..|evs| - 1]) && KeepsCounters(Exec(s, evs[..|evs| - 1]), evs[|evs| - 1]))
  }

  // In every such run each counter is the number of stored inbound messages not yet read.
  lemma {:induction false} UnreadCountsInEveryRun(evs: seq<Event>)
    requires KeepsCountersAll(EMPTY, evs)
    ensures Counted(Exec(EMPTY, evs).table, Exec(EMPTY, evs).messages)
  {
    if evs != [] {
      UnreadCountsInEveryRun(evs[..|evs| - 1]);
      RunKeepsInv(EMPTY, evs[..|evs| - 1]);
      StepKeepsCounted(Exec(EMPTY, evs[..|evs| - 1]), evs[|evs| - 1]);
    }
  }

  lemma AckReads(messages: map<Id, Message>, externalId: string, m: Id, c: Id)
    requires m in UnreadOf(messages, c) && messages[m].externalId == Some(externalId)
    ensures |UnreadOf(Acked(messages, externalId, Read), c)| < |UnreadOf(messages, c)|
  {
    var before, after := UnreadOf(messages, c), UnreadOf(Acked(messages, externalId, Read), c);
    assert after <= before - {m};
    SubsetSize(after, before - {m});
  }

  lemma AckUnreads(messages: map<Id, Message>, externalId: string, status: Status, m: Id, c: Id)
    requires m in messages && messages[m].externalId == Some(externalId) && status != Read
    requires messages[m].inbound && messages[m].conversation == Some(c) && messages[m].status == Read
    ensures |UnreadOf(messages, c)| < |UnreadOf(Acked(messages, externalId, status), c)|
  {
    var after := Acked(messages, externalId, status);
    assert m in UnreadOf(after, c);
    forall x | x in UnreadOf(messages, c) ensures x in UnreadOf(after, c) && x != m {
      assert x in after;
    }
    assert UnreadOf(messages, c) <= UnreadOf(after, c) - {m};
    SubsetSize(UnreadOf(messages, c), UnreadOf(after, c) - {m});
  }

  // An acknowledgement keeps the counters if and only if it changes no attached inbound message
  // between read and unread.
  lemma AckCountsIff(s: State, externalId: string, status: Status)
    requires Inv(s) && Counted(s.table, s.messages)
    ensures Counted(s.table, Acked(s.messages, externalId, status)) <==> !ChangesRead(s.messages, externalId, status)
  {
    if ChangesRead(s.messages, externalId, status) {
      var m :| m in s.messages && s.messages[m].externalId == Some(externalId) && s.messages[m].inbound
               && s.messages[m].conversation.Some? && (s.messages[m].status == Read) != (status == Read);
      var c := s.messages[m].conversation.value;
      assert c in s.table;
      if status == Read {
        AckReads(s.messages, externalId, m, c);
      } else {
        AckUnreads(s.messages, externalId, status, m, c);
      }
    } else {
      AckCounts(s.table, s.messages, externalId, status);
    }
  }

  lemma KeepsCountersSnoc(s: State, evs: seq<Event>, ev: Event)
    requires KeepsCountersAll(s, evs) && KeepsCounters(Exec(s, evs), ev)
    ensures KeepsCountersAll(s, evs + [ev])
  {
    assert (evs + [ev])[..|evs|] == evs;
  }

  lemma FirstReceived(d: Delivery, e: Env)
    requires d.externalId.Some? && d.externalId.value != "" && !EndsWith(d.jid, "@newsletter")
    ensures var s := Step(Step(EMPTY, SessionAdded(d.session, 0)), Received(d, e));
            ChangesRead(s.messages, d.externalId.value, Read)
  {
    var s0 := Step(EMPTY, SessionAdded(d.session, 0));
    StepKeepsInv(EMPTY, SessionAdded(d.session, 0));
    assert Lands(s0, Received(d, e));
    LandsOnTarget(s0, Received(d, e));
    var m := Step(s0, Received(d, e)).messages[0];
    assert m.inbound && m.externalId == d.externalId && m.status == Delivered;
  }

  function OneReceived(d: Delivery, e: Env): seq<Event> {
    [] + [SessionAdded(d.session, 0)] + [Received(d, e)]
  }

  lemma OneReceivedCounts(d: Delivery, e: Env)
    ensures KeepsCountersAll(EMPTY, OneReceived(d, e))
    ensures Exec(EMPTY, OneReceived(d, e)) == Step(Step(EMPTY, SessionAdded(d.session, 0)), Received(d, e))
  {
    var e0 := SessionAdded(d.session, 0);
    ExecSnoc(EMPTY, [], e0);
    ExecSnoc(EMPTY, [] + [e0], Received(d, e));
    KeepsCountersSnoc(EMPTY, [], e0);
    KeepsCountersSnoc(EMPTY, [] + [e0], Received(d, e));
  }

  lemma ReadAckBreaks(s: State, externalId: string)
    requires Inv(s) && Counted(s.table, s.messages) && externalId != "" && ChangesRead(s.messages, externalId, Read)
    ensures var r := Step(s, Ack(externalId, Read)); !Counted(r.table, r.messages)
  {
    AckCountsIff(s, externalId, Read);
  }

  // The failing acknowledgement: one message is received, then an acknowledgement says it was read.
  lemma AckBreaksCounters(d: Delivery, e: Env)
    requires d.externalId.Some? && d.externalId.value != "" && !EndsWith(d.jid, "@newsletter")
    ensures var s := Exec(EMPTY, OneReceived(d, e)); var r := Step(s, Ack(d.externalId.value, Read));
            KeepsCountersAll(EMPTY, OneReceived(d, e)) && Counted(s.table, s.messages) && !Counted(r.table, r.messages)
  {
    OneReceivedCounts(d, e);
    UnreadCountsInEveryRun(OneReceived(d, e));
    RunKeepsInv(EMPTY, OneReceived(d, e));
    FirstReceived(d, e);
    ReadAckBreaks(Exec(EMPTY, OneReceived(d, e)), d.externalId.value);
  }

  lemma OneTaskCompletes(t: Table, task: Task)
    ensures Batches([task]) == [[task]] && Completes(t, [[task]], [[0, 0, 0, 0, 0]])
  {
    var schedule := [0, 0, 0, 0, 0];
    FiveTurns(0);
    BatchFinishes(t, [task], schedule);
    assert [[task]][1..] == [];
  }

  // The failing sync: a chat reports unread messages the inbox has never stored.
  lemma SyncBreaksCounters(session: string, c: Chat)
    requires Unread(c) > 0 && TaskOf(0, 0, c, Draw(0, 0, 0)).Sync?
    ensures var before := [] + [SessionAdded(session, 0)]; var s := Exec(EMPTY, before);
            var r := Step(s, ChatsSynced(session, [c], [0], [0], [[0, 0, 0, 0, 0]]));
            KeepsCountersAll(EMPTY, before) && Counted(s.table, s.messages) && !Counted(r.table, r.messages)
  {
    var before, ev := [] + [SessionAdded(session, 0)], ChatsSynced(session, [c], [0], [0], [[0, 0, 0, 0, 0]]);
    ExecSnoc(EMPTY, [], SessionAdded(session, 0));
    KeepsCountersSnoc(EMPTY, [], SessionAdded(session, 0));
    UnreadCountsInEveryRun(before);
    RunKeepsInv(EMPTY, before);
    var s, task := Exec(EMPTY, before), TaskOf(0, 0, c, Draw(0, 0, 0));
    assert SyncTasks(s, session, [c], [0], [0]) == [task];
    OneTaskCompletes(s.table, task);
    assert KnownUnread(s.table, task.key, task.hint) == 0;
    SyncCountsIff(s, ev);
  }
}
