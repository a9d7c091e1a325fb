// What a finished chat sync has done, chat by chat: which chats have a
// conversation afterwards, what it shows, and which conversations it leaves alone.

module InboxSync {
  import opened Common
  import opened Conversations
  import opened ChatSync
  import opened ChatSyncKeys
  import opened Inbox
  import opened InboxUnread

  // A sync whose parameters are complete, in which no batch holds a number twice, run to its end.
  ghost predicate Finished(s: State, ev: Event) {
    ev.ChatsSynced? && ev.session in s.sessions && WellFormed(s, ev) && Orderly(s, ev)
  }

  // Chat i of the sync is for this number.
  predicate IsFor(ev: Event, i: nat, phone: string) {
    ev.ChatsSynced? && i < |ev.chats| && !IsIgnored(ev.chats[i].jid) && NormaliseJid(ev.chats[i].jid) == phone
  }

  lemma TaskIsFor(s: State, ev: Event, i: nat, k: Key)
    requires ev.ChatsSynced? && ev.session in s.sessions && WellFormed(s, ev) && i < |ev.chats|
    requires k.tenant == s.sessions[ev.session].tenant && k.session == s.sessions[ev.session].id
    ensures var task := SyncTasks(s, ev.session, ev.chats, ev.clocks, ev.hints)[i];
            && (TaskFor(task, k) <==> IsFor(ev, i, k.phone))
            && (TaskFor(task, k) ==> (task.hasContent <==> SaysSomething(ev.chats[i])))
  {
    var session := s.sessions[ev.session];
    SkippedIff(session.tenant, session.id, ev.chats[i], Draw(s.nextRow + i, ev.clocks[i], ev.hints[i]));
  }

  // The tasks of the key are those of the chats for its number.
  ghost predicate Stands(ev: Event, tasks: seq<Task>, k: Key)
    requires ev.ChatsSynced?
  {
    && |tasks| == |ev.chats|
    && (forall n: nat :: n < |tasks| ==> (TaskFor(tasks[n], k) <==> IsFor(ev, n, k.phone)))
    && (forall n: nat :: n < |tasks| && TaskFor(tasks[n], k) ==>
          (tasks[n].hasContent <==> SaysSomething(ev.chats[n])))
  }

  lemma SyncStands(s: State, ev: Event, k: Key)
    requires Inv(s) && Finished(s, ev)
    requires k.tenant == s.sessions[ev.session].tenant && k.session == s.sessions[ev.session].id
    ensures Stands(ev, SyncTasks(s, ev.session, ev.chats, ev.clocks, ev.hints), k)
  {
    forall n: nat | n < |ev.chats|
      ensures var task := SyncTasks(s, ev.session, ev.chats, ev.clocks, ev.hints)[n];
              && (TaskFor(task, k) <==> IsFor(ev, n, k.phone))
              && (TaskFor(task, k) ==> (task.hasContent <==> SaysSomething(ev.chats[n])))
    {
      TaskIsFor(s, ev, n, k);
    }
  }

  // A finished sync is its chats handled one after another.
  lemma SyncIsRun(s: State, ev: Event)
    requires Inv(s) && Finished(s, ev)
    ensures var tasks := SyncTasks(s, ev.session, ev.chats, ev.clocks, ev.hints);
            Sequence(s.table, tasks, s.sessions[ev.session].id) && Step(s, ev).table == SyncAll(s.table, tasks)
  {
    SyncIsSequential(s, ev);
    SyncIsSequence(s, ev);
  }

  ghost predicate SomeChatSays(ev: Event, phone: string) {
    exists n: nat :: IsFor(ev, n, phone) && SaysSomething(ev.chats[n])
  }

  lemma ContentStands(ev: Event, tasks: seq<Task>, k: Key)
    requires ev.ChatsSynced? && Stands(ev, tasks, k)
    ensures MentionsContent(tasks, k) <==> SomeChatSays(ev, k.phone)
  {
    if n: nat :| IsFor(ev, n, k.phone) && SaysSomething(ev.chats[n]) {
      assert TaskFor(tasks[n], k) && tasks[n].hasContent;
    }
    if n: nat :| n < |tasks| && TaskFor(tasks[n], k) && tasks[n].hasContent { assert IsFor(ev, n, k.phone); }
  }

  // After a sync every number of its chats, groups and linked devices included, has a conversation of
  // the session exactly when it had one, or an orphan, or one of its chats has text, unread messages
  // or a name; and it has no orphan.
  lemma EveryChatIsSynced(s: State, ev: Event, i: nat)
    requires Inv(s) && Finished(s, ev) && i < |ev.chats| && !IsIgnored(ev.chats[i].jid)
    ensures var phone := NormaliseJid(ev.chats[i].jid);
            var k := KeyOf(s, ev.session, phone); var t := Step(s, ev).table;
            && (Keyed(t, k) <==>
                  Keyed(s.table, k) || Orphans(s.table, k.tenant, phone) != map[] || SomeChatSays(ev, phone))
            && Orphans(t, k.tenant, phone) == map[]
  {
    var k := KeyOf(s, ev.session, NormaliseJid(ev.chats[i].jid));
    var tasks := SyncTasks(s, ev.session, ev.chats, ev.clocks, ev.hints);
    SyncIsRun(s, ev);
    SyncStands(s, ev, k);
    ContentStands(ev, tasks, k);
    assert IsFor(ev, i, k.phone) && TaskFor(tasks[i], k);
    SyncedIff(s.table, tasks, k);
    NoOrphansLeft(s.table, tasks, k);
  }

  // The last chat of a number writes its row last.
  lemma {:induction false} LastLeavesRow(t: Table, tasks: seq<Task>, k: Key, j: nat)
    requires Sequence(t, tasks, k.session) && IsLast(tasks, j) && tasks[j].key == k
    ensures Slice(SyncAll(t, tasks), Spot(k.tenant, k.phone)) ==
              Slice(RunTask(SyncAll(t, tasks[..j]), tasks[j]), Spot(k.tenant, k.phone))
  {
    var n := |tasks| - 1;
    if j < n {
      SequenceKeys(t, tasks, k.session);
      assert tasks[n] in tasks;
      OtherTask(SyncAll(t, tasks[..n]), tasks[n], k);
      assert IsLast(tasks[..n], j) && tasks[..n][..j] == tasks[..j];
      LastLeavesRow(t, tasks[..n], k, j);
    }
  }

  lemma {:induction false} SequencePrefix(t: Table, tasks: seq<Task>, session: Id, j: nat)
    requires Sequence(t, tasks, session) && j < |tasks|
    ensures Sequence(t, tasks[..j], session) && UniqueKeys(SyncAll(t, tasks[..j]))
    ensures FreshFor(SyncAll(t, tasks[..j]), tasks[j])
  {
    SequenceKeys(t, tasks, session);
    var n := |tasks| - 1;
    if j < n {
      SequencePrefix(t, tasks[..n], session, j);
      assert tasks[..n][..j] == tasks[..j];
    } else {
      SequenceKeys(t, tasks[..n], session);
    }
  }

  lemma SameRow(t: Table, u: Table, k: Key)
    requires UniqueKeys(t) && UniqueKeys(u) && Keyed(t, k)
    requires Slice(t, Spot(k.tenant, k.phone)) == Slice(u, Spot(k.tenant, k.phone))
    ensures Keyed(u, k) && u[RowOf(u, k)] == t[RowOf(t, k)]
  {
    var c := RowOf(t, k);
    assert c in Slice(t, Spot(k.tenant, k.phone)) && c in Slice(u, Spot(k.tenant, k.phone));
    RowIs(u, k, c);
  }

  lemma ShownByTask(t: Table, tasks: seq<Task>, k: Key, i: nat)
    requires Sequence(t, tasks, k.session) && IsLast(tasks, i) && tasks[i].key == k && Keyed(SyncAll(t, tasks), k)
    ensures var u := RunTask(SyncAll(t, tasks[..i]), tasks[i]);
            Keyed(u, k) && u[RowOf(u, k)] == SyncAll(t, tasks)[RowOf(SyncAll(t, tasks), k)]
  {
    SequenceKeys(t, tasks, k.session);
    SequencePrefix(t, tasks, k.session, i);
    RunTaskTheorem(SyncAll(t, tasks[..i]), tasks[i]);
    LastLeavesRow(t, tasks, k, i);
    SameRow(SyncAll(t, tasks), RunTask(SyncAll(t, tasks[..i]), tasks[i]), k);
  }

  lemma SameFound(t: Table, u: Table, k: Key, hint: Id)
    requires UniqueKeys(t) && UniqueKeys(u) && Slice(t, Spot(k.tenant, k.phone)) == Slice(u, Spot(k.tenant, k.phone))
    ensures Found(t, k, hint) == Found(u, k, hint)
  {
    SameSlice(t, u, k, hint);
    if Keyed(t, k) {
      SameRow(t, u, k);
    } else if Orphans(t, k.tenant, k.phone) != map[] {
      var c := OldestOf(Orphans(t, k.tenant, k.phone), hint);
      assert c in Orphans(t, k.tenant, k.phone) && c in Orphans(u, k.tenant, k.phone);
    }
  }

  lemma NoneMentioned(ev: Event, tasks: seq<Task>, k: Key, i: nat)
    requires ev.ChatsSynced? && Stands(ev, tasks, k) && i <= |tasks|
    requires forall n: nat :: n < i ==> !IsFor(ev, n, k.phone)
    ensures !Mentions(tasks[..i], k)
  {
  }

  // No later chat of the list is for the number of chat i.
  ghost predicate IsLastChat(ev: Event, i: nat, phone: string) {
    IsFor(ev, i, phone) && forall n: nat :: i < n ==> !IsFor(ev, n, phone)
  }

  lemma LastStands(ev: Event, tasks: seq<Task>, k: Key, i: nat)
    requires ev.ChatsSynced? && Stands(ev, tasks, k) && IsLastChat(ev, i, k.phone)
    ensures IsLast(tasks, i) && tasks[i].key == k
  {
    assert TaskFor(tasks[i], k);
  }

  lemma FoundByFirst(t: Table, tasks: seq<Task>, k: Key, i: nat, hint: Id)
    requires Sequence(t, tasks, k.session) && i < |tasks| && !Mentions(tasks[..i], k)
    ensures Found(SyncAll(t, tasks[..i]), k, hint) == Found(t, k, hint)
  {
    SequencePrefix(t, tasks, k.session, i);
    NotMentioned(t, tasks[..i], k);
    SameFound(t, SyncAll(t, tasks[..i]), k, hint);
  }

  lemma LastTaskShown(t: Table, tasks: seq<Task>, k: Key, i: nat, c: Chat, d: Draw)
    requires Sequence(t, tasks, k.session) && IsLast(tasks, i) && Keyed(SyncAll(t, tasks), k)
    requires tasks[i] == TaskOf(k.tenant, k.session, c, d) && k.phone == NormaliseJid(c.jid)
    ensures var u := SyncAll(t, tasks);
            ShowsChat(u[RowOf(u, k)], c, d.now, Found(SyncAll(t, tasks[..i]), k, d.hint))
  {
    SkippedIff(k.tenant, k.session, c, d);
    ShownByTask(t, tasks, k, i);
    SequencePrefix(t, tasks, k.session, i);
    SyncedRow(SyncAll(t, tasks[..i]), k.tenant, k.session, c, d);
  }

  // A conversation the sync leaves shows the last chat of its number; if that is the only one, it keeps
  // what the chat does not say from the row that was there.
  lemma LastChatShown(s: State, ev: Event, i: nat, phone: string) returns (before: Option<Conversation>)
    requires Inv(s) && Finished(s, ev) && IsLastChat(ev, i, phone)
    requires Keyed(Step(s, ev).table, KeyOf(s, ev.session, phone))
    ensures var k := KeyOf(s, ev.session, phone); var t := Step(s, ev).table;
            ShowsChat(t[RowOf(t, k)], ev.chats[i], ev.clocks[i], before)
    ensures (forall n: nat :: n < i ==> !IsFor(ev, n, phone)) ==>
              before == Found(s.table, KeyOf(s, ev.session, phone), ev.hints[i])
  {
    var k, tasks := KeyOf(s, ev.session, phone), SyncTasks(s, ev.session, ev.chats, ev.clocks, ev.hints);
    SyncIsRun(s, ev);
    SyncStands(s, ev, k);
    LastStands(ev, tasks, k, i);
    before := Found(SyncAll(s.table, tasks[..i]), k, ev.hints[i]);
    LastTaskShown(s.table, tasks, k, i, ev.chats[i], Draw(s.nextRow + i, ev.clocks[i], ev.hints[i]));
    if forall n: nat :: n < i ==> !IsFor(ev, n, phone) {
      NoneMentioned(ev, tasks, k, i);
      FoundByFirst(s.table, tasks, k, i, ev.hints[i]);
    }
  }

  // A conversation of another tenant, or of a number none of the chats is for, stays as it is.
  lemma OthersStay(s: State, ev: Event, c: Id)
    requires Inv(s) && Finished(s, ev) && c in s.table
    requires s.table[c].tenant == s.sessions[ev.session].tenant ==>
               forall i: nat :: !IsFor(ev, i, s.table[c].phone)
    ensures c in Step(s, ev).table && Step(s, ev).table[c] == s.table[c]
  {
    var row, session := s.table[c], s.sessions[ev.session];
    var k, tasks := Key(row.tenant, session.id, row.phone), SyncTasks(s, ev.session, ev.chats, ev.clocks, ev.hints);
    SyncIsRun(s, ev);
    if row.tenant == session.tenant { SyncStands(s, ev, k); }
    assert !Mentions(tasks, k);
    NotMentioned(s.table, tasks, k);
    assert c in Slice(s.table, Spot(k.tenant, k.phone));
    assert c in Slice(Step(s, ev).table, Spot(k.tenant, k.phone));
  }
}
