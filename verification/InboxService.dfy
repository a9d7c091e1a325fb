// The inbox handlers in the order they write: the webhook processor, the
// campaign loop's conversation writes, and markAsRead, over one database.

module InboxService {
  import opened Common
  import opened Conversations
  import opened ChatSync
  import opened Inbox

  ghost predicate PointersIn(messages: map<Id, Message>, rows: set<Id>) {
    forall m :: m in messages && messages[m].conversation.Some? ==> messages[m].conversation.value in rows
  }

  lemma DetachNothing(messages: map<Id, Message>, rows: set<Id>)
    requires PointersIn(messages, rows)
    ensures Detach(messages, rows) == messages
  {
  }

  lemma DetachTwice(messages: map<Id, Message>, first: set<Id>, second: set<Id>, start: set<Id>)
    requires PointersIn(messages, start) && second * start <= first
    ensures Detach(Detach(messages, first), second) == Detach(messages, second)
  {
  }

  // order is what the query for orphans returned: all of them, oldest first; its first is the hint.
  ghost predicate OrphansInOrder(t: Table, k: Key, order: seq<Id>, hint: Id) {
    && Lists(order, Orphans(t, k.tenant, k.phone).Keys)
    && (forall i, j :: 0 <= i < j < |order| && order[i] in t && order[j] in t ==>
          t[order[i]].createdAt <= t[order[j]].createdAt)
    && (order != [] ==> order[0] == hint)
  }

  lemma OrderMeans(t: Table, k: Key, order: seq<Id>, hint: Id)
    requires OrphansInOrder(t, k, order, hint)
    ensures var orphans := Orphans(t, k.tenant, k.phone);
            && (order == [] <==> orphans == map[])
            && (order != [] ==>
                  OldestOf(orphans, hint) == order[0] && Elements(order[1..]) == orphans.Keys - {order[0]})
  {
    var orphans := Orphans(t, k.tenant, k.phone);
    assert forall c :: c in Elements(order) <==> c in order;
    if order == [] {
      assert orphans.Keys == {};
    } else {
      assert order[0] in orphans;
      forall d | d in orphans ensures orphans[order[0]].createdAt <= orphans[d].createdAt {
        var i :| 0 <= i < |order| && order[i] == d;
      }
      assert order == [order[0]] + order[1..];
    }
  }

  lemma OnlyRowUpdated(t: Table, k: Key, c: Id, p: Patch)
    requires UniqueKeys(t) && c in t && HasKey(t[c], k)
    ensures UpdateKeyed(t, k, p) == t[c := Patched(t[c], p)]
  {
    forall d | d in t && d != c ensures !HasKey(t[d], k) {
      assert !SameKey(t[d], t[c]);
    }
  }

  lemma NextBatch(tasks: seq<Task>, n: nat)
    requires n == (if |tasks| <= BATCH_SIZE then |tasks| else BATCH_SIZE) && tasks != []
    ensures Batches(tasks) == [tasks[..n]] + Batches(tasks[n..])
  {
    if n == |tasks| { assert tasks[..n] == tasks && tasks[n..] == []; }
  }

  class InboxStore {
    var sessions: map<string, Session>
    var table: Table
    var messages: map<Id, Message>
    var nextSession: Id
    var nextRow: Id
    var nextMessage: Id

    ghost function View(): State
      reads this
    {
      State(sessions, table, messages, nextSession, nextRow, nextMessage)
    }

    constructor ()
      ensures View() == EMPTY
    {
      sessions, table, messages := map[], map[], map[];
      nextSession, nextRow, nextMessage := 0, 0, 0;
    }

    method AddSession(session: string, tenant: Id)
      modifies `sessions, `nextSession
      ensures View() == Step(old(View()), SessionAdded(session, tenant))
    {
      if session !in sessions {
        sessions := sessions[session := Session(nextSession, tenant)];
        nextSession := nextSession + 1;
      }
    }

    /** Deleting the session row leaves its conversations without a session. */
    method DeleteSession(session: string)
      modifies `sessions, `table
      ensures View() == Step(old(View()), SessionDeleted(session))
    {
      if session !in sessions { return; }
      var id := sessions[session].id;
      sessions := sessions - {session};
      table := map c | c in table :: if table[c].session == Some(id) then table[c].(session := None) else table[c];
    }

    /** Deleting conversations, after which their messages have none. */
    method DeleteConversations(ids: set<Id>)
      requires PointersIn(messages, table.Keys)
      modifies `table, `messages
      ensures table == old(table) - ids
      ensures messages == Detach(old(messages), table.Keys) && PointersIn(messages, table.Keys)
    {
      table := table - ids;
      messages := map m | m in messages ::
        if messages[m].conversation.Some? && messages[m].conversation.value in ids
        then messages[m].(conversation := None) else messages[m];
    }

    /** Keep the keeper and drop the orphans, or attach the oldest orphan and drop the others. */
    method ReattachOrphan(k: Key, order: seq<Id>, hint: Id)
      requires PointersIn(messages, table.Keys) && OrphansInOrder(table, k, order, hint)
      modifies `table, `messages
      ensures table == Reattach(old(table), k, hint)
      ensures messages == Detach(old(messages), table.Keys) && PointersIn(messages, table.Keys)
    {
      OrderMeans(table, k, order, hint);
      if exists c :: c in table && HasKey(table[c], k) {
        DeleteConversations(Orphans(table, k.tenant, k.phone).Keys);
        return;
      }
      if |order| == 0 {
        DetachNothing(messages, table.Keys);
        return;
      }
      assert order[0] in table;
      if |order| > 1 {
        DeleteConversations(Elements(order[1..]));
      } else {
        DetachNothing(messages, table.Keys);
      }
      table := table[order[0] := table[order[0]].(session := Some(k.session))];
      assert table == Kept(old(table), k, order[0]);
      DetachNothing(messages, table.Keys);
    }

    /** Insert the row of a key or refresh the one it has; id is the conversation's. */
    method UpsertConversation(k: Key, row: Conversation, patch: Patch) returns (id: Id)
      requires UniqueKeys(table) && nextRow !in table && HasKey(row, k)
      modifies `table, `nextRow
      ensures table == Upsert(old(table), k, old(nextRow), row, patch) && nextRow == old(nextRow) + 1
      ensures Keyed(table, k) && id == RowOf(table, k)
    {
      UpsertTheorem(table, k, nextRow, row, patch);
      if c :| c in table && HasKey(table[c], k) {
        id := c;
        RowIs(table, k, id);
        OnlyRowUpdated(table, k, id, patch);
        table := table[id := Patched(table[id], patch)];
      } else {
        id := nextRow;
        table := table[id := row];
      }
      nextRow := nextRow + 1;
    }

    method CreateMessage(message: Message)
      modifies `messages, `nextMessage
      ensures messages == old(messages)[old(nextMessage) := message] && nextMessage == old(nextMessage) + 1
    {
      messages := messages[nextMessage := message];
      nextMessage := nextMessage + 1;
    }

    /** The upsert and insert every storing handler ends with. */
    method Store(ghost s: State, l: Landing)
      requires TableOk(s.table, s.nextRow, s.nextSession) && Prepared(s, table, l)
      requires View() == s.(table := table, messages := messages) && messages == Detach(s.messages, table.Keys)
      modifies `table, `nextRow, `messages, `nextMessage
      ensures View() == LandOn(s, old(table), l)
    {
      var id := UpsertConversation(l.key, l.row, l.patch);
      CreateMessage(Message(l.key.tenant, Some(id), l.inbound, l.status, l.externalId));
    }

    method HandleMessageReceived(d: Delivery, e: Env, order: seq<Id>) returns (stored: bool)
      requires Inv(View())
      requires d.session in sessions ==>
                 OrphansInOrder(table, KeyOf(View(), d.session, NormaliseJid(d.jid)), order, e.hint)
      modifies `table, `nextRow, `messages, `nextMessage
      ensures stored == Lands(old(View()), Received(d, e))
      ensures View() == Step(old(View()), Received(d, e)) && Inv(View())
    {
      ghost var s := View();
      StepKeepsInv(s, Received(d, e));
      if d.externalId.Some? && d.externalId.value != "" {
        if exists m :: m in messages && messages[m].externalId == d.externalId { return false; }
      }
      if d.session !in sessions { return false; }
      if EndsWith(d.jid, "@newsletter") { return false; }
      var k := Key(sessions[d.session].tenant, sessions[d.session].id, NormaliseJid(d.jid));
      var saved := Trimmed(if e.contact.Some? then Some(e.contact.value.name) else None);
      var name := if saved.Some? then saved else Trimmed(d.pushName);
      var contact := if e.contact.Some? then Some(e.contact.value.id) else None;
      var at := if d.timestamp.Some? then d.timestamp.value else e.now;
      ReattachOrphan(k, order, e.hint);
      LandsPrepared(s, Received(d, e));
      Store(s, Landing(k, NewRow(k, e.now, 1, at, d.text, name, contact),
                       Patch(at, Clip(d.text), Increment, true, name, contact), true, Delivered, d.externalId));
      stored := true;
    }

    method HandleMessageOutgoing(d: Delivery, e: Env, order: seq<Id>) returns (stored: bool)
      requires Inv(View())
      requires d.session in sessions ==>
                 OrphansInOrder(table, KeyOf(View(), d.session, NormaliseJid(d.jid)), order, e.hint)
      modifies `table, `nextRow, `messages, `nextMessage
      ensures stored == Lands(old(View()), Outgoing(d, e))
      ensures View() == Step(old(View()), Outgoing(d, e)) && Inv(View())
    {
      ghost var s := View();
      StepKeepsInv(s, Outgoing(d, e));
      if d.externalId.Some? && d.externalId.value != "" {
        if exists m :: m in messages && messages[m].externalId == d.externalId { return false; }
      }
      if d.session !in sessions { return false; }
      var k := Key(sessions[d.session].tenant, sessions[d.session].id, NormaliseJid(d.jid));
      var contact := if e.contact.Some? then Some(e.contact.value.id) else None;
      var at := if d.timestamp.Some? then d.timestamp.value else e.now;
      ReattachOrphan(k, order, e.hint);
      LandsPrepared(s, Outgoing(d, e));
      Store(s, Landing(k, NewRow(k, e.now, 0, at, d.text, None, contact),
                       Patch(at, Clip(d.text), Keep, false, None, contact), false, Sent, d.externalId));
      stored := true;
    }

    /** The campaign loop's own re-attachment; ok is false when the unique index rejects the update. */
    method ReattachInline(k: Key) returns (ok: bool)
      requires PointersIn(messages, table.Keys)
      modifies `table, `messages
      ensures ok == InlineReattach(old(table), k).Reattached?
      ensures table == if ok then InlineReattach(old(table), k).table else old(table)
      ensures messages == Detach(old(messages), table.Keys)
    {
      if exists c :: c in table && HasKey(table[c], k) {
        DeleteConversations(Orphans(table, k.tenant, k.phone).Keys);
        return true;
      }
      DetachNothing(messages, table.Keys);
      var moved := map c | c in table ::
        if table[c].tenant == k.tenant && table[c].session.None? && table[c].phone == k.phone
        then table[c].(session := Some(k.session)) else table[c];
      assert moved == Moved(table, k);
      ok := UniqueKeys(moved);
      if ok { table := moved; }
    }

    /** What the campaign loop writes for one recipient. */
    method SendToRecipient(session: string, phone: string, name: string, text: string, sent: bool,
                           sentId: Option<string>, e: Env) returns (ok: bool)
      requires Inv(View()) && session in sessions
      modifies `table, `nextRow, `messages, `nextMessage
      ensures ok == InlineReattach(old(table), KeyOf(old(View()), session, phone)).Reattached?
      ensures View() == Step(old(View()), CampaignSend(session, phone, name, text, sent, sentId, e)) && Inv(View())
    {
      ghost var s, ev := View(), CampaignSend(session, phone, name, text, sent, sentId, e);
      StepKeepsInv(s, ev);
      var k := Key(sessions[session].tenant, sessions[session].id, phone);
      var contact := if e.contact.Some? then Some(e.contact.value.id) else None;
      ok := ReattachInline(k);
      if !ok {
        DetachNothing(s.messages, s.table.Keys);
        return;
      }
      LandsPrepared(s, ev);
      Store(s, Landing(k, NewRow(k, e.now, 0, e.now, text, Some(name), contact),
                       Patch(e.now, Clip(text), Keep, false, None, contact), false,
                       if sent then Sent else Failed, if sent then sentId else None));
    }

    method MarkConversationRead(tenant: Id, conversation: Id) returns (found: bool)
      modifies `table, `messages
      ensures found == (conversation in old(table) && old(table)[conversation].tenant == tenant)
      ensures View() == Step(old(View()), MarkAsRead(tenant, conversation))
    {
      if conversation !in table || table[conversation].tenant != tenant { return false; }
      messages := map m | m in messages ::
        if messages[m].tenant == tenant && messages[m].conversation == Some(conversation) && messages[m].inbound
           && messages[m].status != Read
        then messages[m].(status := Read) else messages[m];
      table := table[conversation := table[conversation].(unread := 0)];
      found := true;
    }

    /** The message side of an acknowledgement; unknown codes are dropped. */
    method HandleMessageAck(code: int, externalId: string)
      modifies `messages
      ensures code == 1 ==> View() == Step(old(View()), Ack(externalId, Sent))
      ensures code == 2 ==> View() == Step(old(View()), Ack(externalId, Delivered))
      ensures code == 3 ==> View() == Step(old(View()), Ack(externalId, Read))
      ensures code == -1 ==> View() == Step(old(View()), Ack(externalId, Failed))
      ensures code != 1 && code != 2 && code != 3 && code != -1 ==> View() == old(View())
    {
      var status: Status;
      if code == 1 { status := Sent; }
      else if code == 2 { status := Delivered; }
      else if code == 3 { status := Read; }
      else if code == -1 { status := Failed; }
      else { return; }
      if externalId == "" { return; }
      messages := map m | m in messages ::
        if messages[m].externalId == Some(externalId) then messages[m].(status := status) else messages[m];
    }

    // ── Chat sync ──────────────────────────────────────────────────────────

    /** One database call of a task, and where the task stands after it. */
    method PerformCall(task: Task, pc: Pc) returns (next: Pc)
      requires PointersIn(messages, table.Keys)
      modifies `table, `messages
      ensures (table, next) == TaskStep(old(table), task, pc)
      ensures messages == Detach(old(messages), table.Keys) && PointersIn(messages, table.Keys)
    {
      next := pc;
      if task.Sync? {
        var k := task.key;
        match pc
        case FindKeeper =>
          next := if exists c :: c in table && HasKey(table[c], k) then DeleteOrphans else FindOrphans;
        case DeleteOrphans =>
          DeleteConversations(Orphans(table, k.tenant, k.phone).Keys);
          next := Write;
        case FindOrphans =>
          var orphans := Orphans(table, k.tenant, k.phone);
          if orphans == map[] {
            next := Write;
          } else {
            var keep := OldestOf(orphans, task.hint);
            next := if |orphans| > 1 then DeleteExtras(keep, orphans.Keys - {keep}) else Attach(keep);
          }
        case DeleteExtras(keep, extras) =>
          DeleteConversations(extras);
          next := Attach(keep);
        case Attach(keep) =>
          if keep in table && forall c :: c in table && c != keep ==> !HasKey(table[c], k) {
            table := table[keep := table[keep].(session := Some(k.session))];
            next := Write;
          } else {
            next := Finished;
          }
        case Write =>
          if exists c :: c in table && HasKey(table[c], k) {
            table := UpdateKeyed(table, k, task.patch);
          } else if task.hasContent {
            table := table[task.id := task.row];
          } else {
            assert UpdateKeyed(table, k, task.patch) == table;
          }
          next := Finished;
        case Finished =>
      }
      DetachNothing(messages, table.Keys);
    }

    /** A batch's tasks, whose calls take turns as the schedule says. */
    method RunBatch(tasks: seq<Task>, schedule: seq<nat>, ghost start: Table, ghost stored: map<Id, Message>)
      requires AllFresh(start, tasks) && PointersIn(stored, start.Keys)
      requires messages == Detach(stored, table.Keys)
      modifies `table, `messages
      ensures table == RunSchedule(old(table), tasks, schedule).table
      ensures messages == Detach(stored, table.Keys)
    {
      var pcs := seq(|tasks|, i requires 0 <= i < |tasks| => Initial(tasks[i]));
      for n := 0 to |schedule|
        invariant Batch(table, pcs) == RunSchedule(old(table), tasks, schedule[..n])
        invariant messages == Detach(stored, table.Keys)
      {
        assert schedule[..n + 1][..n] == schedule[..n];
        var i := schedule[n];
        if i < |tasks| {
          ghost var before := table;
          ghost var pc := pcs[i];
          var next := PerformCall(tasks[i], pcs[i]);
          pcs := pcs[i := next];
          assert FreshFor(start, tasks[i]);
          StepIds(before, tasks[i], pc);
          DetachTwice(stored, before.Keys, table.Keys, start.Keys);
        }
      }
      assert schedule[..|schedule|] == schedule;
    }

    /** The loop over slices of BATCH_SIZE chats, each batch finished before the next. */
    method RunSlices(tasks: seq<Task>, schedules: seq<seq<nat>>, ghost start: Table, ghost stored: map<Id, Message>)
      requires AllFresh(start, tasks) && PointersIn(stored, start.Keys) && |schedules| == |Batches(tasks)|
      requires messages == Detach(stored, table.Keys)
      modifies `table, `messages
      ensures table == RunBatches(old(table), Batches(tasks), schedules)
      ensures messages == Detach(stored, table.Keys)
    {
      var i, b := 0, 0;
      assert tasks[0..] == tasks && schedules[0..] == schedules;
      while i < |tasks|
        invariant 0 <= i <= |tasks| && b <= |schedules|
        invariant |Batches(tasks[i..])| == |schedules| - b
        invariant RunBatches(table, Batches(tasks[i..]), schedules[b..]) ==
                    RunBatches(old(table), Batches(tasks), schedules)
        invariant messages == Detach(stored, table.Keys)
      {
        var end := if i + BATCH_SIZE <= |tasks| then i + BATCH_SIZE else |tasks|;
        NextBatch(tasks[i..], end - i);
        assert tasks[i..][..end - i] == tasks[i..end] && tasks[i..][end - i..] == tasks[end..];
        assert schedules[b..][1..] == schedules[b + 1..];
        RunBatch(tasks[i..end], schedules[b], start, stored);
        i, b := end, b + 1;
      }
      assert tasks[i..] == [];
    }

    method HandleSessionChatsSynced(session: string, chats: seq<Chat>, clocks: seq<int>, hints: seq<Id>,
                                    schedules: seq<seq<nat>>)
      requires Inv(View()) && WellFormed(View(), ChatsSynced(session, chats, clocks, hints, schedules))
      modifies `table, `messages, `nextRow
      ensures View() == Step(old(View()), ChatsSynced(session, chats, clocks, hints, schedules)) && Inv(View())
    {
      ghost var s, ev := View(), ChatsSynced(session, chats, clocks, hints, schedules);
      StepKeepsInv(s, ev);
      if session !in sessions { return; }
      var tenant, id, base := sessions[session].tenant, sessions[session].id, nextRow;
      var tasks := seq(|chats|, i requires 0 <= i < |chats| =>
        TaskOf(tenant, id, chats[i], Draw(base + i, clocks[i], hints[i])));
      assert tasks == SyncTasks(s, session, chats, clocks, hints);
      TasksReady(s, session, chats, clocks, hints);
      DetachNothing(messages, table.Keys);
      RunSlices(tasks, schedules, table, messages);
      nextRow := nextRow + |chats|;
    }
  }
}
