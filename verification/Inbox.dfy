// The inbox: sessions, conversations and messages under received and outgoing
// message webhooks, chat syncs, campaign sends, acknowledgements, mark-as-read
// and the creation and deletion of sessions.

module Inbox {
  import opened Common
  import opened Conversations
  import opened ChatSync
  import opened ChatSyncKeys

  datatype Session = Session(id: Id, tenant: Id)

  datatype Status = Pending | Sent | Delivered | Read | Failed

  datatype Message = Message(tenant: Id, conversation: Option<Id>, inbound: bool, status: Status,
                             externalId: Option<string>)

  // Sessions are keyed by the engine's own session id, which is unique.
  datatype State = State(sessions: map<string, Session>, table: Table, messages: map<Id, Message>,
                         nextSession: Id, nextRow: Id, nextMessage: Id)

  const EMPTY := State(map[], map[], map[], 0, 0, 0)

  // A message webhook as the engine sends it: jid is the sender of a received message, the
  // addressee of an outgoing one.
  datatype Delivery = Delivery(session: string, jid: string, externalId: Option<string>, text: string,
                               timestamp: Option<int>, pushName: Option<string>)

  datatype Contact = Contact(id: Id, name: string)

  // What the environment adds when a job runs: the clock, the contact found, the order of ties.
  datatype Env = Env(now: int, contact: Option<Contact>, hint: Id)

  datatype Event =
    | SessionAdded(session: string, tenant: Id)
    | SessionDeleted(session: string)
    | ChatsSynced(session: string, chats: seq<Chat>, clocks: seq<int>, hints: seq<Id>, schedules: seq<seq<nat>>)
    | Received(delivery: Delivery, env: Env)
    | Outgoing(delivery: Delivery, env: Env)
    | CampaignSend(session: string, phone: string, name: string, text: string, sent: bool, sentId: Option<string>,
                   env: Env)
    | MarkAsRead(tenant: Id, conversation: Id)
    | Ack(externalId: string, status: Status)

  // ── Landing a message in its conversation ────────────────────────────────

  predicate Known(messages: map<Id, Message>, externalId: Option<string>) {
    exists m :: m in messages && messages[m].externalId == externalId
  }

  // Deleting a conversation leaves its messages behind without one.
  function Detach(messages: map<Id, Message>, rows: set<Id>): map<Id, Message> {
    map m | m in messages ::
      if messages[m].conversation.Some? && messages[m].conversation.value !in rows
      then messages[m].(conversation := None) else messages[m]
  }

  // What a handler stores: the row it would create, what it writes to an existing row, and the message.
  datatype Landing = Landing(key: Key, row: Conversation, patch: Patch, inbound: bool, status: Status,
                             externalId: Option<string>)

  // The upsert and the insert that follow a re-attachment which left the table as t.
  ghost function LandOn(s: State, t: Table, l: Landing): State {
    var u := Upsert(t, l.key, s.nextRow, l.row, l.patch);
    var conversation := if Keyed(u, l.key) then Some(RowOf(u, l.key)) else None;
    var message := Message(l.key.tenant, conversation, l.inbound, l.status, l.externalId);
    s.(table := u, messages := Detach(s.messages, t.Keys)[s.nextMessage := message],
       nextRow := s.nextRow + 1, nextMessage := s.nextMessage + 1)
  }

  function At(d: Delivery, e: Env): int {
    if d.timestamp.Some? then d.timestamp.value else e.now
  }

  function ContactId(e: Env): Option<Id> {
    if e.contact.Some? then Some(e.contact.value.id) else None
  }

  // The saved contact's name, else the name the sender shows.
  function ResolvedName(d: Delivery, e: Env): Option<string> {
    var saved := Trimmed(if e.contact.Some? then Some(e.contact.value.name) else None);
    if saved.Some? then saved else Trimmed(d.pushName)
  }

  function KeyOf(s: State, session: string, phone: string): Key
    requires session in s.sessions
  {
    Key(s.sessions[session].tenant, s.sessions[session].id, phone)
  }

  function NewRow(k: Key, now: int, unread: nat, at: int, text: string, name: Option<string>,
                  contact: Option<Id>)
    : Conversation
  {
    Conversation(k.tenant, Some(k.session), k.phone, now, true, unread, at, Clip(text), name, contact)
  }

  predicate Duplicate(s: State, d: Delivery) {
    d.externalId.Some? && d.externalId.value != "" && Known(s.messages, d.externalId)
  }

  // The events that may store a message, and the session they name.
  predicate Posts(ev: Event) {
    ev.Received? || ev.Outgoing? || ev.CampaignSend?
  }

  function SessionOf(ev: Event): string
    requires Posts(ev)
  {
    if ev.CampaignSend? then ev.session else ev.delivery.session
  }

  function Target(s: State, ev: Event): Key
    requires Posts(ev) && SessionOf(ev) in s.sessions
  {
    KeyOf(s, SessionOf(ev), if ev.CampaignSend? then ev.phone else NormaliseJid(ev.delivery.jid))
  }

  // Duplicates, unknown sessions and newsletters are dropped; a campaign's inline re-attachment may fail.
  ghost predicate Lands(s: State, ev: Event) {
    && Posts(ev) && SessionOf(ev) in s.sessions
    && match ev
       case Received(d, _) => !Duplicate(s, d) && !EndsWith(d.jid, "@newsletter")
       case Outgoing(d, _) => !Duplicate(s, d)
       case _ => InlineReattach(s.table, Target(s, ev)).Reattached?
  }

  ghost function ReattachedFor(s: State, ev: Event): Table
    requires Lands(s, ev)
  {
    if ev.CampaignSend? then InlineReattach(s.table, Target(s, ev)).table
    else Reattach(s.table, Target(s, ev), ev.env.hint)
  }

  function LandingOf(s: State, ev: Event): Landing
    requires Posts(ev) && SessionOf(ev) in s.sessions
  {
    var k, e := Target(s, ev), ev.env;
    match ev
    case Received(d, _) =>
      Landing(k, NewRow(k, e.now, 1, At(d, e), d.text, ResolvedName(d, e), ContactId(e)),
              Patch(At(d, e), Clip(d.text), Increment, true, ResolvedName(d, e), ContactId(e)), true, Delivered,
              d.externalId)
    case Outgoing(d, _) =>
      Landing(k, NewRow(k, e.now, 0, At(d, e), d.text, None, ContactId(e)),
              Patch(At(d, e), Clip(d.text), Keep, false, None, ContactId(e)), false, Sent, d.externalId)
    case CampaignSend(_, _, name, text, sent, sentId, _) =>
      Landing(k, NewRow(k, e.now, 0, e.now, text, Some(name), ContactId(e)),
              Patch(e.now, Clip(text), Keep, false, None, ContactId(e)), false,
              if sent then Sent else Failed, if sent then sentId else None)
  }

  function SyncTasks(s: State, session: string, chats: seq<Chat>, clocks: seq<int>, hints: seq<Id>): (tasks: seq<Task>)
    requires session in s.sessions && |clocks| == |chats| && |hints| == |chats|
  {
    seq(|chats|, i requires 0 <= i < |chats| =>
      TaskOf(s.sessions[session].tenant, s.sessions[session].id, chats[i], Draw(s.nextRow + i, clocks[i], hints[i])))
  }

  // The parameters a sync can really have: one clock reading and tie order a chat, one schedule a batch.
  predicate WellFormed(s: State, ev: Event) {
    ev.ChatsSynced? && ev.session in s.sessions ==>
      |ev.clocks| == |ev.chats| && |ev.hints| == |ev.chats| &&
      |ev.schedules| == |Batches(SyncTasks(s, ev.session, ev.chats, ev.clocks, ev.hints))|
  }

  ghost function AfterChatsSynced(s: State, ev: Event): State
    requires ev.ChatsSynced?
  {
    if ev.session !in s.sessions || !WellFormed(s, ev) then s
    else
      var t := RunBatches(s.table, Batches(SyncTasks(s, ev.session, ev.chats, ev.clocks, ev.hints)), ev.schedules);
      s.(table := t, messages := Detach(s.messages, t.Keys), nextRow := s.nextRow + |ev.chats|)
  }

  function ReadAll(messages: map<Id, Message>, tenant: Id, conversation: Id): map<Id, Message> {
    map m | m in messages ::
      if messages[m].tenant == tenant && messages[m].conversation == Some(conversation) && messages[m].inbound &&
        messages[m].status != Read
      then messages[m].(status := Read) else messages[m]
  }

  function Acked(messages: map<Id, Message>, externalId: string, status: Status): map<Id, Message> {
    map m | m in messages ::
      if messages[m].externalId == Some(externalId) then messages[m].(status := status) else messages[m]
  }

  function Orphaned(t: Table, session: Id): Table {
    map c | c in t :: if t[c].session == Some(session) then t[c].(session := None) else t[c]
  }

  ghost function Step(s: State, ev: Event): State {
    match ev
    case SessionAdded(session, tenant) =>
      if session in s.sessions then s
      else s.(sessions := s.sessions[session := Session(s.nextSession, tenant)], nextSession := s.nextSession + 1)
    case SessionDeleted(session) =>
      if session in s.sessions then
        s.(sessions := s.sessions - {session}, table := Orphaned(s.table, s.sessions[session].id))
      else s
    case ChatsSynced(_, _, _, _, _) => AfterChatsSynced(s, ev)
    case MarkAsRead(tenant, c) =>
      if c in s.table && s.table[c].tenant == tenant then
        s.(messages := ReadAll(s.messages, tenant, c), table := s.table[c := s.table[c].(unread := 0)])
      else s
    case Ack(externalId, status) =>
      if externalId == "" then s else s.(messages := Acked(s.messages, externalId, status))
    case _ => if Lands(s, ev) then LandOn(s, ReattachedFor(s, ev), LandingOf(s, ev)) else s
  }

  ghost function Exec(s: State, evs: seq<Event>): State {
    if evs == [] then s else Step(Exec(s, evs[..|evs| - 1]), evs[|evs| - 1])
  }

  lemma ExecSnoc(s: State, evs: seq<Event>, ev: Event)
    ensures Exec(s, evs + [ev]) == Step(Exec(s, evs), ev)
  {
    assert (evs + [ev])[..|evs|] == evs;
  }

  // ── Invariants of every run ──────────────────────────────────────────────

  ghost predicate TableOk(t: Table, nextRow: Id, nextSession: Id) {
    && UniqueKeys(t)
    && (forall c :: c in t ==> c < nextRow && (t[c].session.Some? ==> t[c].session.value < nextSession))
  }

  ghost predicate MessagesOk(messages: map<Id, Message>, t: Table, nextMessage: Id) {
    forall m :: m in messages ==>
      m < nextMessage && (messages[m].conversation.Some? ==>
        messages[m].conversation.value in t && t[messages[m].conversation.value].tenant == messages[m].tenant)
  }

  ghost predicate SessionsOk(sessions: map<string, Session>, nextSession: Id) {
    && (forall a :: a in sessions ==> sessions[a].id < nextSession)
    && (forall a, b :: a in sessions && b in sessions && sessions[a].id == sessions[b].id ==> a == b)
  }

  ghost predicate Inv(s: State) {
    TableOk(s.table, s.nextRow, s.nextSession) && MessagesOk(s.messages, s.table, s.nextMessage) &&
      SessionsOk(s.sessions, s.nextSession)
  }

  // What either re-attachment does to the rows that stay: at most their session changes.
  ghost predicate Survivors(t: Table, u: Table, k: Key) {
    && u.Keys <= t.Keys
    && (forall c :: c in u ==>
          u[c] == t[c].(session := u[c].session) && (u[c].session == t[c].session || HasKey(u[c], k)))
    && (forall c :: c in t && t[c].session.Some? ==> c in u && u[c] == t[c])
  }

  lemma ReattachSurvivors(t: Table, k: Key, hint: Id)
    requires UniqueKeys(t)
    ensures UniqueKeys(Reattach(t, k, hint)) && Survivors(t, Reattach(t, k, hint), k)
  {
    ReattachTheorem(t, k, hint);
  }

  lemma InlineSurvivors(t: Table, k: Key)
    requires UniqueKeys(t) && InlineReattach(t, k).Reattached?
    ensures UniqueKeys(InlineReattach(t, k).table) && Survivors(t, InlineReattach(t, k).table, k)
  {
  }

  // What LandOn relies on: t is a re-attachment of the table, and the row fits the key.
  ghost predicate Prepared(s: State, t: Table, l: Landing) {
    Survivors(s.table, t, l.key) && UniqueKeys(t) && HasKey(l.row, l.key) && l.key.session < s.nextSession
  }

  lemma LandsPrepared(s: State, ev: Event)
    requires Inv(s) && Lands(s, ev)
    ensures Prepared(s, ReattachedFor(s, ev), LandingOf(s, ev))
  {
    if ev.CampaignSend? {
      InlineSurvivors(s.table, Target(s, ev));
    } else {
      ReattachSurvivors(s.table, Target(s, ev), ev.env.hint);
    }
  }

  lemma LandOnKeepsTable(s: State, t: Table, l: Landing)
    requires TableOk(s.table, s.nextRow, s.nextSession) && Prepared(s, t, l)
    ensures TableOk(LandOn(s, t, l).table, s.nextRow + 1, s.nextSession)
  {
    UpsertTheorem(t, l.key, s.nextRow, l.row, l.patch);
  }

  lemma LandOnKeepsMessages(s: State, t: Table, l: Landing)
    requires TableOk(s.table, s.nextRow, s.nextSession) && MessagesOk(s.messages, s.table, s.nextMessage) &&
               Prepared(s, t, l)
    ensures var r := LandOn(s, t, l); MessagesOk(r.messages, r.table, r.nextMessage)
  {
    UpsertTheorem(t, l.key, s.nextRow, l.row, l.patch);
  }

  lemma TasksReady(s: State, session: string, chats: seq<Chat>, clocks: seq<int>, hints: seq<Id>)
    requires TableOk(s.table, s.nextRow, s.nextSession) && session in s.sessions && |clocks| == |chats| &&
               |hints| == |chats|
    ensures var tasks := SyncTasks(s, session, chats, clocks, hints);
            && ReadyTasks(s.table, tasks, s.sessions[session].id)
            && forall id :: id in NewIds(tasks) ==> s.nextRow <= id < s.nextRow + |chats|
  {
    var tasks := SyncTasks(s, session, chats, clocks, hints);
    forall task | task in tasks && task.Sync?
      ensures FreshFor(s.table, task) && s.nextRow <= task.id < s.nextRow + |chats| &&
                task.key.session == s.sessions[session].id
    {
      var i :| 0 <= i < |tasks| && tasks[i] == task;
    }
  }

  lemma SyncKeepsInv(s: State, ev: Event)
    requires Inv(s) && ev.ChatsSynced?
    ensures Inv(AfterChatsSynced(s, ev))
  {
    if ev.session in s.sessions && WellFormed(s, ev) {
      var tasks := SyncTasks(s, ev.session, ev.chats, ev.clocks, ev.hints);
      TasksReady(s, ev.session, ev.chats, ev.clocks, ev.hints);
      SyncKeepsKeys(s.table, tasks, ev.schedules, s.sessions[ev.session].id);
    }
  }

  lemma SessionDeletedKeepsInv(s: State, session: string)
    requires Inv(s) && session in s.sessions
    ensures Inv(Step(s, SessionDeleted(session)))
  {
    var t, u := s.table, Orphaned(s.table, s.sessions[session].id);
    forall c, d | c in u && d in u && SameKey(u[c], u[d]) ensures c == d {
      assert SameKey(t[c], t[d]);
    }
  }

  lemma MarkAsReadKeepsInv(s: State, tenant: Id, c: Id)
    requires Inv(s)
    ensures Inv(Step(s, MarkAsRead(tenant, c)))
  {
    if c in s.table && s.table[c].tenant == tenant {
      var t, u := s.table, s.table[c := s.table[c].(unread := 0)];
      forall a, b | a in u && b in u && SameKey(u[a], u[b]) ensures a == b {
        assert SameKey(t[a], t[b]);
      }
    }
  }

  lemma LandKeepsInv(s: State, ev: Event)
    requires Inv(s) && Lands(s, ev)
    ensures Inv(LandOn(s, ReattachedFor(s, ev), LandingOf(s, ev)))
  {
    LandsPrepared(s, ev);
    LandOnKeepsTable(s, ReattachedFor(s, ev), LandingOf(s, ev));
    LandOnKeepsMessages(s, ReattachedFor(s, ev), LandingOf(s, ev));
  }

  lemma StepKeepsInv(s: State, ev: Event)
    requires Inv(s)
    ensures Inv(Step(s, ev))
  {
    match ev
    case SessionAdded(_, _) =>
    case SessionDeleted(session) => if session in s.sessions { SessionDeletedKeepsInv(s, session); }
    case ChatsSynced(_, _, _, _, _) => SyncKeepsInv(s, ev);
    case MarkAsRead(tenant, c) => MarkAsReadKeepsInv(s, tenant, c);
    case Ack(_, _) =>
    case _ => if Lands(s, ev) { LandKeepsInv(s, ev); }
  }

  lemma {:induction false} RunKeepsInv(s: State, evs: seq<Event>)
    requires Inv(s)
    ensures Inv(Exec(s, evs))
  {
    if evs != [] {
      RunKeepsInv(s, evs[..|evs| - 1]);
      StepKeepsInv(Exec(s, evs[..|evs| - 1]), evs[|evs| - 1]);
    }
  }

  // At most one conversation per (tenant, session, number) in every run, under every interleaving
  // of every sync.
  lemma IdentityInEveryRun(evs: seq<Event>, c: Id, d: Id)
    requires c in Exec(EMPTY, evs).table && d in Exec(EMPTY, evs).table
    requires SameKey(Exec(EMPTY, evs).table[c], Exec(EMPTY, evs).table[d])
    ensures c == d
  {
    RunKeepsInv(EMPTY, evs);
  }

  // A message's conversation exists and belongs to the message's tenant.
  lemma MessagesHaveHomes(evs: seq<Event>, m: Id)
    requires m in Exec(EMPTY, evs).messages && Exec(EMPTY, evs).messages[m].conversation.Some?
    ensures Exec(EMPTY, evs).messages[m].conversation.value in Exec(EMPTY, evs).table
    ensures Exec(EMPTY, evs).table[Exec(EMPTY, evs).messages[m].conversation.value].tenant ==
              Exec(EMPTY, evs).messages[m].tenant
  {
    RunKeepsInv(EMPTY, evs);
  }

  // ── One JID, one row ─────────────────────────────────────────────────────

  // A sync in which no batch holds two chats of one number, run to its end.
  ghost predicate Orderly(s: State, ev: Event) {
    ev.ChatsSynced? && ev.session in s.sessions && WellFormed(s, ev) ==>
      var batches := Batches(SyncTasks(s, ev.session, ev.chats, ev.clocks, ev.hints));
      ApartWithinBatches(batches) && Completes(s.table, batches, ev.schedules)
  }

  // Such a sync does what handling its chats one by one does.
  lemma SyncIsSequential(s: State, ev: Event)
    requires Inv(s) && ev.ChatsSynced? && ev.session in s.sessions && WellFormed(s, ev) && Orderly(s, ev)
    ensures AfterChatsSynced(s, ev).table == SyncAll(s.table, SyncTasks(s, ev.session, ev.chats, ev.clocks, ev.hints))
  {
    TasksReady(s, ev.session, ev.chats, ev.clocks, ev.hints);
    SyncRefinesSequential(s.table, SyncTasks(s, ev.session, ev.chats, ev.clocks, ev.hints), ev.schedules);
  }

  // The session with this id has not been deleted.
  ghost predicate SessionLives(s: State, id: Id) {
    exists a :: a in s.sessions && s.sessions[a].id == id
  }

  // Ids are never used again, so a session that is there after a step was there before it.
  lemma LivedBefore(s: State, ev: Event, id: Id)
    requires Inv(s) && id < s.nextSession && SessionLives(Step(s, ev), id)
    ensures SessionLives(s, id) && (ev.SessionDeleted? && ev.session in s.sessions ==> s.sessions[ev.session].id != id)
  {
    var a :| a in Step(s, ev).sessions && Step(s, ev).sessions[a].id == id;
    assert a in s.sessions && s.sessions[a].id == id;
  }

  lemma UpsertKeepsRow(t: Table, k: Key, id: Id, row: Conversation, p: Patch, c: Id)
    requires c != id
    ensures RowStays(t, Upsert(t, k, id, row, p), c)
  {
  }

  lemma SyncKeepsRow(s: State, ev: Event, c: Id)
    requires Inv(s) && c in s.table && ev.ChatsSynced?
    ensures RowStays(s.table, AfterChatsSynced(s, ev).table, c)
  {
    if ev.session in s.sessions && WellFormed(s, ev) && s.table[c].session.Some? {
      TasksReady(s, ev.session, ev.chats, ev.clocks, ev.hints);
      SyncKeepsRowInPlace(s.table, SyncTasks(s, ev.session, ev.chats, ev.clocks, ev.hints), ev.schedules, c);
    }
  }

  lemma LandKeepsRow(s: State, ev: Event, c: Id)
    requires Inv(s) && Lands(s, ev) && c in s.table
    ensures RowStays(s.table, LandOn(s, ReattachedFor(s, ev), LandingOf(s, ev)).table, c)
  {
    LandsPrepared(s, ev);
    var l := LandingOf(s, ev);
    UpsertKeepsRow(ReattachedFor(s, ev), l.key, s.nextRow, l.row, l.patch, c);
  }

  lemma StepKeepsRow(s: State, ev: Event, c: Id)
    requires Inv(s) && c in s.table && s.table[c].session.Some? && SessionLives(Step(s, ev), s.table[c].session.value)
    ensures RowStays(s.table, Step(s, ev).table, c)
  {
    LivedBefore(s, ev, s.table[c].session.value);
    if ev.ChatsSynced? {
      SyncKeepsRow(s, ev, c);
    } else if Lands(s, ev) {
      LandKeepsRow(s, ev, c);
    }
  }

  lemma {:induction false} SessionIdsGrow(s: State, evs: seq<Event>)
    ensures s.nextSession <= Exec(s, evs).nextSession
  {
    if evs != [] { SessionIdsGrow(s, evs[..|evs| - 1]); }
  }

  lemma {:induction false} LivedThroughout(s: State, evs: seq<Event>, id: Id)
    requires Inv(s) && id < s.nextSession && SessionLives(Exec(s, evs), id)
    ensures Inv(Exec(s, evs)) && id < Exec(s, evs).nextSession
    ensures evs != [] ==> SessionLives(Exec(s, evs[..|evs| - 1]), id)
  {
    if evs != [] {
      var init := evs[..|evs| - 1];
      RunKeepsInv(s, init);
      RunKeepsInv(s, evs);
      SessionIdsGrow(s, init);
      SessionIdsGrow(s, evs);
      LivedBefore(Exec(s, init), evs[|evs| - 1], id);
    }
  }

  // Once a key has a row it keeps that row for as long as the session lives, in every run and
  // under every interleaving of every sync.
  lemma {:induction false} RowOfStays(s: State, evs: seq<Event>, k: Key)
    requires Inv(s) && Keyed(s.table, k) && SessionLives(Exec(s, evs), k.session)
    ensures Inv(Exec(s, evs)) && Keyed(Exec(s, evs).table, k) && RowOf(Exec(s, evs).table, k) == RowOf(s.table, k)
  {
    if evs != [] {
      var init, ev := evs[..|evs| - 1], evs[|evs| - 1];
      var u, c := Exec(s, init), RowOf(s.table, k);
      LivedThroughout(s, evs, k.session);
      RowOfStays(s, init, k);
      StepKeepsRow(u, ev, c);
      StepKeepsInv(u, ev);
      RowIs(Step(u, ev).table, k, c);
    }
  }

  lemma LandsOnTarget(s: State, ev: Event)
    requires Inv(s) && Lands(s, ev)
    ensures var r := Step(s, ev); var k := Target(s, ev);
            s.nextMessage in r.messages && Keyed(r.table, k) &&
              r.messages[s.nextMessage].conversation == Some(RowOf(r.table, k))
  {
    LandsPrepared(s, ev);
    var l := LandingOf(s, ev);
    UpsertTheorem(ReattachedFor(s, ev), l.key, s.nextRow, l.row, l.patch);
  }

  // What a stored message makes of its conversation's row, in terms of the write it lands with.
  lemma LandedOn(s: State, ev: Event)
    requires Inv(s) && Lands(s, ev)
    ensures var before := Found(s.table, Target(s, ev), ev.env.hint); var l := LandingOf(s, ev);
            var r := Step(s, ev);
            && Keyed(r.table, l.key)
            && r.table[RowOf(r.table, l.key)] ==
                if before.Some? then Patched(before.value.(session := Some(l.key.session)), l.patch) else l.row
  {
    var l, t := LandingOf(s, ev), ReattachedFor(s, ev);
    LandsPrepared(s, ev);
    ReattachFinds(s.table, l.key, ev.env.hint);
    if ev.CampaignSend? { InlineFinds(s.table, l.key, ev.env.hint); }
    UpsertTheorem(t, l.key, s.nextRow, l.row, l.patch);
  }

  // What a stored message leaves on its conversation: the number, tenant and session it is of, the
  // first 500 characters of its text, and its own time, or the clock's where it has none.
  lemma LandedRow(s: State, ev: Event)
    requires Inv(s) && Lands(s, ev)
    ensures var r := Step(s, ev); var k := Target(s, ev);
            Keyed(r.table, k) &&
            var row, session := r.table[RowOf(r.table, k)], s.sessions[SessionOf(ev)];
            && row.phone == (if ev.CampaignSend? then ev.phone else NormaliseJid(ev.delivery.jid))
            && row.tenant == session.tenant && row.session == Some(session.id)
            && IsClipped(row.lastMessageText, if ev.CampaignSend? then ev.text else ev.delivery.text)
            && row.lastMessageAt == (if !ev.CampaignSend? && ev.delivery.timestamp.Some?
                                     then ev.delivery.timestamp.value else ev.env.now)
  {
    LandedOn(s, ev);
  }

  // The name a received message gives: the saved contact's, else the one the sender shows.
  ghost predicate GivesName(d: Delivery, e: Env, name: Option<string>) {
    if e.contact.Some? && !Blank(e.contact.value.name) then name.Some? && IsTrimmed(name.value, e.contact.value.name)
    else if d.pushName.Some? && !Blank(d.pushName.value) then name.Some? && IsTrimmed(name.value, d.pushName.value)
    else name.None?
  }

  lemma ResolvedNameMeans(d: Delivery, e: Env)
    ensures GivesName(d, e, ResolvedName(d, e))
  {
    if e.contact.Some? { TrimmedMeans(e.contact.value.name); }
    if d.pushName.Some? { TrimmedMeans(d.pushName.value); }
  }

  // What it keeps of the row it found, and what it starts a new one with: a received message counts
  // as unread, reopens the conversation and gives it a name if it has one; a campaign names a new
  // conversation only; every message links the contact that was found.
  lemma LandedState(s: State, ev: Event)
    requires Inv(s) && Lands(s, ev)
    ensures var r := Step(s, ev); var k := Target(s, ev); var found := Found(s.table, k, ev.env.hint);
            Keyed(r.table, k) &&
            var row := r.table[RowOf(r.table, k)];
            && row.unread == (if found.Some? then found.value.unread else 0) + (if ev.Received? then 1 else 0)
            && row.createdAt == (if found.Some? then found.value.createdAt else ev.env.now)
            && row.open == (ev.Received? || found.None? || found.value.open)
            && row.contactId == (if ev.env.contact.Some? then Some(ev.env.contact.value.id)
                                 else if found.Some? then found.value.contactId else None)
  {
    LandedOn(s, ev);
  }

  lemma LandedName(s: State, ev: Event)
    requires Inv(s) && Lands(s, ev)
    ensures var r := Step(s, ev); var k := Target(s, ev); var found := Found(s.table, k, ev.env.hint);
            Keyed(r.table, k) &&
            var row := r.table[RowOf(r.table, k)];
            var kept := if found.Some? then found.value.contactName else None;
            && (ev.Received? ==>
                  if GivesName(ev.delivery, ev.env, None) then row.contactName == kept
                  else GivesName(ev.delivery, ev.env, row.contactName))
            && (ev.Outgoing? ==> row.contactName == kept)
            && (ev.CampaignSend? ==> row.contactName == if found.Some? then kept else Some(ev.name))
  {
    LandedOn(s, ev);
    if ev.Received? { ResolvedNameMeans(ev.delivery, ev.env); }
  }

  // Once a key has a row, every message ever stored under the key lands in that row.
  lemma KeyedRowIsUsed(s: State, k: Key, between: seq<Event>, ev: Event)
    requires Inv(s) && Keyed(s.table, k)
    requires Lands(Exec(s, between), ev) && Target(Exec(s, between), ev) == k
    ensures var u := Exec(s, between); var r := Step(u, ev);
            u.nextMessage in r.messages && r.messages[u.nextMessage].conversation == Some(RowOf(s.table, k))
  {
    var u, c := Exec(s, between), RowOf(s.table, k);
    assert u.sessions[SessionOf(ev)].id == k.session;
    RowOfStays(s, between, k);
    LandsOnTarget(u, ev);
    StepKeepsRow(u, ev, c);
    StepKeepsInv(u, ev);
    RowIs(Step(u, ev).table, k, c);
  }

  // So two messages with the same session and normalised number, stored at any two moments of a
  // run by any of the writers, are in the same conversation.
  lemma SameNumberSameConversation(s: State, first: Event, between: seq<Event>, second: Event)
    requires Inv(s) && Lands(s, first)
    requires Lands(Exec(Step(s, first), between), second)
    requires Target(Exec(Step(s, first), between), second) == Target(s, first)
    ensures var a := Step(s, first); var u := Exec(a, between); var b := Step(u, second);
            s.nextMessage in a.messages && u.nextMessage in b.messages &&
            a.messages[s.nextMessage].conversation.Some? &&
            b.messages[u.nextMessage].conversation == a.messages[s.nextMessage].conversation
  {
    LandsOnTarget(s, first);
    StepKeepsInv(s, first);
    KeyedRowIsUsed(Step(s, first), Target(s, first), between, second);
  }

  // A sync writes a chat under the very key that messages of the same JID are stored under.
  lemma SyncedChatHasTarget(s: State, ev: Event, i: nat, second: Event)
    requires Inv(s) && ev.ChatsSynced? && ev.session in s.sessions && WellFormed(s, ev) && i < |ev.chats|
    requires SyncTasks(s, ev.session, ev.chats, ev.clocks, ev.hints)[i].Sync?
    requires (second.Received? || second.Outgoing?) && SessionOf(second) == ev.session
    requires NormaliseJid(second.delivery.jid) == NormaliseJid(ev.chats[i].jid)
    ensures Target(Step(s, ev), second) == SyncTasks(s, ev.session, ev.chats, ev.clocks, ev.hints)[i].key
  {
  }

  // A chat that may make a new row: it has text, unread messages or a name, and is no newsletter or broadcast.
  predicate MayCreate(c: Chat) {
    SaysSomething(c) && !IsIgnored(c.jid)
  }

  // A sync adds rows only for such chats, each under its own new id, under every schedule.
  lemma SyncedRowsAreReal(s: State, ev: Event, c: Id) returns (i: nat)
    requires Inv(s) && ev.ChatsSynced? && ev.session in s.sessions && WellFormed(s, ev)
    requires c in AfterChatsSynced(s, ev).table && c !in s.table
    ensures i < |ev.chats| && c == s.nextRow + i && MayCreate(ev.chats[i])
  {
    var tasks := SyncTasks(s, ev.session, ev.chats, ev.clocks, ev.hints);
    BatchesCover(tasks);
    var task := SyncedRowsHaveContent(s.table, Batches(tasks), ev.schedules, c);
    i :| 0 <= i < |tasks| && tasks[i] == task;
    var session := s.sessions[ev.session];
    SkippedIff(session.tenant, session.id, ev.chats[i], Draw(s.nextRow + i, ev.clocks[i], ev.hints[i]));
  }

  // ── Redelivery ───────────────────────────────────────────────────────────

  predicate Identified(d: Delivery) {
    d.externalId.Some? && d.externalId.value != ""
  }

  // The event is a redelivery: same kind, same delivery, whatever the environment supplies.
  predicate IsCopy(a: Event, b: Event) {
    || (a.Received? && b.Received? && a.delivery == b.delivery && Identified(a.delivery))
    || (a.Outgoing? && b.Outgoing? && a.delivery == b.delivery && Identified(a.delivery))
  }

  predicate Repeats(evs: seq<Event>, ev: Event) {
    exists i :: 0 <= i < |evs| && IsCopy(evs[i], ev)
  }

  /** The stream without the later copies. */
  function WithoutCopies(evs: seq<Event>): seq<Event> {
    if evs == [] then []
    else
      var init := WithoutCopies(evs[..|evs| - 1]);
      if Repeats(evs[..|evs| - 1], evs[|evs| - 1]) then init else init + [evs[|evs| - 1]]
  }

  predicate SessionTableFixed(evs: seq<Event>) {
    forall i :: 0 <= i < |evs| ==> !evs[i].SessionAdded? && !evs[i].SessionDeleted?
  }

  // The delivery has been dealt with: its message is stored, or it is one the handler drops.
  ghost predicate Settled(s: State, ev: Event) {
    && (ev.Received? || ev.Outgoing?) && Identified(ev.delivery)
    && (Known(s.messages, ev.delivery.externalId) || ev.delivery.session !in s.sessions
        || (ev.Received? && EndsWith(ev.delivery.jid, "@newsletter")))
  }

  lemma SettledIsIgnored(s: State, ev: Event)
    requires Settled(s, ev)
    ensures Step(s, ev) == s
  {
  }

  lemma ProcessedIsSettled(s: State, a: Event, b: Event)
    requires IsCopy(a, b) && Inv(s)
    ensures Settled(Step(s, a), b)
  {
    if Lands(s, a) {
      LandsOnTarget(s, a);
      assert Step(s, a).messages[s.nextMessage].externalId == b.delivery.externalId;
    }
  }

  lemma StepKeepsExternalIds(s: State, ev: Event, m: Id)
    requires Inv(s) && m in s.messages
    ensures m in Step(s, ev).messages && Step(s, ev).messages[m].externalId == s.messages[m].externalId
  {
  }

  lemma StepKeepsSettled(s: State, ev: Event, d: Event)
    requires Inv(s) && Settled(s, d) && !ev.SessionAdded? && !ev.SessionDeleted?
    ensures Settled(Step(s, ev), d)
  {
    if m :| m in s.messages && s.messages[m].externalId == d.delivery.externalId {
      StepKeepsExternalIds(s, ev, m);
    }
  }

  lemma {:induction false} RepeatsSettled(s: State, evs: seq<Event>, ev: Event)
    requires Inv(s) && SessionTableFixed(evs) && Repeats(evs, ev)
    ensures Inv(Exec(s, evs)) && Settled(Exec(s, evs), ev)
  {
    var init, last := evs[..|evs| - 1], evs[|evs| - 1];
    RunKeepsInv(s, init);
    StepKeepsInv(Exec(s, init), last);
    if IsCopy(last, ev) {
      ProcessedIsSettled(Exec(s, init), last, ev);
    } else {
      var i :| 0 <= i < |evs| && IsCopy(evs[i], ev);
      assert init[i] == evs[i];
      RepeatsSettled(s, init, ev);
      StepKeepsSettled(Exec(s, init), last, ev);
    }
  }

  // At-least-once delivery is safe: with a fixed session table, a stream with redeliveries leaves
  // exactly the state it leaves with every later copy removed, whatever else happens in between.
  lemma {:induction false} RedeliveryIsSafe(s: State, evs: seq<Event>)
    requires Inv(s) && SessionTableFixed(evs)
    ensures Exec(s, evs) == Exec(s, WithoutCopies(evs))
  {
    if evs != [] {
      var init, last := evs[..|evs| - 1], evs[|evs| - 1];
      RedeliveryIsSafe(s, init);
      if Repeats(init, last) {
        RepeatsSettled(s, init, last);
        SettledIsIgnored(Exec(s, init), last);
      } else {
        assert (WithoutCopies(init) + [last])[..|WithoutCopies(init)|] == WithoutCopies(init);
      }
    }
  }
}
