// What a campaign run meets in the inbox: its own re-attachment of each
// recipient's conversation, and when that makes the run throw.

module CampaignInbox {
  import opened Common
  import opened Conversations
  import opened ChatSync
  import opened ChatSyncRaces
  import opened Inbox

  // The conversation writes of a run over a snapshot: one send a recipient, each number once.
  ghost predicate SendsFor(session: string, sends: seq<Event>) {
    && (forall i :: 0 <= i < |sends| ==> sends[i].CampaignSend? && sends[i].session == session)
    && (forall i, j :: 0 <= i < j < |sends| ==> sends[i].phone != sends[j].phone)
  }

  // What the unique index allows the inline re-attachment: a keeper, or at most one orphan.
  ghost predicate Clear(t: Table, k: Key) {
    Keyed(t, k) || |Orphans(t, k.tenant, k.phone)| <= 1
  }

  lemma ClearIsLocal(t: Table, u: Table, k: Key)
    requires Slice(t, Spot(k.tenant, k.phone)) == Slice(u, Spot(k.tenant, k.phone))
    ensures Clear(t, k) <==> Clear(u, k)
  {
    KeyedInSlice(t, k);
    KeyedInSlice(u, k);
  }

  lemma UpsertElsewhere(t: Table, k: Key, id: Id, row: Conversation, p: Patch, other: Spot)
    requires id !in t && HasKey(row, k) && other != Spot(k.tenant, k.phone)
    ensures Slice(Upsert(t, k, id, row, p), other) == Slice(t, other)
  {
  }

  lemma InlineElsewhere(t: Table, k: Key, other: Spot)
    requires InlineReattach(t, k).Reattached? && other != Spot(k.tenant, k.phone)
    ensures Slice(InlineReattach(t, k).table, other) == Slice(t, other)
  {
  }

  lemma SendElsewhere(s: State, ev: Event, other: Spot)
    requires Inv(s) && ev.CampaignSend? && ev.session in s.sessions
    requires other != Spot(s.sessions[ev.session].tenant, ev.phone)
    ensures Slice(Step(s, ev).table, other) == Slice(s.table, other)
  {
    if Lands(s, ev) {
      LandsPrepared(s, ev);
      var l := LandingOf(s, ev);
      InlineElsewhere(s.table, l.key, other);
      UpsertElsewhere(ReattachedFor(s, ev), l.key, s.nextRow, l.row, l.patch, other);
    }
  }

  lemma {:induction false} SendsElsewhere(s: State, session: string, sends: seq<Event>, other: Spot)
    requires Inv(s) && session in s.sessions
    requires forall i :: 0 <= i < |sends| ==>
               sends[i].CampaignSend? && sends[i].session == session &&
                 other != Spot(s.sessions[session].tenant, sends[i].phone)
    ensures Inv(Exec(s, sends)) && Exec(s, sends).sessions == s.sessions
    ensures Slice(Exec(s, sends).table, other) == Slice(s.table, other)
  {
    if sends != [] {
      var init, last := sends[..|sends| - 1], sends[|sends| - 1];
      SendsElsewhere(s, session, init, other);
      SendElsewhere(Exec(s, init), last, other);
      StepKeepsInv(Exec(s, init), last);
    }
  }

  lemma SendLandsIff(s: State, session: string, sends: seq<Event>, i: nat)
    requires Inv(s) && session in s.sessions && SendsFor(session, sends) && i < |sends|
    ensures Lands(Exec(s, sends[..i]), sends[i]) <==> Clear(s.table, KeyOf(s, session, sends[i].phone))
  {
    var k := KeyOf(s, session, sends[i].phone);
    SendsElsewhere(s, session, sends[..i], Spot(k.tenant, k.phone));
    var u := Exec(s, sends[..i]);
    InlineFailsIff(u.table, k);
    ClearIsLocal(s.table, u.table, k);
  }

  // A run over a snapshot of different numbers gets through its conversation writes, with no other
  // event in between, if and only if none of its numbers has two orphans and no keeper at the start;
  // otherwise it throws at the first number that has.
  lemma SnapshotRunsIff(s: State, session: string, sends: seq<Event>)
    requires Inv(s) && session in s.sessions && SendsFor(session, sends)
    ensures (forall i :: 0 <= i < |sends| ==> Lands(Exec(s, sends[..i]), sends[i])) <==>
            (forall i :: 0 <= i < |sends| ==> Clear(s.table, KeyOf(s, session, sends[i].phone)))
  {
    forall i | 0 <= i < |sends|
      ensures Lands(Exec(s, sends[..i]), sends[i]) <==> Clear(s.table, KeyOf(s, session, sends[i].phone))
    {
      SendLandsIff(s, session, sends, i);
    }
  }

  // ── A reachable inbox in which the run throws ────────────────────────────

  // The table holds exactly these rows of one number and tenant 0, numbered from 0 and equally old.
  ghost predicate Holds(t: Table, phone: string, sessions: seq<Option<Id>>) {
    && (forall c: Id :: c in t <==> c < |sessions|)
    && (forall c :: c in t ==>
          t[c].tenant == 0 && t[c].phone == phone && t[c].session == sessions[c] && t[c].createdAt == 0)
  }

  function Text(session: string, phone: string): Event {
    Outgoing(Delivery(session, phone, None, "", None, None), Env(0, None, 0))
  }

  // An outgoing message to a number the session has no conversation with adds one.
  lemma TextAdds(s: State, session: string, phone: string, held: seq<Option<Id>>)
    requires Inv(s) && Holds(s.table, phone, held) && s.nextRow == |held| && None !in held
    requires session in s.sessions && s.sessions[session].tenant == 0 && Some(s.sessions[session].id) !in held
    requires NormaliseJid(phone) == phone
    ensures var r := Step(s, Text(session, phone));
            && Inv(r) && Holds(r.table, phone, held + [Some(s.sessions[session].id)])
            && r.nextRow == |held| + 1 && r.sessions == s.sessions && r.nextSession == s.nextSession
  {
    var ev := Text(session, phone);
    StepKeepsInv(s, ev);
    var k := Target(s, ev);
    forall c | c in s.table ensures !HasKey(s.table[c], k) && !IsOrphan(s.table[c], 0, phone) {
      assert held[c] in held;
    }
    assert Orphans(s.table, 0, phone) == map[];
    assert Reattach(s.table, k, 0) == s.table;
    assert Step(s, ev).table == s.table[s.nextRow := LandingOf(s, ev).row];
  }

  function TwoSessions(): seq<Event> {
    [] + [SessionAdded("a", 0)] + [SessionAdded("b", 0)]
  }

  lemma AfterTwoSessions()
    ensures Inv(Exec(EMPTY, TwoSessions()))
    ensures Exec(EMPTY, TwoSessions()) == State(map["a" := Session(0, 0), "b" := Session(1, 0)], map[], map[], 2, 0, 0)
  {
    assert Exec(EMPTY, []) == EMPTY;
    ExecSnoc(EMPTY, [], SessionAdded("a", 0));
    ExecSnoc(EMPTY, [] + [SessionAdded("a", 0)], SessionAdded("b", 0));
    RunKeepsInv(EMPTY, TwoSessions());
  }

  lemma TwoConversations(phone: string)
    requires NormaliseJid(phone) == phone
    ensures var s := Exec(EMPTY, TwoSessions() + [Text("a", phone)] + [Text("b", phone)]);
            && Inv(s) && Holds(s.table, phone, [Some(0), Some(1)]) && s.nextSession == 2
            && s.sessions == map["a" := Session(0, 0), "b" := Session(1, 0)]
  {
    AfterTwoSessions();
    ExecSnoc(EMPTY, TwoSessions(), Text("a", phone));
    ExecSnoc(EMPTY, TwoSessions() + [Text("a", phone)], Text("b", phone));
    TextAdds(Exec(EMPTY, TwoSessions()), "a", phone, []);
    assert [] + [Some(0)] == [Some(0)] && [Some(0)] + [Some(1)] == [Some(0), Some(1)];
    TextAdds(Exec(EMPTY, TwoSessions() + [Text("a", phone)]), "b", phone, [Some(0)]);
  }

  lemma OneOrphan(s: State, phone: string)
    requires Holds(s.table, phone, [Some(0), Some(1)])
    requires s.sessions == map["a" := Session(0, 0), "b" := Session(1, 0)]
    ensures var r := Step(s, SessionDeleted("a"));
            Holds(r.table, phone, [None, Some(1)]) && r.sessions == map["b" := Session(1, 0)]
  {
  }

  // Deleting both sessions leaves two orphans.
  lemma TwoOrphans(s: State, phone: string)
    requires Holds(s.table, phone, [Some(0), Some(1)]) && s.nextSession == 2
    requires s.sessions == map["a" := Session(0, 0), "b" := Session(1, 0)]
    ensures var r := Step(Step(Step(s, SessionDeleted("a")), SessionDeleted("b")), SessionAdded("c", 0));
            Holds(r.table, phone, [None, None]) && r.sessions == map["c" := Session(2, 0)]
  {
    OneOrphan(s, phone);
    var two := Step(Step(s, SessionDeleted("a")), SessionDeleted("b"));
    assert Holds(two.table, phone, [None, None]) && two.sessions == map[];
  }

  lemma OrphansClash(t: Table, k: Key, hint: Id)
    requires UniqueKeys(t) && k.tenant == 0 && Holds(t, k.phone, [None, None])
    ensures InlineReattach(t, k) == KeyViolation && Keyed(Reattach(t, k, hint), k)
    ensures Orphans(t, k.tenant, k.phone).Keys == {0, 1} && !Keyed(t, k) && TiedOrphans(t, k, 0, 1)
  {
    assert Orphans(t, 0, k.phone).Keys == {0, 1};
    InlineFailsIff(t, k);
    ReattachTheorem(t, k, hint);
  }

  // A number written to from two sessions that are deleted afterwards, and a third session.
  function TwoDeletedSessions(phone: string): seq<Event> {
    TwoSessions() + [Text("a", phone)] + [Text("b", phone)]
    + [SessionDeleted("a")] + [SessionDeleted("b")] + [SessionAdded("c", 0)]
  }

  lemma AfterDeletedSessions(phone: string)
    requires '@' !in phone
    ensures var s := Exec(EMPTY, TwoDeletedSessions(phone));
            Inv(s) && Holds(s.table, phone, [None, None]) && s.sessions == map["c" := Session(2, 0)]
  {
    NumberAndAddressMeet(phone);
    TwoConversations(phone);
    var texts := TwoSessions() + [Text("a", phone)] + [Text("b", phone)];
    ExecSnoc(EMPTY, texts, SessionDeleted("a"));
    ExecSnoc(EMPTY, texts + [SessionDeleted("a")], SessionDeleted("b"));
    ExecSnoc(EMPTY, texts + [SessionDeleted("a")] + [SessionDeleted("b")], SessionAdded("c", 0));
    TwoOrphans(Exec(EMPTY, texts), phone);
    RunKeepsInv(EMPTY, TwoDeletedSessions(phone));
  }

  // There the inline re-attachment violates the unique index, so a campaign of the third session
  // throws at this number, while the webhook's re-attachment succeeds.
  lemma InlineFailsReachable(phone: string, hint: Id)
    requires '@' !in phone
    ensures var s := Exec(EMPTY, TwoDeletedSessions(phone));
            && "c" in s.sessions && InlineReattach(s.table, KeyOf(s, "c", phone)) == KeyViolation
            && Keyed(Reattach(s.table, KeyOf(s, "c", phone), hint), KeyOf(s, "c", phone))
  {
    AfterDeletedSessions(phone);
    var s := Exec(EMPTY, TwoDeletedSessions(phone));
    OrphansClash(s.table, KeyOf(s, "c", phone), hint);
  }

  // ── A reachable inbox in which a sync loses a conversation ───────────────

  lemma OtherSuffixStays(jid: string, suffix: string)
    requires suffix in {"@newsletter", "@broadcast"} && EndsWith(jid, suffix)
    ensures '@' in NormaliseJid(jid)
  {
    OtherSuffix(jid, suffix);
    assert jid[|jid| - |suffix|] == suffix[0] == '@';
  }

  lemma NumberIsSynced(phone: string, c: Chat, d: Draw)
    requires phone != "" && '@' !in phone && NormaliseJid(c.jid) == phone
    ensures var task := TaskOf(0, 2, c, d); task.Sync? && task.key == Key(0, 2, phone) && task.hint == d.hint
  {
    if EndsWith(c.jid, "@newsletter") { OtherSuffixStays(c.jid, "@newsletter"); }
    if EndsWith(c.jid, "@broadcast") { OtherSuffixStays(c.jid, "@broadcast"); }
  }

  function RacingSync(c: Chat, d: Chat, clocks: seq<int>): Event {
    ChatsSynced("c", [c, d], clocks, [0, 1], [LosingSchedule(0, 1)])
  }

  lemma RacingTasks(s: State, phone: string, c: Chat, d: Chat, clocks: seq<int>)
    requires s.sessions == map["c" := Session(2, 0)]
    requires phone != "" && '@' !in phone && NormaliseJid(c.jid) == phone == NormaliseJid(d.jid) && |clocks| == 2
    ensures var tasks := SyncTasks(s, "c", [c, d], clocks, [0, 1]); var k := Key(0, 2, phone);
            && |tasks| == 2 && TaskFor(tasks[0], k) && tasks[0].hint == 0
            && TaskFor(tasks[1], k) && tasks[1].hint == 1
  {
    NumberIsSynced(phone, c, Draw(s.nextRow, clocks[0], 0));
    NumberIsSynced(phone, d, Draw(s.nextRow + 1, clocks[1], 1));
  }

  lemma OneBatch(t: Table, tasks: seq<Task>, schedule: seq<nat>)
    requires 0 < |tasks| <= BATCH_SIZE
    ensures Batches(tasks) == [tasks]
    ensures RunBatches(t, [tasks], [schedule]) == RunSchedule(t, tasks, schedule).table
    ensures Completes(t, [tasks], [schedule]) <==> AllFinished(RunSchedule(t, tasks, schedule))
  {
    assert [tasks][1..] == [];
  }

  lemma RaceEmpties(t: Table, tasks: seq<Task>, k: Key)
    requires UniqueKeys(t) && k.tenant == 0 && Holds(t, k.phone, [None, None])
    requires |tasks| == 2 && TaskFor(tasks[0], k) && TaskFor(tasks[1], k) && tasks[0].hint == 0 && tasks[1].hint == 1
    ensures Batches(tasks) == [tasks] && Completes(t, [tasks], [LosingSchedule(0, 1)])
    ensures RunBatches(t, [tasks], [LosingSchedule(0, 1)]) == map[]
  {
    OrphansClash(t, k, 0);
    TieLosesConversation(t, tasks, k, 0, 1);
    OneBatch(t, tasks, LosingSchedule(0, 1));
    assert t - Orphans(t, k.tenant, k.phone).Keys == map[];
  }

  // The sync runs to its end, and leaves no conversation and no message with one.
  ghost predicate LosesAll(s: State, ev: Event) {
    && ev.ChatsSynced? && ev.session in s.sessions && WellFormed(s, ev)
    && Completes(s.table, Batches(SyncTasks(s, ev.session, ev.chats, ev.clocks, ev.hints)), ev.schedules)
    && Step(s, ev).table == map[]
    && forall m :: m in s.messages ==> m in Step(s, ev).messages && Step(s, ev).messages[m].conversation.None?
  }

  lemma RaceLosesAll(s: State, phone: string, c: Chat, d: Chat, clocks: seq<int>)
    requires Inv(s) && Holds(s.table, phone, [None, None]) && s.sessions == map["c" := Session(2, 0)]
    requires phone != "" && '@' !in phone && NormaliseJid(c.jid) == phone == NormaliseJid(d.jid) && |clocks| == 2
    ensures LosesAll(s, RacingSync(c, d, clocks))
  {
    RacingTasks(s, phone, c, d, clocks);
    RaceEmpties(s.table, SyncTasks(s, "c", [c, d], clocks, [0, 1]), Key(0, 2, phone));
  }

  // The third session syncs two chats of the number in one batch, and their calls alternate: both
  // finish, the two conversations there were are gone, and every message has lost its own.
  lemma SyncLosesConversation(phone: string, c: Chat, d: Chat, clocks: seq<int>)
    requires phone != "" && '@' !in phone && NormaliseJid(c.jid) == phone == NormaliseJid(d.jid) && |clocks| == 2
    ensures var s := Exec(EMPTY, TwoDeletedSessions(phone));
            s.table.Keys == {0, 1} && LosesAll(s, RacingSync(c, d, clocks))
  {
    AfterDeletedSessions(phone);
    RaceLosesAll(Exec(EMPTY, TwoDeletedSessions(phone)), phone, c, d, clocks);
  }
}
