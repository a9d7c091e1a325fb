// The inbox read row by row: which events store a message, change a message, a
// session or a conversation, and to what.

module InboxRows {
  import opened Common
  import opened Conversations
  import opened ChatSync
  import opened ChatSyncKeys
  import opened Inbox
  import opened InboxUnread

  // ── Storing a message ────────────────────────────────────────────────────

  ghost predicate AlreadyStored(s: State, externalId: Option<string>) {
    externalId.Some? && externalId.value != "" && exists m :: m in s.messages && s.messages[m].externalId == externalId
  }

  // A delivery is stored unless its session is gone or its id is stored already; a received one also
  // unless a newsletter sent it; a campaign's message unless two orphans and no keeper share its number.
  ghost predicate IsStored(s: State, ev: Event) {
    match ev
    case Received(d, _) =>
      d.session in s.sessions && !AlreadyStored(s, d.externalId) && !EndsWith(d.jid, "@newsletter")
    case Outgoing(d, _) => d.session in s.sessions && !AlreadyStored(s, d.externalId)
    case CampaignSend(session, phone, _, _, _, _, _) =>
      session in s.sessions &&
      (Keyed(s.table, KeyOf(s, session, phone)) || |Orphans(s.table, s.sessions[session].tenant, phone)| <= 1)
    case _ => false
  }

  lemma StoredIff(s: State, ev: Event)
    requires Inv(s)
    ensures s.nextMessage in Step(s, ev).messages <==> IsStored(s, ev)
    ensures Posts(ev) && !IsStored(s, ev) ==> Step(s, ev) == s
  {
    if ev.CampaignSend? && ev.session in s.sessions { InlineFailsIff(s.table, Target(s, ev)); }
    if Lands(s, ev) { LandsOnTarget(s, ev); }
  }

  // The stored message belongs to its session's tenant and to the row of its number. A received one is
  // inbound and delivered, one sent from the phone is sent, and a campaign's is sent, with the
  // engine's id, or failed.
  lemma StoredMessage(s: State, ev: Event)
    requires Inv(s) && IsStored(s, ev)
    ensures var r := Step(s, ev); var k := Target(s, ev);
            && s.nextMessage in r.messages && Keyed(r.table, k)
            && r.messages[s.nextMessage] ==
                Message(s.sessions[SessionOf(ev)].tenant, Some(RowOf(r.table, k)), ev.Received?,
                        if ev.Received? then Delivered else if ev.CampaignSend? && !ev.sent then Failed else Sent,
                        if !ev.CampaignSend? then ev.delivery.externalId else if ev.sent then ev.sentId else None)
  {
    StoredIff(s, ev);
    LandsOnTarget(s, ev);
  }

  // ── A message that is there ──────────────────────────────────────────────

  ghost predicate MarksRead(s: State, ev: Event, m: Message) {
    && ev.MarkAsRead? && ev.conversation in s.table && s.table[ev.conversation].tenant == ev.tenant
    && m.inbound && m.conversation == Some(ev.conversation)
  }

  ghost predicate Acks(ev: Event, m: Message) {
    ev.Ack? && ev.externalId != "" && m.externalId == Some(ev.externalId)
  }

  // What an event leaves of a stored message: it is never deleted, and changes in two ways only. Its
  // status changes when an inbound one of a conversation that is marked as read becomes READ, or an
  // acknowledgement of its engine id says so; and it loses its conversation when that is deleted.
  ghost predicate MessageAfter(s: State, ev: Event, m: Message, t: Table, after: Message) {
    && after.tenant == m.tenant && after.inbound == m.inbound && after.externalId == m.externalId
    && after.status == (if MarksRead(s, ev, m) then Read else if Acks(ev, m) then ev.status else m.status)
    && after.conversation == if m.conversation.Some? && m.conversation.value in t then m.conversation else None
  }

  lemma LandingMoves(s: State, ev: Event, m: Id)
    requires Inv(s) && m in s.messages && Lands(s, ev)
    ensures var r := Step(s, ev); m in r.messages && MessageAfter(s, ev, s.messages[m], r.table, r.messages[m])
  {
    LandsPrepared(s, ev);
    var l := LandingOf(s, ev);
    UpsertTheorem(ReattachedFor(s, ev), l.key, s.nextRow, l.row, l.patch);
  }

  lemma QuietMoves(s: State, ev: Event, m: Id)
    requires Inv(s) && m in s.messages && !Posts(ev) && !ev.ChatsSynced?
    ensures var r := Step(s, ev); m in r.messages && MessageAfter(s, ev, s.messages[m], r.table, r.messages[m])
  {
  }

  lemma MessageMoves(s: State, ev: Event, m: Id)
    requires Inv(s) && m in s.messages
    ensures var r := Step(s, ev); m in r.messages && MessageAfter(s, ev, s.messages[m], r.table, r.messages[m])
  {
    if Posts(ev) {
      if Lands(s, ev) { LandingMoves(s, ev, m); }
    } else if !ev.ChatsSynced? {
      QuietMoves(s, ev, m);
    }
  }

  // ── Sessions ─────────────────────────────────────────────────────────────

  // A session is added under the engine's id, with an id of its own, and goes when it is deleted;
  // nothing else touches the sessions.
  lemma SessionMoves(s: State, ev: Event, a: string)
    ensures a in Step(s, ev).sessions <==>
              (a in s.sessions && !(ev.SessionDeleted? && ev.session == a)) || (ev.SessionAdded? && ev.session == a)
    ensures a in Step(s, ev).sessions ==>
              Step(s, ev).sessions[a] == if a in s.sessions then s.sessions[a] else Session(s.nextSession, ev.tenant)
  {
  }

  // ── Conversations ────────────────────────────────────────────────────────

  // Deleting a session leaves its conversations as orphans, marking one as read clears its counter,
  // and acknowledgements and new sessions leave every row alone.
  lemma QuietRows(s: State, ev: Event)
    requires !Posts(ev) && !ev.ChatsSynced?
    ensures var r := Step(s, ev);
            && r.table.Keys == s.table.Keys
            && forall c :: c in s.table ==>
                 r.table[c] ==
                   if ev.SessionDeleted? && ev.session in s.sessions &&
                        s.table[c].session == Some(s.sessions[ev.session].id) then s.table[c].(session := None)
                   else if ev.MarkAsRead? && ev.conversation == c && s.table[c].tenant == ev.tenant
                   then s.table[c].(unread := 0)
                   else s.table[c]
  {
  }

  // Re-attaching and inserting or refreshing change one row of the number and delete its other orphans.
  ghost predicate OneRowChanged(t: Table, u: Table, k: Key, c: Id, id: Id) {
    && Keyed(u, k) && Orphans(u, k.tenant, k.phone) == map[] && u.Keys <= t.Keys + {id}
    && (c in t ==> c == RowOf(u, k) || IsOrphan(t[c], k.tenant, k.phone) || (c in u && u[c] == t[c]))
  }

  lemma UpsertLeavesNoOrphan(t: Table, k: Key, id: Id, row: Conversation, p: Patch)
    requires UniqueKeys(t) && id !in t && HasKey(row, k) && Orphans(t, k.tenant, k.phone) == map[]
    ensures Orphans(Upsert(t, k, id, row, p), k.tenant, k.phone) == map[]
  {
    var u := Upsert(t, k, id, row, p);
    forall d | d in u ensures !IsOrphan(u[d], k.tenant, k.phone) {
      assert d in t ==> d !in Orphans(t, k.tenant, k.phone);
    }
  }

  lemma ReattachedRows(t: Table, k: Key, hint: Id, id: Id, row: Conversation, p: Patch, c: Id)
    requires UniqueKeys(t) && id !in t && HasKey(row, k)
    ensures OneRowChanged(t, Upsert(Reattach(t, k, hint), k, id, row, p), k, c, id)
  {
    var v := Reattach(t, k, hint);
    ReattachTheorem(t, k, hint);
    UpsertTheorem(v, k, id, row, p);
    UpsertLeavesNoOrphan(v, k, id, row, p);
    if c in v && HasKey(v[c], k) { RowIs(v, k, c); }
  }

  // A stored message changes one row, its number's; the other orphans of the number are deleted, and
  // every other row stays as it is.
  lemma OtherRowsStay(s: State, ev: Event, c: Id)
    requires Inv(s) && IsStored(s, ev)
    ensures OneRowChanged(s.table, Step(s, ev).table, Target(s, ev), c, s.nextRow)
  {
    StoredIff(s, ev);
    LandsPrepared(s, ev);
    var l := LandingOf(s, ev);
    if ev.CampaignSend? { InlineFinds(s.table, l.key, ev.env.hint); }
    ReattachedRows(s.table, l.key, ev.env.hint, s.nextRow, l.row, l.patch, c);
  }
}
