// The reaction map stored on a message: emoji to the senders showing it. Both
// writers (the message.reaction webhook and reactToMessage) merge one reaction
// at a time into the stored map; the map must always equal what the history of
// reactions says, "the last reaction of every sender".

module Reactions {
  import opened Common

  type Id = nat

  datatype Jid = Jid(text: string)

  type Emoji = string

  type ReactionMap = map<Emoji, seq<Jid>>

  // A reaction whose emoji is missing, empty or white space takes the sender's reaction back.
  datatype Reaction = Reaction(sender: Jid, emoji: Emoji)

  // ── The merge ────────────────────────────────────────────────────────────

  function Without(senders: seq<Jid>, s: Jid): seq<Jid> {
    if senders == [] then []
    else if senders[0] == s then Without(senders[1..], s)
    else [senders[0]] + Without(senders[1..], s)
  }

  function Lookup(m: ReactionMap, e: Emoji): seq<Jid> {
    if e in m then m[e] else []
  }

  function Cleaned(m: ReactionMap, s: Jid): ReactionMap {
    map e | e in m && Without(m[e], s) != [] :: Without(m[e], s)
  }

  function Merge(m: ReactionMap, r: Reaction): ReactionMap {
    var cleaned := Cleaned(m, r.sender);
    if Blank(r.emoji) then cleaned
    else cleaned[r.emoji := Lookup(cleaned, r.emoji) + [r.sender]]
  }

  function MergeAll(h: seq<Reaction>): ReactionMap {
    if h == [] then map[] else Merge(MergeAll(h[..|h| - 1]), h[|h| - 1])
  }

  method FilterSenders(senders: seq<Jid>, s: Jid) returns (kept: seq<Jid>)
    ensures kept == Without(senders, s)
  {
    kept := [];
    for i := 0 to |senders|
      invariant kept + Without(senders[i..], s) == Without(senders, s)
    {
      assert senders[i..][1..] == senders[i + 1..];
      if senders[i] != s { kept := kept + [senders[i]]; }
    }
  }

  /** The loop over the stored entries, then the push of the new reaction. */
  method MergeReaction(current: ReactionMap, r: Reaction) returns (cleaned: ReactionMap)
    ensures cleaned == Merge(current, r)
  {
    cleaned := map[];
    var entries := current.Keys;
    while entries != {}
      invariant entries <= current.Keys
      invariant forall e :: e in cleaned <==> e in current && e !in entries && Without(current[e], r.sender) != []
      invariant forall e :: e in cleaned ==> cleaned[e] == Without(current[e], r.sender)
      decreases entries
    {
      var e :| e in entries;
      entries := entries - {e};
      var filtered := FilterSenders(current[e], r.sender);
      if |filtered| > 0 { cleaned := cleaned[e := filtered]; }
    }
    assert cleaned == Cleaned(current, r.sender);
    if !Blank(r.emoji) {
      cleaned := cleaned[r.emoji := (if r.emoji in cleaned then cleaned[r.emoji] else []) + [r.sender]];
    }
  }

  // ── What the history says ────────────────────────────────────────────────

  predicate Reacts(h: seq<Reaction>, s: Jid) {
    exists i :: 0 <= i < |h| && h[i].sender == s
  }

  /** The latest reaction of a sender, if it is not a blank one. */
  function Latest(h: seq<Reaction>, s: Jid): Option<Emoji> {
    if h == [] then None
    else if h[|h| - 1].sender == s then (if Blank(h[|h| - 1].emoji) then None else Some(h[|h| - 1].emoji))
    else Latest(h[..|h| - 1], s)
  }

  function LastIndex(h: seq<Reaction>, s: Jid): (i: nat)
    requires Reacts(h, s)
    ensures i < |h| && h[i].sender == s && forall j :: i < j < |h| ==> h[j].sender != s
  {
    if h[|h| - 1].sender == s then |h| - 1 else LastIndex(h[..|h| - 1], s)
  }

  /** Read from the front: the senders whose last reaction this is, in the order they gave it. */
  function Showing(h: seq<Reaction>, e: Emoji): seq<Jid> {
    if h == [] then []
    else if h[0].emoji == e && !Blank(e) && !Reacts(h[1..], h[0].sender) then [h[0].sender] + Showing(h[1..], e)
    else Showing(h[1..], e)
  }

  lemma ReactsSnoc(h: seq<Reaction>, r: Reaction, s: Jid)
    ensures Reacts(h + [r], s) <==> Reacts(h, s) || r.sender == s
  {
    if Reacts(h, s) {
      var i :| 0 <= i < |h| && h[i].sender == s;
      assert (h + [r])[i].sender == s;
    }
    assert (h + [r])[|h|] == r;
  }

  lemma {:induction false} ShowingSnoc(h: seq<Reaction>, r: Reaction, e: Emoji)
    ensures Showing(h + [r], e) ==
              Without(Showing(h, e), r.sender) + (if r.emoji == e && !Blank(e) then [r.sender] else [])
  {
    if h == [] {
      assert (h + [r])[1..] == [];
    } else {
      assert (h + [r])[1..] == h[1..] + [r];
      assert (h + [r])[0] == h[0];
      ShowingSnoc(h[1..], r, e);
      ReactsSnoc(h[1..], r, h[0].sender);
      var head := h[0].sender;
      if h[0].emoji == e && !Blank(e) && !Reacts(h[1..], head) {
        assert Showing(h, e)[1..] == Showing(h[1..], e);
      }
    }
  }

  lemma LookupMerge(m: ReactionMap, r: Reaction, e: Emoji)
    requires forall x :: x in m ==> m[x] != []
    ensures Lookup(Merge(m, r), e) ==
              Without(Lookup(m, e), r.sender) + (if r.emoji == e && !Blank(e) then [r.sender] else [])
    ensures forall x :: x in Merge(m, r) ==> Merge(m, r)[x] != []
  {
  }

  // In every history the stored map is the specification: each emoji lists exactly the senders
  // showing it, in order, and an emoji nobody shows has no entry.
  lemma {:induction false} MapFollowsHistory(h: seq<Reaction>)
    ensures forall e :: Lookup(MergeAll(h), e) == Showing(h, e)
    ensures forall e :: e in MergeAll(h) <==> Showing(h, e) != []
  {
    if h != [] {
      var init, r := h[..|h| - 1], h[|h| - 1];
      MapFollowsHistory(init);
      assert init + [r] == h;
      forall x | x in MergeAll(init) ensures MergeAll(init)[x] != [] {
        assert Lookup(MergeAll(init), x) == Showing(init, x);
      }
      forall e ensures Lookup(MergeAll(h), e) == Showing(h, e) && (e in MergeAll(h) <==> Showing(h, e) != []) {
        LookupMerge(MergeAll(init), r, e);
        ShowingSnoc(init, r, e);
      }
    }
  }

  // ── What the specification means for one sender ──────────────────────────

  lemma {:induction false} LatestCons(h: seq<Reaction>, s: Jid)
    requires h != []
    ensures Latest(h, s) == if Reacts(h[1..], s) then Latest(h[1..], s)
                            else if h[0].sender == s && !Blank(h[0].emoji) then Some(h[0].emoji) else None
  {
    if |h| > 1 {
      var init := h[..|h| - 1];
      LatestCons(init, s);
      assert h[1..][..|h| - 2] == init[1..];
      assert h[1..] == init[1..] + [h[|h| - 1]];
      ReactsSnoc(init[1..], h[|h| - 1], s);
    }
  }

  lemma {:induction false} NotShowing(h: seq<Reaction>, s: Jid, e: Emoji)
    requires !Reacts(h, s)
    ensures s !in Showing(h, e) && Latest(h, s) == None
  {
    if h != [] {
      forall i | 0 <= i < |h[1..]| ensures h[1..][i].sender != s { assert h[1..][i] == h[i + 1]; }
      assert h[0].sender != s;
      NotShowing(h[1..], s, e);
      LatestCons(h, s);
    }
  }

  lemma {:induction false} ShowingMeansLatest(h: seq<Reaction>, s: Jid, e: Emoji)
    ensures s in Showing(h, e) <==> Latest(h, s) == Some(e)
  {
    if h != [] {
      ShowingMeansLatest(h[1..], s, e);
      LatestCons(h, s);
      if !Reacts(h[1..], s) { NotShowing(h[1..], s, e); }
    }
  }

  // a and b both react in h, and a's last reaction comes before b's.
  ghost predicate Before(h: seq<Reaction>, a: Jid, b: Jid) {
    Reacts(h, a) && Reacts(h, b) && LastIndex(h, a) < LastIndex(h, b)
  }

  lemma LastIndexTail(h: seq<Reaction>, s: Jid)
    requires h != [] && Reacts(h[1..], s)
    ensures Reacts(h, s) && LastIndex(h, s) == LastIndex(h[1..], s) + 1
  {
    var i := LastIndex(h[1..], s);
    assert h[i + 1] == h[1..][i];
    forall j | i + 1 < j < |h| ensures h[j].sender != s { assert h[j] == h[1..][j - 1]; }
  }

  lemma BeforeTail(h: seq<Reaction>, a: Jid, b: Jid)
    requires h != [] && Before(h[1..], a, b)
    ensures Before(h, a, b)
  {
    LastIndexTail(h, a);
    LastIndexTail(h, b);
  }

  lemma LastIndexHead(h: seq<Reaction>)
    requires h != [] && !Reacts(h[1..], h[0].sender)
    ensures Reacts(h, h[0].sender) && LastIndex(h, h[0].sender) == 0
  {
    forall j | 0 < j < |h| ensures h[j].sender != h[0].sender { assert h[j] == h[1..][j - 1]; }
  }

  lemma HeadBefore(h: seq<Reaction>, b: Jid)
    requires h != [] && !Reacts(h[1..], h[0].sender) && Reacts(h[1..], b)
    ensures Before(h, h[0].sender, b)
  {
    LastIndexHead(h);
    LastIndexTail(h, b);
  }

  lemma ShowingHead(h: seq<Reaction>, e: Emoji)
    requires h != []
    ensures Showing(h, e) == Showing(h[1..], e)
            || (Showing(h, e) == [h[0].sender] + Showing(h[1..], e) && !Reacts(h[1..], h[0].sender))
  {
  }

  lemma {:induction false} ShowingReacts(h: seq<Reaction>, e: Emoji, i: nat)
    requires i < |Showing(h, e)|
    ensures Reacts(h, Showing(h, e)[i])
  {
    if !Reacts(h, Showing(h, e)[i]) { NotShowing(h, Showing(h, e)[i], e); }
  }

  lemma {:induction false} ShowingInOrder(h: seq<Reaction>, e: Emoji, i: nat, j: nat)
    requires i < j < |Showing(h, e)|
    ensures Before(h, Showing(h, e)[i], Showing(h, e)[j])
  {
    var list, tail := Showing(h, e), Showing(h[1..], e);
    ShowingHead(h, e);
    if list == tail {
      ShowingInOrder(h[1..], e, i, j);
      BeforeTail(h, tail[i], tail[j]);
    } else if i == 0 {
      assert list[j] == tail[j - 1];
      ShowingReacts(h[1..], e, j - 1);
      HeadBefore(h, tail[j - 1]);
    } else {
      assert list[i] == tail[i - 1] && list[j] == tail[j - 1];
      ShowingInOrder(h[1..], e, i - 1, j - 1);
      BeforeTail(h, tail[i - 1], tail[j - 1]);
    }
  }

  // One reaction per sender: everybody appears under the emoji last given and nowhere else,
  // at most once, and each list is in the order of those last reactions.
  lemma OneReactionPerSender(h: seq<Reaction>, e: Emoji, s: Jid)
    ensures s in Lookup(MergeAll(h), e) <==> Latest(h, s) == Some(e)
    ensures e in MergeAll(h) ==> MergeAll(h)[e] != []
  {
    MapFollowsHistory(h);
    ShowingMeansLatest(h, s, e);
  }

  lemma ListsInOrder(h: seq<Reaction>, e: Emoji, i: nat, j: nat)
    requires i < j < |Lookup(MergeAll(h), e)|
    ensures Before(h, Lookup(MergeAll(h), e)[i], Lookup(MergeAll(h), e)[j])
    ensures Lookup(MergeAll(h), e)[i] != Lookup(MergeAll(h), e)[j]
  {
    MapFollowsHistory(h);
    ShowingInOrder(h, e, i, j);
  }

  // ── Both writers over the whole message table ────────────────────────────

  datatype Event =
    // message.reaction: found is the message findFirst returned for the external id
    | Webhook(targetGiven: bool, sender: Jid, found: Option<Id>, emoji: Emoji)
    // reactToMessage: the caller's own session reacts
    | Own(found: Option<Id>, connected: bool, phone: string, externalIdKnown: bool, engineAccepts: bool, emoji: Emoji)

  function OwnJid(phone: string): Jid {
    Jid(phone + "@s.whatsapp.net")
  }

  /** The message and reaction an event records, if it gets past every check. */
  function Recorded(e: Event): Option<(Id, Reaction)> {
    match e
    case Webhook(given, sender, found, emoji) =>
      if given && sender.text != "" && found.Some? then Some((found.value, Reaction(sender, emoji))) else None
    case Own(found, connected, phone, known, accepts, emoji) =>
      if found.Some? && connected && phone != "" && known && accepts
      then Some((found.value, Reaction(OwnJid(phone), emoji))) else None
  }

  // A webhook reaction is recorded when it names a message that is stored and a sender; the caller's own
  // when the message and its engine id are known, the session is connected and has a number, and the
  // engine has taken it. It is recorded under the sender's address, the number's for the caller.
  lemma RecordedIff(e: Event)
    ensures e.Webhook? ==>
              Recorded(e) == if e.targetGiven && e.sender.text != "" && e.found.Some?
                             then Some((e.found.value, Reaction(e.sender, e.emoji))) else None
    ensures e.Own? && (e.found.None? || !e.connected || e.phone == "" || !e.externalIdKnown || !e.engineAccepts) ==>
              Recorded(e).None?
    ensures e.Own? && e.found.Some? && e.connected && e.phone != "" && e.externalIdKnown && e.engineAccepts ==>
              Recorded(e) == Some((e.found.value, Reaction(Jid(e.phone + "@s.whatsapp.net"), e.emoji)))
  {
  }

  function HistoryOf(events: seq<Event>, m: Id): seq<Reaction> {
    if events == [] then []
    else
      var before, last := HistoryOf(events[..|events| - 1], m), Recorded(events[|events| - 1]);
      if last.Some? && last.value.0 == m then before + [last.value.1] else before
  }

  function RowOf(rows: map<Id, ReactionMap>, m: Id): ReactionMap {
    if m in rows then rows[m] else map[] // a message without reactions yet
  }

  // Every stored map is the merge of its own message's history.
  ghost predicate Follows(rows: map<Id, ReactionMap>, events: seq<Event>) {
    forall m :: RowOf(rows, m) == MergeAll(HistoryOf(events, m))
  }

  lemma RecordedNext(events: seq<Event>, e: Event)
    ensures forall m :: HistoryOf(events + [e], m) ==
              if Recorded(e).Some? && Recorded(e).value.0 == m then HistoryOf(events, m) + [Recorded(e).value.1]
              else HistoryOf(events, m)
    ensures Recorded(e).Some? ==>
              MergeAll(HistoryOf(events, Recorded(e).value.0) + [Recorded(e).value.1])
              == Merge(MergeAll(HistoryOf(events, Recorded(e).value.0)), Recorded(e).value.1)
  {
    assert (events + [e])[..|events|] == events;
    if Recorded(e).Some? {
      var h, r := HistoryOf(events, Recorded(e).value.0), Recorded(e).value.1;
      assert (h + [r])[..|h|] == h;
    }
  }

  lemma StoreFollows(rows: map<Id, ReactionMap>, events: seq<Event>, e: Event)
    requires Follows(rows, events)
    ensures Recorded(e).None? ==> Follows(rows, events + [e])
    ensures Recorded(e).Some? ==>
              Follows(rows[Recorded(e).value.0 := Merge(RowOf(rows, Recorded(e).value.0), Recorded(e).value.1)],
                      events + [e])
  {
    RecordedNext(events, e);
  }

  // ── What a message shows after a run ─────────────────────────────────────

  // The event gives the sender's reaction to the message: a webhook that names both, or the caller's own
  // reaction, from a connected session with a number, once the engine has taken it.
  predicate Gives(e: Event, m: Id, s: Jid) {
    match e
    case Webhook(targetGiven, sender, found, _) =>
      targetGiven && sender.text != "" && found == Some(m) && sender == s
    case Own(found, connected, phone, externalIdKnown, engineAccepts, _) =>
      found == Some(m) && connected && phone != "" && externalIdKnown && engineAccepts &&
      s == Jid(phone + "@s.whatsapp.net")
  }

  /** The sender's last reaction to the message in a run, unless it took a reaction back. */
  function LastGiven(events: seq<Event>, m: Id, s: Jid): Option<Emoji> {
    if events == [] then None
    else if Gives(events[|events| - 1], m, s) then
      (if Blank(events[|events| - 1].emoji) then None else Some(events[|events| - 1].emoji))
    else LastGiven(events[..|events| - 1], m, s)
  }

  lemma LatestNext(h: seq<Reaction>, r: Reaction, s: Jid)
    ensures Latest(h + [r], s) ==
              if r.sender == s then (if Blank(r.emoji) then None else Some(r.emoji)) else Latest(h, s)
  {
    assert (h + [r])[..|h|] == h;
  }

  lemma {:induction false} LatestIsLastGiven(events: seq<Event>, m: Id, s: Jid)
    ensures Latest(HistoryOf(events, m), s) == LastGiven(events, m, s)
  {
    if events != [] {
      var init, e := events[..|events| - 1], events[|events| - 1];
      LatestIsLastGiven(init, m, s);
      RecordedIff(e);
      if Recorded(e).Some? && Recorded(e).value.0 == m { LatestNext(HistoryOf(init, m), Recorded(e).value.1, s); }
    }
  }

  // Whatever the two writers have done to the table, a message shows a sender under an emoji exactly
  // when that is the last reaction the sender gave it.
  lemma ShownIsLastGiven(rows: map<Id, ReactionMap>, events: seq<Event>, m: Id, s: Jid, e: Emoji)
    requires Follows(rows, events)
    ensures s in Lookup(RowOf(rows, m), e) <==> LastGiven(events, m, s) == Some(e)
  {
    OneReactionPerSender(HistoryOf(events, m), e, s);
    LatestIsLastGiven(events, m, s);
    assert RowOf(rows, m) == MergeAll(HistoryOf(events, m));
  }

  class ReactionStore {
    var rows: map<Id, ReactionMap>

    constructor ()
      ensures Follows(rows, [])
    {
      rows := map[];
    }

    method Store(m: Id, r: Reaction)
      modifies this
      ensures rows == old(rows)[m := Merge(RowOf(old(rows), m), r)]
    {
      var current := if m in rows then rows[m] else map[];
      var cleaned := MergeReaction(current, r);
      rows := rows[m := cleaned];
    }

    method HandleMessageReaction(targetGiven: bool, sender: Jid, found: Option<Id>, emoji: Emoji,
                                 ghost events: seq<Event>)
      requires Follows(rows, events)
      modifies this
      ensures Follows(rows, events + [Webhook(targetGiven, sender, found, emoji)])
    {
      StoreFollows(rows, events, Webhook(targetGiven, sender, found, emoji));
      if !targetGiven || sender.text == "" { return; }
      if found.None? { return; }
      Store(found.value, Reaction(sender, emoji));
    }

    method ReactToMessage(found: Option<Id>, connected: bool, phone: string, externalIdKnown: bool, engineAccepts: bool,
                          emoji: Emoji, ghost events: seq<Event>)
      returns (ok: bool)
      requires Follows(rows, events)
      modifies this
      ensures Follows(rows, events + [Own(found, connected, phone, externalIdKnown, engineAccepts, emoji)])
      ensures ok <==> Recorded(Own(found, connected, phone, externalIdKnown, engineAccepts, emoji)).Some?
    {
      StoreFollows(rows, events, Own(found, connected, phone, externalIdKnown, engineAccepts, emoji));
      if found.None? || !connected { return false; }
      if phone == "" || !externalIdKnown { return false; }
      if !engineAccepts { return false; }
      Store(found.value, Reaction(OwnJid(phone), emoji));
      ok := true;
    }
  }
}
