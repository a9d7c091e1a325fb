// The conversation table and the writes every inbox handler shares: turning a
// JID into a number, re-attaching rows a deleted session left behind, and
// inserting or refreshing the one row of a (tenant, session, number).

module Conversations {
  import opened Common

  type Id = nat

  // ── JIDs ─────────────────────────────────────────────────────────────────

  const CONTACT_SUFFIX := "@s.whatsapp.net"

  predicate EndsWith(s: string, suffix: string) {
    |suffix| <= |s| && s[|s| - |suffix|..] == suffix
  }

  /** The text before the first occurrence of the character, all of it if there is none. */
  function Before(s: string, c: char): (r: string)
    ensures |r| <= |s| && r == s[..|r|] && c !in r && (r == s || s[|r|] == c)
  {
    if s == "" || s[0] == c then "" else [s[0]] + Before(s[1..], c)
  }

  function NormaliseJid(jid: string): string {
    if EndsWith(jid, CONTACT_SUFFIX) then Before(jid, '@') else jid
  }

  lemma SuffixHasAt(jid: string)
    requires EndsWith(jid, CONTACT_SUFFIX)
    ensures '@' in jid
  {
    assert CONTACT_SUFFIX[0] == '@';
    assert jid[|jid| - |CONTACT_SUFFIX|] == '@';
  }

  // Normalising twice is normalising once.
  lemma NormaliseIdempotent(jid: string)
    ensures NormaliseJid(NormaliseJid(jid)) == NormaliseJid(jid)
  {
    if EndsWith(NormaliseJid(jid), CONTACT_SUFFIX) { SuffixHasAt(NormaliseJid(jid)); }
  }

  lemma {:induction false} BeforeConcat(digits: string, rest: string)
    requires '@' !in digits && rest != "" && rest[0] == '@'
    ensures Before(digits + rest, '@') == digits
  {
    if digits != "" {
      BeforeConcat(digits[1..], rest);
      assert (digits + rest)[1..] == digits[1..] + rest;
    }
  }

  lemma OtherSuffix(jid: string, suffix: string)
    requires suffix in {"@lid", "@g.us", "@broadcast", "@newsletter"} && EndsWith(jid, suffix)
    ensures !EndsWith(jid, CONTACT_SUFFIX)
  {
    assert suffix[|suffix| - 1] != 't' || suffix[|suffix| - 4] != '.';
    assert jid[|jid| - 1] == suffix[|suffix| - 1] && jid[|jid| - 4] == suffix[|suffix| - 4];
  }

  // A bare number and the contact address made from it share a conversation; group, linked-device,
  // broadcast and newsletter addresses are left alone.
  lemma NumberAndAddressMeet(digits: string)
    requires '@' !in digits
    ensures NormaliseJid(digits + CONTACT_SUFFIX) == digits && NormaliseJid(digits) == digits
    ensures forall suffix :: suffix in {"@lid", "@g.us", "@broadcast", "@newsletter"} ==>
              NormaliseJid(digits + suffix) == digits + suffix
  {
    var jid := digits + CONTACT_SUFFIX;
    assert jid[|jid| - |CONTACT_SUFFIX|..] == CONTACT_SUFFIX;
    BeforeConcat(digits, CONTACT_SUFFIX);
    if EndsWith(digits, CONTACT_SUFFIX) { SuffixHasAt(digits); }
    forall suffix | suffix in {"@lid", "@g.us", "@broadcast", "@newsletter"}
      ensures !EndsWith(digits + suffix, CONTACT_SUFFIX)
    {
      OtherSuffix(digits + suffix, suffix);
    }
  }

  predicate OneAt(jid: string) {
    '@' in jid && '@' !in jid[|Before(jid, '@')| + 1..]
  }

  lemma OnlyAt(a: string, i: nat)
    requires OneAt(a) && i < |a|
    ensures a[i] == '@' ==> i == |Before(a, '@')|
  {
    var m := |Before(a, '@')|;
    if i < m {
      assert Before(a, '@')[i] == a[i];
    } else if i > m {
      assert a[m + 1..][i - m - 1] == a[i];
    }
  }

  lemma ContactShape(a: string)
    requires OneAt(a) && EndsWith(a, CONTACT_SUFFIX)
    ensures a == Before(a, '@') + CONTACT_SUFFIX
  {
    var n := |a| - |CONTACT_SUFFIX|;
    assert a[n] == CONTACT_SUFFIX[0];
    OnlyAt(a, n);
    assert a == a[..n] + a[n..];
  }

  // Two well-formed addresses share a conversation only if they are the same address.
  lemma NormaliseInjective(a: string, b: string)
    requires OneAt(a) && OneAt(b) && NormaliseJid(a) == NormaliseJid(b)
    ensures a == b
  {
    if EndsWith(a, CONTACT_SUFFIX) { ContactShape(a); }
    if EndsWith(b, CONTACT_SUFFIX) { ContactShape(b); }
  }

  // ── The table ────────────────────────────────────────────────────────────

  datatype Conversation = Conversation(
    tenant: Id, session: Option<Id>, phone: string,
    createdAt: int, open: bool, unread: nat,
    lastMessageAt: int, lastMessageText: string,
    contactName: Option<string>, contactId: Option<Id>)

  type Table = map<Id, Conversation>

  datatype Key = Key(tenant: Id, session: Id, phone: string)

  predicate HasKey(c: Conversation, k: Key) {
    c.tenant == k.tenant && c.session == Some(k.session) && c.phone == k.phone
  }

  predicate IsOrphan(c: Conversation, tenant: Id, phone: string) {
    c.tenant == tenant && c.session.None? && c.phone == phone
  }

  predicate Keyed(t: Table, k: Key) {
    exists c :: c in t && HasKey(t[c], k)
  }

  function Orphans(t: Table, tenant: Id, phone: string): Table {
    map c | c in t && IsOrphan(t[c], tenant, phone) :: t[c]
  }

  predicate SameKey(a: Conversation, b: Conversation) {
    a.session.Some? && a.tenant == b.tenant && a.session == b.session && a.phone == b.phone
  }

  // The database's unique index, under which rows without a session never clash.
  predicate UniqueKeys(t: Table) {
    forall c, d :: c in t && d in t && SameKey(t[c], t[d]) ==> c == d
  }

  predicate Oldest(orphans: Table, c: Id) {
    c in orphans && forall d :: d in orphans ==> orphans[c].createdAt <= orphans[d].createdAt
  }

  lemma {:induction false} OldestExists(orphans: Table) returns (c: Id)
    requires orphans != map[]
    ensures Oldest(orphans, c)
    decreases |orphans|
  {
    var first :| first in orphans;
    var rest := orphans - {first};
    c := first;
    assert forall d :: d in orphans ==> d == first || d in rest;
    if rest != map[] {
      var d := OldestExists(rest);
      if orphans[d].createdAt < orphans[first].createdAt { c := d; }
    }
  }

  predicate LowestOldest(orphans: Table, c: Id) {
    Oldest(orphans, c) && forall d :: d in orphans && Oldest(orphans, d) ==> c <= d
  }

  lemma {:induction false} LowestOldestExists(orphans: Table, c: Id) returns (low: Id)
    requires Oldest(orphans, c)
    ensures LowestOldest(orphans, low)
    decreases c
  {
    if d :| d in orphans && Oldest(orphans, d) && d < c {
      low := LowestOldestExists(orphans, d);
    } else {
      low := c;
    }
  }

  // The first row of the query ordered by creation time. Rows of one time come back in any
  // order: the hint says which the database returned first.
  function OldestOf(orphans: Table, hint: Id): (c: Id)
    requires orphans != map[]
    ensures Oldest(orphans, c)
  {
    if Oldest(orphans, hint) then hint
    else
      assert exists c :: LowestOldest(orphans, c) by {
        var some := OldestExists(orphans);
        var low := LowestOldestExists(orphans, some);
      }
      var c :| LowestOldest(orphans, c);
      c
  }

  // ── Re-attaching ─────────────────────────────────────────────────────────

  // One orphan takes the key, the others of its number go.
  function Kept(t: Table, k: Key, c: Id): Table
    requires c in t
  {
    (t - (Orphans(t, k.tenant, k.phone).Keys - {c}))[c := t[c].(session := Some(k.session))]
  }

  function Reattach(t: Table, k: Key, hint: Id): Table {
    var orphans := Orphans(t, k.tenant, k.phone);
    if Keyed(t, k) then t - orphans.Keys
    else if orphans == map[] then t
    else Kept(t, k, OldestOf(orphans, hint))
  }

  lemma KeptKeepsKeys(t: Table, k: Key, c: Id)
    requires UniqueKeys(t) && !Keyed(t, k) && c in t && IsOrphan(t[c], k.tenant, k.phone)
    ensures UniqueKeys(Kept(t, k, c)) && Orphans(Kept(t, k, c), k.tenant, k.phone) == map[]
  {
    var u := Kept(t, k, c);
    forall a, b | a in u && b in u && SameKey(u[a], u[b]) ensures a == b {
      if a != c && b != c { assert SameKey(t[a], t[b]); }
    }
    forall d | d in u ensures !IsOrphan(u[d], k.tenant, k.phone) {
      if d != c { assert d !in Orphans(t, k.tenant, k.phone); }
    }
  }

  // Re-attaching leaves no orphan of the number, never makes two rows of one key, touches no row
  // that is not an orphan of the number, and the row it re-keys is the oldest of them.
  lemma ReattachTheorem(t: Table, k: Key, hint: Id)
    requires UniqueKeys(t)
    ensures var u := Reattach(t, k, hint);
            && UniqueKeys(u)
            && Orphans(u, k.tenant, k.phone) == map[]
            && (forall c :: c in t && !IsOrphan(t[c], k.tenant, k.phone) ==> c in u && u[c] == t[c])
            && (forall c :: c in u && c in t && u[c] != t[c] ==>
                  && IsOrphan(t[c], k.tenant, k.phone) && u[c] == t[c].(session := Some(k.session))
                  && forall d :: d in t && IsOrphan(t[d], k.tenant, k.phone) ==> t[c].createdAt <= t[d].createdAt)
            && u.Keys <= t.Keys
            && (Keyed(u, k) <==> Keyed(t, k) || Orphans(t, k.tenant, k.phone) != map[])
  {
    var orphans := Orphans(t, k.tenant, k.phone);
    if Keyed(t, k) {
      var c :| c in t && HasKey(t[c], k);
      assert c in Reattach(t, k, hint);
    } else if orphans != map[] {
      var c := OldestOf(orphans, hint);
      KeptKeepsKeys(t, k, c);
      assert HasKey(Kept(t, k, c)[c], k);
    } else {
      assert Reattach(t, k, hint) == t;
    }
  }

  // The campaign loop's own version: one update moves every orphan of the number onto the key,
  // which the unique index rejects as a whole when it would make two rows of one key.
  datatype Inline = Reattached(table: Table) | KeyViolation

  function Moved(t: Table, k: Key): Table {
    map c | c in t :: if IsOrphan(t[c], k.tenant, k.phone) then t[c].(session := Some(k.session)) else t[c]
  }

  function InlineReattach(t: Table, k: Key): Inline {
    if Keyed(t, k) then Reattached(t - Orphans(t, k.tenant, k.phone).Keys)
    else if UniqueKeys(Moved(t, k)) then Reattached(Moved(t, k))
    else KeyViolation
  }

  lemma TwoInMap(m: Table)
    ensures |m| >= 2 <==> exists c, d :: c in m && d in m && c != d
  {
    if |m| >= 2 {
      var c :| c in m;
      assert |m.Keys - {c}| == |m| - 1;
      var d :| d in m.Keys - {c};
    } else if c, d :| c in m && d in m && c != d {
      SubsetSize({c, d}, m.Keys);
    }
  }

  lemma InlineFailsIff(t: Table, k: Key)
    requires UniqueKeys(t)
    ensures InlineReattach(t, k) == KeyViolation <==> !Keyed(t, k) && |Orphans(t, k.tenant, k.phone)| >= 2
  {
    var orphans, moved := Orphans(t, k.tenant, k.phone), Moved(t, k);
    TwoInMap(orphans);
    if !Keyed(t, k) {
      if c, d :| c in orphans && d in orphans && c != d {
        assert SameKey(moved[c], moved[d]);
      } else {
        forall c, d | c in moved && d in moved && SameKey(moved[c], moved[d]) ensures c == d {
          assert !HasKey(t[c], k) && !HasKey(t[d], k);
          assert HasKey(moved[c], k) <==> c in orphans;
          assert HasKey(moved[d], k) <==> d in orphans;
          if c !in orphans && d !in orphans { assert SameKey(t[c], t[d]); }
        }
      }
    }
  }

  // The two versions agree exactly when there is a keeper or at most one orphan; otherwise the
  // campaign's version fails where the webhook's version succeeds.
  lemma InlineAgreesIff(t: Table, k: Key, hint: Id)
    requires UniqueKeys(t)
    ensures InlineReattach(t, k) == Reattached(Reattach(t, k, hint)) <==>
              Keyed(t, k) || |Orphans(t, k.tenant, k.phone)| <= 1
  {
    InlineFailsIff(t, k);
    var orphans := Orphans(t, k.tenant, k.phone);
    TwoInMap(orphans);
    if !Keyed(t, k) && |orphans| <= 1 {
      if orphans == map[] {
        assert Moved(t, k) == t by { assert forall c :: c in t && IsOrphan(t[c], k.tenant, k.phone) ==> c in orphans; }
      } else {
        var c := OldestOf(orphans, hint);
        assert orphans.Keys - {c} == {};
        assert Moved(t, k) == Kept(t, k, c) by {
          assert forall d :: d in t && IsOrphan(t[d], k.tenant, k.phone) ==> d in orphans;
        }
      }
    }
  }

  // ── Insert or refresh ────────────────────────────────────────────────────

  datatype UnreadChange = Keep | Increment | SetTo(count: nat)

  // What an update writes: contact fields only when it has them.
  datatype Patch = Patch(lastMessageAt: int, lastMessageText: string, unread: UnreadChange, reopen: bool,
                         contactName: Option<string>, contactId: Option<Id>)

  function Patched(c: Conversation, p: Patch): Conversation {
    c.(lastMessageAt := p.lastMessageAt, lastMessageText := p.lastMessageText,
       unread := match p.unread case Keep => c.unread case Increment => c.unread + 1 case SetTo(n) => n,
       open := c.open || p.reopen,
       contactName := if p.contactName.Some? then p.contactName else c.contactName,
       contactId := if p.contactId.Some? then p.contactId else c.contactId)
  }

  function UpdateKeyed(t: Table, k: Key, p: Patch): Table {
    map c | c in t :: if HasKey(t[c], k) then Patched(t[c], p) else t[c]
  }

  function Upsert(t: Table, k: Key, id: Id, row: Conversation, p: Patch): Table {
    if Keyed(t, k) then UpdateKeyed(t, k, p) else t[id := row]
  }

  ghost function RowOf(t: Table, k: Key): Id
    requires Keyed(t, k)
  {
    var c :| c in t && HasKey(t[c], k);
    c
  }

  lemma RowIs(t: Table, k: Key, c: Id)
    requires UniqueKeys(t) && c in t && HasKey(t[c], k)
    ensures Keyed(t, k) && RowOf(t, k) == c
  {
    assert SameKey(t[RowOf(t, k)], t[c]);
  }

  lemma UpdateKeepsKeys(t: Table, k: Key, p: Patch)
    requires UniqueKeys(t)
    ensures UniqueKeys(UpdateKeyed(t, k, p))
  {
    var u := UpdateKeyed(t, k, p);
    forall c, d | c in u && d in u && SameKey(u[c], u[d]) ensures c == d {
      assert SameKey(t[c], t[d]);
    }
  }

  // After an upsert the key has exactly one row: the row it had, or the new one.
  lemma UpsertTheorem(t: Table, k: Key, id: Id, row: Conversation, p: Patch)
    requires UniqueKeys(t) && id !in t && HasKey(row, k)
    ensures var u := Upsert(t, k, id, row, p);
            && UniqueKeys(u) && Keyed(u, k)
            && RowOf(u, k) == (if Keyed(t, k) then RowOf(t, k) else id)
            && u[RowOf(u, k)] == (if Keyed(t, k) then Patched(t[RowOf(t, k)], p) else row)
            && (forall c :: c in t && !HasKey(t[c], k) ==> c in u && u[c] == t[c])
            && u.Keys == t.Keys + (if Keyed(t, k) then {} else {id})
  {
    var u := Upsert(t, k, id, row, p);
    if Keyed(t, k) {
      UpdateKeepsKeys(t, k, p);
      RowIs(u, k, RowOf(t, k));
    } else {
      forall c, d | c in u && d in u && SameKey(u[c], u[d]) ensures c == d {
        if c != id && d != id { assert SameKey(t[c], t[d]); }
      }
      RowIs(u, k, id);
    }
  }

  // ── The row a handler works on ───────────────────────────────────────────

  // The row of the key, else the oldest orphan of its number, else none.
  ghost function Found(t: Table, k: Key, hint: Id): Option<Conversation> {
    var orphans := Orphans(t, k.tenant, k.phone);
    if Keyed(t, k) then Some(t[RowOf(t, k)])
    else if orphans != map[] then Some(t[OldestOf(orphans, hint)])
    else None
  }

  lemma ReattachFinds(t: Table, k: Key, hint: Id)
    requires UniqueKeys(t)
    ensures var u := Reattach(t, k, hint);
            && UniqueKeys(u) && (Keyed(u, k) <==> Found(t, k, hint).Some?)
            && (Keyed(u, k) ==> u[RowOf(u, k)] == Found(t, k, hint).value.(session := Some(k.session)))
  {
    var u, orphans := Reattach(t, k, hint), Orphans(t, k.tenant, k.phone);
    ReattachTheorem(t, k, hint);
    if Keyed(t, k) {
      RowIs(u, k, RowOf(t, k));
    } else if orphans != map[] {
      RowIs(u, k, OldestOf(orphans, hint));
    }
  }

  // With no keeper the campaign's version leaves at most one orphan to move, the one the webhook's picks.
  lemma InlineFinds(t: Table, k: Key, hint: Id)
    requires UniqueKeys(t) && InlineReattach(t, k).Reattached?
    ensures InlineReattach(t, k).table == Reattach(t, k, hint)
  {
    InlineFailsIff(t, k);
    InlineAgreesIff(t, k, hint);
  }
}
