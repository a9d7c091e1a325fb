// What every run of the campaign protocol keeps.

module CampaignInvariant {
  import opened Common
  import opened CampaignModel

  // ── The invariant, in five parts ─────────────────────────────────────────

  ghost predicate IdsFresh(s: State) {
    && (forall c :: c in s.campaigns ==> c < s.nextId)
    && (forall m :: m in s.messages ==> m < s.nextId)
  }

  // Rows refer to rows that exist, and a recipient's messageId names one of its own main messages.
  ghost predicate Linked(s: State) {
    && (forall k :: k in s.recipients ==> k.campaign in s.campaigns)
    && (forall m :: m in s.messages && s.messages[m].purpose.Main? ==> s.messages[m].purpose.to in s.recipients)
    && (forall k :: k in s.recipients && s.recipients[k].messageId.Some? ==>
          && s.recipients[k].messageId.value in s.messages
          && s.messages[s.recipients[k].messageId.value].purpose == Main(k))
  }

  // A run's snapshot has no repeats and holds every PENDING recipient of its campaign.
  ghost predicate WorkerSound(s: State) {
    !s.worker.Idle? ==>
      && s.worker.campaign in s.campaigns
      && (s.campaigns[s.worker.campaign].status == Running || s.campaigns[s.worker.campaign].status == Cancelled)
      && Distinct(Snapshot(s.worker))
      && (forall k :: k in Snapshot(s.worker) ==> k in s.recipients && k.campaign == s.worker.campaign)
      && (forall k :: k in s.recipients && k.campaign == s.worker.campaign && s.recipients[k].status == Pending ==>
            k in Snapshot(s.worker))
  }

  ghost predicate AttemptsBounded(s: State) {
    forall k :: k in s.recipients ==>
      && Attempts(s, k) <= 1 + s.recipients[k].retryCount
      && (s.recipients[k].status == Pending || k in Snapshot(s.worker) ==> Attempts(s, k) <= s.recipients[k].retryCount)
      && (s.recipients[k].status != Pending ==> 1 <= Attempts(s, k))
  }

  ghost predicate TotalsExact(s: State) {
    forall c :: c in s.campaigns ==> s.campaigns[c].totalContacts == |KeysOf(s.recipients, c)|
  }

  ghost predicate Inv(s: State) {
    && IdsFresh(s)
    && Linked(s)
    && WorkerSound(s)
    && AttemptsBounded(s)
    && TotalsExact(s)
  }

  // ── Rows inserted ────────────────────────────────────────────────────────

  lemma NewMessage(messages: map<Id, Message>, m: Id, row: Message, k: RecipientKey)
    requires m !in messages
    ensures MainMessages(messages[m := row], k) ==
              MainMessages(messages, k) + (if row.purpose == Main(k) then {m} else {})
    ensures |MainMessages(messages[m := row], k)| ==
              |MainMessages(messages, k)| + (if row.purpose == Main(k) then 1 else 0)
  {
    assert m !in MainMessages(messages, k);
  }

  lemma NoAttemptsYet(s: State, k: RecipientKey)
    requires Linked(s) && k !in s.recipients
    ensures Attempts(s, k) == 0
  {
    assert MainMessages(s.messages, k) == {};
  }

  // The table t holds the old rows and one PENDING row for each phone number that had none.
  ghost predicate Extended(rows: map<RecipientKey, Recipient>, t: map<RecipientKey, Recipient>, c: Id,
                           phones: seq<Phone>)
  {
    && (forall k :: k in t <==> k in rows || (k.campaign == c && k.phone in phones))
    && (forall k :: k in rows ==> t[k] == rows[k])
    && (forall k :: k in t && k !in rows ==> t[k] == Recipient(Pending, None, 0))
  }

  lemma ExtendedSnoc(rows: map<RecipientKey, Recipient>, t: map<RecipientKey, Recipient>, c: Id, init: seq<Phone>,
                     p: Phone, phones: seq<Phone>)
    requires phones == init + [p] && Extended(rows, t, c, init)
    ensures RecipientKey(c, p) in t ==> Extended(rows, t, c, phones)
    ensures RecipientKey(c, p) !in t ==> Extended(rows, t[RecipientKey(c, p) := Recipient(Pending, None, 0)], c, phones)
  {
    assert forall q :: q in phones <==> q in init || q == p;
  }

  lemma {:induction false} InsertRowsExtend(rows: map<RecipientKey, Recipient>, c: Id, phones: seq<Phone>)
    ensures Extended(rows, InsertRows(rows, c, phones).0, c, phones)
    ensures InsertRows(rows, c, phones).1 + |rows| == |InsertRows(rows, c, phones).0|
  {
    if phones != [] {
      var init, p := phones[..|phones| - 1], phones[|phones| - 1];
      InsertRowsExtend(rows, c, init);
      ExtendedSnoc(rows, InsertRows(rows, c, init).0, c, init, p, phones);
    }
  }

  lemma {:induction false} AllNewSize(rows: map<RecipientKey, Recipient>, c: Id, phones: seq<Phone>)
    requires AllNew(rows, c, phones)
    ensures InsertRows(rows, c, phones).1 == |phones|
  {
    if phones != [] {
      var init := phones[..|phones| - 1];
      AllNewSize(rows, c, init);
      InsertRowsExtend(rows, c, init);
    }
  }

  // PENDING rows of campaign c were added, and nothing else changed.
  ghost predicate Grown(rows: map<RecipientKey, Recipient>, t: map<RecipientKey, Recipient>, c: Id) {
    && (forall k :: k in rows ==> k in t && t[k] == rows[k])
    && (forall k :: k in t && k !in rows ==> k.campaign == c && t[k] == Recipient(Pending, None, 0))
  }

  lemma InsertRowsGrow(rows: map<RecipientKey, Recipient>, c: Id, phones: seq<Phone>)
    ensures Grown(rows, InsertRows(rows, c, phones).0, c)
    ensures InsertRows(rows, c, phones).1 + |rows| == |InsertRows(rows, c, phones).0|
  {
    InsertRowsExtend(rows, c, phones);
  }

  lemma GrownCount(rows: map<RecipientKey, Recipient>, t: map<RecipientKey, Recipient>, c: Id)
    requires Grown(rows, t, c)
    ensures |KeysOf(t, c)| + |rows| == |KeysOf(rows, c)| + |t|
  {
    var added := t.Keys - rows.Keys;
    assert t.Keys == rows.Keys + added;
    assert KeysOf(t, c) == KeysOf(rows, c) + added;
    assert |rows.Keys + added| == |rows.Keys| + |added|;
    assert |KeysOf(rows, c) + added| == |KeysOf(rows, c)| + |added|;
  }

  ghost predicate OneCampaign(before: map<Id, Campaign>, after: map<Id, Campaign>, c: Id) {
    && after.Keys == before.Keys + {c}
    && (forall d :: d in before && d != c ==> after[d] == before[d])
  }

  lemma OneCampaignSet(before: map<Id, Campaign>, c: Id, row: Campaign)
    ensures OneCampaign(before, before[c := row], c)
  {
  }

  // ... under a campaign c, new or not, whose total counts them.
  ghost predicate Inserted(s: State, s': State, c: Id) {
    && s'.messages == s.messages && s'.worker == s.worker && s.nextId <= s'.nextId && c < s'.nextId
    && Grown(s.recipients, s'.recipients, c)
    && OneCampaign(s.campaigns, s'.campaigns, c)
    && s'.campaigns[c].totalContacts + |s.recipients| == |KeysOf(s.recipients, c)| + |s'.recipients|
  }

  lemma InsertedAttempts(s: State, s': State, c: Id)
    requires Linked(s) && AttemptsBounded(s) && WorkerSound(s) && !WorkingOn(s.worker, c) && Inserted(s, s', c)
    ensures AttemptsBounded(s')
  {
    forall k | k in s'.recipients
      ensures Attempts(s', k) == if k in s.recipients then Attempts(s, k) else 0
    {
      if k !in s.recipients { NoAttemptsYet(s, k); }
    }
  }

  lemma InsertedTotals(s: State, s': State, c: Id)
    requires TotalsExact(s) && Inserted(s, s', c)
    ensures TotalsExact(s')
  {
    GrownCount(s.recipients, s'.recipients, c);
    forall d | d != c ensures KeysOf(s'.recipients, d) == KeysOf(s.recipients, d) {}
  }

  lemma InsertedIds(s: State, s': State, c: Id)
    requires IdsFresh(s) && Inserted(s, s', c)
    ensures IdsFresh(s')
  {
  }

  lemma InsertedLinks(s: State, s': State, c: Id)
    requires IdsFresh(s) && Linked(s) && Inserted(s, s', c)
    ensures Linked(s')
  {
  }

  lemma InsertedSound(s: State, s': State, c: Id)
    requires WorkerSound(s) && !WorkingOn(s.worker, c) && Inserted(s, s', c)
    ensures WorkerSound(s')
  {
  }

  lemma RowsInserted(s: State, s': State, c: Id)
    requires Inv(s) && !WorkingOn(s.worker, c) && Inserted(s, s', c)
    ensures Inv(s')
  {
    InsertedIds(s, s', c);
    InsertedLinks(s, s', c);
    InsertedSound(s, s', c);
    InsertedAttempts(s, s', c);
    InsertedTotals(s, s', c);
  }

  // Rewriting the fields of recipient rows without touching their number.
  lemma SameKeys(a: map<RecipientKey, Recipient>, b: map<RecipientKey, Recipient>)
    requires a.Keys == b.Keys
    ensures forall c :: KeysOf(a, c) == KeysOf(b, c)
  {}

  // ── Every step keeps the invariant ───────────────────────────────────────

  lemma NoRowsOfNewCampaign(s: State)
    requires IdsFresh(s) && Linked(s)
    ensures |KeysOf(s.recipients, s.nextId)| == 0 && s.nextId !in s.campaigns
  {
    assert KeysOf(s.recipients, s.nextId) == {};
  }

  lemma CreateInserts(s: State, tenant: Id, phones: seq<Phone>, at: Option<int>)
    requires |KeysOf(s.recipients, s.nextId)| == 0 && s.nextId !in s.campaigns && AllNew(s.recipients, s.nextId, phones)
    ensures Inserted(s, NewCampaign(s, tenant, phones, at), s.nextId)
  {
    OneCampaignSet(s.campaigns, s.nextId, NewCampaign(s, tenant, phones, at).campaigns[s.nextId]);
    AllNewSize(s.recipients, s.nextId, phones);
    InsertRowsGrow(s.recipients, s.nextId, phones);
  }

  lemma CreateKeeps(s: State, tenant: Id, session: SessionCheck, contacts: Resolved, at: Option<int>)
    requires Inv(s)
    ensures Inv(CreateCampaign(s, tenant, session, contacts, at).0)
  {
    var (s', reply) := CreateCampaign(s, tenant, session, contacts, at);
    if reply == Ok {
      NoRowsOfNewCampaign(s);
      CreateInserts(s, tenant, contacts.phones, at);
      RowsInserted(s, s', s.nextId);
    }
  }

  lemma InsertInserts(s: State, c: Id, phones: seq<Phone>)
    requires c in s.campaigns && c < s.nextId && s.campaigns[c].totalContacts == |KeysOf(s.recipients, c)|
    ensures Inserted(s, InsertRecipients(s, c, phones), c)
  {
    InsertRowsGrow(s.recipients, c, phones);
  }

  lemma InsertKeeps(s: State, c: Id, phones: seq<Phone>)
    requires Inv(s) && c in s.campaigns && Editable(s, c)
    ensures Inv(InsertRecipients(s, c, phones))
  {
    InsertInserts(s, c, phones);
    RowsInserted(s, InsertRecipients(s, c, phones), c);
  }

  lemma StatusKeeps(s: State, s': State, c: Id)
    requires Inv(s) && c in s.campaigns
    requires s'.recipients == s.recipients && s'.messages == s.messages && s'.worker == s.worker &&
               s'.nextId == s.nextId
    requires s'.campaigns.Keys == s.campaigns.Keys
    requires forall d :: d in s.campaigns ==> s'.campaigns[d].totalContacts == s.campaigns[d].totalContacts
    requires forall d :: d in s.campaigns && d != c ==> s'.campaigns[d] == s.campaigns[d]
    requires WorkingOn(s.worker, c) ==> s'.campaigns[c].status == Running || s'.campaigns[c].status == Cancelled
    ensures Inv(s')
  {
    forall k | k in s.recipients ensures Attempts(s', k) == Attempts(s, k) {}
  }

  lemma RequeuedAttempts(s: State, c: Id, s': State)
    requires WorkerSound(s) && AttemptsBounded(s) && !WorkingOn(s.worker, c)
    requires s'.recipients == Requeued(s.recipients, c) && s'.messages == s.messages && s'.worker == s.worker
    ensures AttemptsBounded(s')
  {
    forall k | k in s.recipients ensures Attempts(s', k) == Attempts(s, k) {}
  }

  lemma RetryKeeps(s: State, tenant: Id, c: Id)
    requires Inv(s)
    ensures Inv(RetryFailedCampaign(s, tenant, c).0)
  {
    var (s', reply) := RetryFailedCampaign(s, tenant, c);
    if reply == Ok {
      SameKeys(s.recipients, s'.recipients);
      RequeuedAttempts(s, c, s');
    }
  }

  lemma CloneKeeps(s: State, tenant: Id, c: Id)
    requires Inv(s)
    ensures Inv(CloneCampaign(s, tenant, c).0)
  {
    var (s', reply) := CloneCampaign(s, tenant, c);
    if reply == Ok {
      assert KeysOf(s.recipients, s.nextId) == {};
      forall k | k in s.recipients ensures Attempts(s', k) == Attempts(s, k) {}
    }
  }

  lemma ListedExactly(s: State, c: Id, order: seq<RecipientKey>, k: RecipientKey)
    requires Lists(order, KeysWith(s.recipients, c, Pending))
    ensures k in order <==> k in s.recipients && k.campaign == c && s.recipients[k].status == Pending
  {
    assert k in order <==> k in Elements(order);
  }

  lemma StartSound(s: State, job: Job, order: seq<RecipientKey>, engineFound: bool)
    requires Linked(s) && CanStart(s, job, order)
    ensures WorkerSound(StartRun(s, job, order, engineFound))
  {
    var s' := StartRun(s, job, order, engineFound);
    forall k
      ensures k in order <==> k in s.recipients && k.campaign == job.campaign && s.recipients[k].status == Pending
    {
      ListedExactly(s, job.campaign, order, k);
    }
    if s'.worker.AtCheck? { assert Snapshot(s'.worker) == order; }
  }

  lemma StartAttempts(s: State, job: Job, order: seq<RecipientKey>, engineFound: bool)
    requires AttemptsBounded(s) && CanStart(s, job, order)
    ensures AttemptsBounded(StartRun(s, job, order, engineFound))
  {
    var s' := StartRun(s, job, order, engineFound);
    forall k | k in s.recipients
      ensures Attempts(s', k) == Attempts(s, k)
      ensures k in Snapshot(s'.worker) ==> s.recipients[k].status == Pending
    {
      ListedExactly(s, job.campaign, order, k);
    }
  }

  lemma StartKeeps(s: State, job: Job, order: seq<RecipientKey>, engineFound: bool)
    requires Inv(s) && CanStart(s, job, order)
    ensures Inv(StartRun(s, job, order, engineFound))
  {
    StartSound(s, job, order, engineFound);
    StartAttempts(s, job, order, engineFound);
  }

  lemma CheckKeeps(s: State)
    requires Inv(s) && s.worker.AtCheck?
    ensures Inv(CheckRun(s))
  {
    var s' := CheckRun(s);
    forall k | k in s.recipients ensures Attempts(s', k) == Attempts(s, k) {}
    if s'.worker.Sending? {
      assert Snapshot(s'.worker) == Snapshot(s.worker);
    }
  }

  lemma SendAttempts(s: State, outcome: SendOutcome, k: RecipientKey)
    requires IdsFresh(s) && s.worker.Sending? && s.worker.key in s.recipients
    ensures Attempts(SendMain(s, outcome), k) == Attempts(s, k) + (if k == s.worker.key then 1 else 0)
  {
    var row := SendMain(s, outcome).messages[s.nextId];
    assert SendMain(s, outcome).messages == s.messages[s.nextId := row];
    NewMessage(s.messages, s.nextId, row, k);
  }

  lemma SnapshotHead(s: State)
    requires WorkerSound(s) && s.worker.Sending?
    ensures s.worker.key in s.recipients && s.worker.key.campaign == s.worker.campaign
    ensures s.worker.key !in s.worker.rest && Distinct(s.worker.rest)
    ensures forall k :: k in Snapshot(s.worker) <==> k == s.worker.key || k in s.worker.rest
  {
    var key, rest := s.worker.key, s.worker.rest;
    assert ([key] + rest)[0] == key && forall i :: 0 <= i < |rest| ==> ([key] + rest)[i + 1] == rest[i];
    assert key in Snapshot(s.worker);
  }

  lemma SendKeepsAttempts(s: State, outcome: SendOutcome)
    requires IdsFresh(s) && WorkerSound(s) && AttemptsBounded(s) && s.worker.Sending? && s.worker.key in s.recipients
    ensures AttemptsBounded(SendMain(s, outcome))
  {
    var s' := SendMain(s, outcome);
    SnapshotHead(s);
    forall k | k in s'.recipients
      ensures Attempts(s', k) <= 1 + s'.recipients[k].retryCount
      ensures s'.recipients[k].status == Pending || k in Snapshot(s'.worker) ==>
                Attempts(s', k) <= s'.recipients[k].retryCount
      ensures s'.recipients[k].status != Pending ==> 1 <= Attempts(s', k)
    {
      SendAttempts(s, outcome, k);
    }
  }

  lemma SendSound(s: State, outcome: SendOutcome)
    requires WorkerSound(s) && s.worker.Sending? && s.worker.key in s.recipients
    ensures WorkerSound(SendMain(s, outcome))
  {
    SnapshotHead(s);
    assert Snapshot(SendMain(s, outcome).worker) == s.worker.rest;
  }

  lemma SendLinked(s: State, outcome: SendOutcome)
    requires IdsFresh(s) && Linked(s) && s.worker.Sending? && s.worker.key in s.recipients
    ensures IdsFresh(SendMain(s, outcome)) && Linked(SendMain(s, outcome))
  {
  }

  lemma SendKeeps(s: State, outcome: SendOutcome)
    requires Inv(s) && s.worker.Sending? && s.worker.key in s.recipients
    ensures Inv(SendMain(s, outcome))
  {
    SendSound(s, outcome);
    SendLinked(s, outcome);
    SendKeepsAttempts(s, outcome);
    SameKeys(s.recipients, SendMain(s, outcome).recipients);
  }

  lemma ExtraMessageKeeps(s: State, s': State, row: Message)
    requires Inv(s) && !row.purpose.Main?
    requires s'.campaigns == s.campaigns && s'.recipients == s.recipients && s'.nextId == s.nextId + 1
    requires s'.messages == s.messages[s.nextId := row]
    requires s'.worker == s.worker ||
               (s.worker.Linking? && !s'.worker.Idle? && s'.worker.campaign == s.worker.campaign &&
                Snapshot(s'.worker) == Snapshot(s.worker))
    ensures Inv(s')
  {
    forall k | k in s.recipients ensures Attempts(s', k) == Attempts(s, k) {
      NewMessage(s.messages, s.nextId, row, k);
    }
  }

  lemma AckAttempts(s: State, ext: string, code: int, picked: Id)
    requires Linked(s) && AttemptsBounded(s)
    ensures AttemptsBounded(HandleAck(s, ext, code, picked))
  {
    var s' := HandleAck(s, ext, code, picked);
    forall k | k in s.recipients
      ensures Attempts(s', k) == Attempts(s, k)
      ensures s'.recipients[k] != s.recipients[k] ==> 1 <= Attempts(s, k)
    {
      if s'.recipients[k] != s.recipients[k] {
        assert picked in MainMessages(s.messages, k);
        assert MainMessages(s.messages, k) != {};
      }
    }
  }

  lemma AckSound(s: State, ext: string, code: int, picked: Id)
    requires WorkerSound(s)
    ensures WorkerSound(HandleAck(s, ext, code, picked))
  {
  }

  lemma AckKeeps(s: State, ext: string, code: int, picked: Id)
    requires Inv(s)
    ensures Inv(HandleAck(s, ext, code, picked))
  {
    AckAttempts(s, ext, code, picked);
    AckSound(s, ext, code, picked);
    SameKeys(s.recipients, HandleAck(s, ext, code, picked).recipients);
  }

  lemma EditKeeps(s: State, tenant: Id, c: Id, session: Option<SessionCheck>, edit: ScheduleEdit)
    requires Inv(s)
    ensures Inv(UpdateCampaign(s, tenant, c, session, edit).0)
  {
    var (s', reply) := UpdateCampaign(s, tenant, c, session, edit);
    if reply == Ok { StatusKeeps(s, s', c); }
  }

  lemma LaunchKeeps(s: State, tenant: Id, c: Id, session: SessionCheck)
    requires Inv(s)
    ensures Inv(LaunchCampaign(s, tenant, c, session).0)
  {
    var (s', reply) := LaunchCampaign(s, tenant, c, session);
    if reply == Ok { StatusKeeps(s, s', c); }
  }

  lemma CancelKeeps(s: State, tenant: Id, c: Id)
    requires Inv(s)
    ensures Inv(CancelCampaign(s, tenant, c).0)
  {
    var (s', reply) := CancelCampaign(s, tenant, c);
    if reply == Ok { StatusKeeps(s, s', c); }
  }

  lemma LinkKeeps(s: State, sent: Option<Option<string>>)
    requires Inv(s) && s.worker.Linking? && s.worker.links > 0
    ensures Inv(SendLink(s, sent))
  {
    ExtraMessageKeeps(s, SendLink(s, sent), SendLink(s, sent).messages[s.nextId]);
  }

  lemma QueueOnlyKeeps(s: State, s': State)
    requires Inv(s)
    requires s' == s.(jobs := s'.jobs) || s' == s.(worker := Idle)
    ensures Inv(s')
  {
    forall k | k in s.recipients ensures Attempts(s', k) == Attempts(s, k) {}
  }

  predicate IsServiceCall(e: Event) {
    e.Create? || e.Update? || e.Launch? || e.Import? || e.AddContacts? || e.Cancel? || e.Retry? || e.Clone?
  }

  lemma ServiceStepKeeps(s: State, e: Event)
    requires Inv(s)
    requires IsServiceCall(e)
    ensures Inv(Step(s, e))
  {
    match e
    case Create(t, session, contacts, at) => CreateKeeps(s, t, session, contacts, at);
    case Update(t, c, session, edit) => EditKeeps(s, t, c, session, edit);
    case Launch(t, c, session) => LaunchKeeps(s, t, c, session);
    case Import(t, c, rows) =>
      if ImportRecipients(s, t, c, rows).1 == Ok { InsertKeeps(s, c, PresentPhones(rows)); }
    case AddContacts(t, c, contacts) =>
      if AddContactsToCampaign(s, t, c, contacts).1 == Ok { InsertKeeps(s, c, contacts.phones); }
    case Cancel(t, c) => CancelKeeps(s, t, c);
    case Retry(t, c) => RetryKeeps(s, t, c);
    case Clone(t, c) => CloneKeeps(s, t, c);
  }

  lemma WorkerStepKeeps(s: State, e: Event)
    requires Inv(s)
    requires !IsServiceCall(e)
    ensures Inv(Step(s, e))
  {
    match e
    case Start(job, order, found) => if CanStart(s, job, order) { StartKeeps(s, job, order, found); }
    case Check => if s.worker.AtCheck? { CheckKeeps(s); }
    case Send(outcome) => if s.worker.Sending? && s.worker.key in s.recipients { SendKeeps(s, outcome); }
    case Link(sent) => if s.worker.Linking? && s.worker.links > 0 { LinkKeeps(s, sent); }
    case Abort => QueueOnlyKeeps(s, Step(s, e));
    case Ack(ext, code, picked) => AckKeeps(s, ext, code, picked);
    case OtherMessage(ext) => ExtraMessageKeeps(s, Step(s, e), Message(Unrelated, ext));
    case Redeliver(job) => QueueOnlyKeeps(s, Step(s, e));
  }

  lemma StepKeeps(s: State, e: Event)
    requires Inv(s)
    ensures Inv(Step(s, e))
  {
    if IsServiceCall(e) { ServiceStepKeeps(s, e); } else { WorkerStepKeeps(s, e); }
  }

  ghost predicate Reachable(s: State) {
    exists events: seq<Event> :: Exec(EMPTY, events) == s
  }

  lemma {:induction false} RunKeeps(s: State, events: seq<Event>)
    requires Inv(s)
    ensures Inv(Exec(s, events))
  {
    if events != [] {
      RunKeeps(s, events[..|events| - 1]);
      StepKeeps(Exec(s, events[..|events| - 1]), events[|events| - 1]);
    }
  }

  lemma ReachableInv(s: State)
    requires Reachable(s)
    ensures Inv(s)
  {
    var events: seq<Event> :| Exec(EMPTY, events) == s;
    RunKeeps(EMPTY, events);
  }
}
