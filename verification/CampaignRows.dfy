// The campaign protocol read row by row: which events can change a recipient, a
// campaign or the queue, and to what, and what that means over whole runs.

module CampaignRows {
  import opened Common
  import opened CampaignModel
  import opened CampaignInvariant
  import opened CampaignTheorems

  ghost predicate Owned(s: State, tenant: Id, c: Id) {
    c in s.campaigns && s.campaigns[c].tenant == tenant
  }

  // Only a draft or a scheduled campaign can be edited, launched or given recipients.
  ghost predicate Unlaunched(s: State, tenant: Id, c: Id) {
    Owned(s, tenant, c) && (s.campaigns[c].status == Draft || s.campaigns[c].status == Scheduled)
  }

  // ── One recipient ────────────────────────────────────────────────────────

  ghost predicate SendsTo(s: State, e: Event, k: RecipientKey) {
    e.Send? && s.worker.Sending? && s.worker.key == k
  }

  // A retry takes up the FAILED recipients of a COMPLETED campaign of the caller's tenant.
  ghost predicate Retries(s: State, e: Event, k: RecipientKey)
    requires k in s.recipients
  {
    && e.Retry? && e.campaign == k.campaign && s.recipients[k].status == Failed
    && Owned(s, e.tenant, k.campaign) && s.campaigns[k.campaign].status == Completed
  }

  // An acknowledgement of the recipient's current main message, with one of the four known codes.
  ghost predicate Acknowledges(s: State, e: Event, k: RecipientKey)
    requires k in s.recipients
  {
    && e.Ack? && e.externalId != "" && (e.code == 1 || e.code == 2 || e.code == 3 || e.code == -1)
    && s.recipients[k].messageId == Some(e.picked)
    && e.picked in s.messages && s.messages[e.picked].externalId == Some(e.externalId)
  }

  // What an event leaves of a recipient row.
  ghost predicate RecipientAfter(s: State, e: Event, k: RecipientKey, after: Recipient)
    requires k in s.recipients
  {
    var before := s.recipients[k];
    if SendsTo(s, e, k) then
      after == Recipient(if e.outcome.Rejected? then Failed else Sent, Some(s.nextId), before.retryCount)
    else if Retries(s, e, k) then
      after == Recipient(Pending, before.messageId, before.retryCount + 1)
    else if Acknowledges(s, e, k) then
      && after.messageId == before.messageId && after.retryCount == before.retryCount
      && (e.code == 1 ==> after.status == Sent) && (e.code == 2 ==> after.status == Delivered)
      && (e.code == 3 ==> after.status == Read) && (e.code == -1 ==> after.status == Failed)
    else after == before
  }

  lemma SendToRow(s: State, e: Event, k: RecipientKey)
    requires k in s.recipients && e.Send?
    ensures k in Step(s, e).recipients && RecipientAfter(s, e, k, Step(s, e).recipients[k])
  {
  }

  lemma RetryRow(s: State, e: Event, k: RecipientKey)
    requires k in s.recipients && e.Retry?
    ensures k in Step(s, e).recipients && RecipientAfter(s, e, k, Step(s, e).recipients[k])
  {
    if Retries(s, e, k) { assert k in KeysWith(s.recipients, k.campaign, Failed); }
  }

  lemma AckRow(s: State, e: Event, k: RecipientKey)
    requires Linked(s) && k in s.recipients && e.Ack?
    ensures k in Step(s, e).recipients && RecipientAfter(s, e, k, Step(s, e).recipients[k])
  {
  }

  lemma OtherRow(s: State, e: Event, k: RecipientKey)
    requires k in s.recipients && !e.Send? && !e.Retry? && !e.Ack?
    ensures k in Step(s, e).recipients && RecipientAfter(s, e, k, Step(s, e).recipients[k])
  {
    match e
    case Create(t, session, contacts, at) =>
      if contacts.Contacts? { InsertRowsGrow(s.recipients, s.nextId, contacts.phones); }
    case Import(t, c, rows) => InsertRowsGrow(s.recipients, c, PresentPhones(rows));
    case AddContacts(t, c, contacts) =>
      if contacts.Contacts? { InsertRowsGrow(s.recipients, c, contacts.phones); }
    case _ =>
  }

  // Three events change a recipient, and no row ever goes away. The main send makes it SENT or, when
  // the engine refuses, FAILED, and points it to the new message; a retry makes a FAILED one, and
  // only a FAILED one, PENDING again; an acknowledgement gives it the status its code stands for.
  lemma RecipientMoves(s: State, e: Event, k: RecipientKey)
    requires Inv(s) && k in s.recipients
    ensures k in Step(s, e).recipients && RecipientAfter(s, e, k, Step(s, e).recipients[k])
  {
    if e.Send? {
      SendToRow(s, e, k);
    } else if e.Retry? {
      RetryRow(s, e, k);
    } else if e.Ack? {
      AckRow(s, e, k);
    } else {
      OtherRow(s, e, k);
    }
  }

  // ── New recipients ───────────────────────────────────────────────────────

  ghost predicate Adds(s: State, e: Event, k: RecipientKey) {
    match e
    case Create(_, session, contacts, _) =>
      session.Connected? && contacts.Contacts? && Distinct(contacts.phones) &&
      k.campaign == s.nextId && k.phone in contacts.phones
    case Import(tenant, c, rows) => Unlaunched(s, tenant, c) && k.campaign == c && Some(k.phone) in rows
    case AddContacts(tenant, c, contacts) =>
      Unlaunched(s, tenant, c) && contacts.Contacts? && k.campaign == c && k.phone in contacts.phones
    case _ => false
  }

  lemma {:induction false} PresentMeans(rows: seq<Option<Phone>>, p: Phone)
    ensures p in PresentPhones(rows) <==> Some(p) in rows
  {
    if rows != [] {
      PresentMeans(rows[..|rows| - 1], p);
      assert rows == rows[..|rows| - 1] + [rows[|rows| - 1]];
    }
  }

  lemma {:induction false} AllNewMeansDistinct(rows: map<RecipientKey, Recipient>, c: Id, phones: seq<Phone>)
    requires forall k :: k in rows ==> k.campaign != c
    ensures AllNew(rows, c, phones) <==> Distinct(phones)
  {
    if phones != [] {
      var n := |phones| - 1;
      AllNewMeansDistinct(rows, c, phones[..n]);
      if Distinct(phones) {
        assert forall i :: 0 <= i < n ==> phones[i] != phones[n];
      } else if Distinct(phones[..n]) {
        var i, j :| 0 <= i < j < |phones| && phones[i] == phones[j];
        assert j == n && phones[..n][i] == phones[n];
      }
    }
  }

  // The step adds the key exactly when the event asks for it, as a recipient not tried yet.
  ghost predicate AddedRight(s: State, e: Event, k: RecipientKey) {
    && (k in Step(s, e).recipients <==> k in s.recipients || Adds(s, e, k))
    && (k in Step(s, e).recipients && k !in s.recipients ==> Step(s, e).recipients[k] == Recipient(Pending, None, 0))
  }

  lemma CreateAdds(s: State, e: Event, k: RecipientKey)
    requires IdsFresh(s) && Linked(s) && e.Create?
    ensures AddedRight(s, e, k)
  {
    if e.contacts.Contacts? {
      AllNewMeansDistinct(s.recipients, s.nextId, e.contacts.phones);
      InsertRowsExtend(s.recipients, s.nextId, e.contacts.phones);
    }
  }

  lemma ImportAdds(s: State, e: Event, k: RecipientKey)
    requires e.Import?
    ensures AddedRight(s, e, k)
  {
    PresentMeans(e.rows, k.phone);
    InsertRowsExtend(s.recipients, e.campaign, PresentPhones(e.rows));
  }

  lemma ContactsAdd(s: State, e: Event, k: RecipientKey)
    requires e.AddContacts?
    ensures AddedRight(s, e, k)
  {
    if e.contacts.Contacts? { InsertRowsExtend(s.recipients, e.campaign, e.contacts.phones); }
  }

  lemma OthersAddNone(s: State, e: Event, k: RecipientKey)
    requires !e.Create? && !e.Import? && !e.AddContacts?
    ensures AddedRight(s, e, k)
  {
  }

  // A row is added only for a number of a new campaign, or of an import or contact list given to a
  // draft or scheduled campaign of the caller's tenant, and it is always PENDING and never tried.
  lemma RecipientsAdded(s: State, e: Event, k: RecipientKey)
    requires Inv(s)
    ensures k in Step(s, e).recipients <==> k in s.recipients || Adds(s, e, k)
    ensures k in Step(s, e).recipients && k !in s.recipients ==> Step(s, e).recipients[k] == Recipient(Pending, None, 0)
  {
    if e.Create? {
      CreateAdds(s, e, k);
    } else if e.Import? {
      ImportAdds(s, e, k);
    } else if e.AddContacts? {
      ContactsAdd(s, e, k);
    } else {
      OthersAddNone(s, e, k);
    }
  }

  // ── One campaign ─────────────────────────────────────────────────────────

  ghost predicate Edits(s: State, e: Event, c: Id) {
    e.Update? && e.campaign == c && Unlaunched(s, e.tenant, c) &&
      (e.newSession.None? || e.newSession == Some(Connected))
  }

  ghost predicate Launches(s: State, e: Event, c: Id) {
    e.Launch? && e.campaign == c && Unlaunched(s, e.tenant, c) && s.campaigns[c].totalContacts > 0 &&
      e.session.Connected?
  }

  ghost predicate Cancels(s: State, e: Event, c: Id) {
    e.Cancel? && e.campaign == c && Owned(s, e.tenant, c) &&
      (s.campaigns[c].status == Running || s.campaigns[c].status == Scheduled)
  }

  ghost predicate Starts(s: State, e: Event, c: Id) {
    e.Start? && CanStart(s, e.job, e.order) && e.job.campaign == c && Owned(s, e.job.tenant, c) &&
      s.campaigns[c].status != Cancelled
  }

  ghost predicate Completes(s: State, e: Event, c: Id) {
    e.Check? && s.worker == AtCheck(c, []) && c in s.campaigns && s.campaigns[c].status != Cancelled
  }

  // What an event leaves of a campaign row; the count of recipients is always exact.
  ghost predicate CampaignAfter(s: State, e: Event, c: Id, after: Campaign)
    requires c in s.campaigns
  {
    var before := s.campaigns[c];
    && after.tenant == before.tenant
    && (e.Import? || e.AddContacts? || after.totalContacts == before.totalContacts)
    && after.scheduledAt ==
        (if !Edits(s, e, c) || e.edit.Keep? then before.scheduledAt
         else if e.edit.Clear? then None else Some(e.edit.at))
    && after.status ==
        if Edits(s, e, c) then (if e.edit.Clear? then Draft else before.status)
        else if Launches(s, e, c) then (if before.scheduledAt.None? then Running else Scheduled)
        else if Cancels(s, e, c) then Cancelled
        else if Starts(s, e, c) then (if e.engineFound then Running else Cancelled)
        else if Completes(s, e, c) then Completed
        else before.status
  }

  lemma UpdateChecks(session: Option<SessionCheck>)
    ensures session != Some(Missing) && session != Some(Disconnected) <==> session.None? || session == Some(Connected)
  {
    if session.Some? {
      match session.value
      case Missing =>
      case Disconnected =>
      case Connected =>
    }
  }

  lemma CallOnRow(s: State, e: Event, c: Id)
    requires c in s.campaigns && (e.Update? || e.Launch? || e.Cancel?)
    ensures c in Step(s, e).campaigns && CampaignAfter(s, e, c, Step(s, e).campaigns[c])
  {
    if e.Update? { UpdateChecks(e.newSession); }
  }

  lemma StartOnRow(s: State, e: Event, c: Id)
    requires c in s.campaigns && e.Start?
    ensures c in Step(s, e).campaigns && CampaignAfter(s, e, c, Step(s, e).campaigns[c])
  {
  }

  lemma CheckOnRow(s: State, e: Event, c: Id)
    requires WorkerSound(s) && c in s.campaigns && e.Check?
    ensures c in Step(s, e).campaigns && CampaignAfter(s, e, c, Step(s, e).campaigns[c])
  {
    if s.worker.AtCheck? && s.worker.rest == [] { assert s.worker == AtCheck(s.worker.campaign, []); }
  }

  lemma OtherOnRow(s: State, e: Event, c: Id)
    requires IdsFresh(s) && c in s.campaigns && !e.Update? && !e.Launch? && !e.Cancel? && !e.Start? && !e.Check?
    ensures c in Step(s, e).campaigns && CampaignAfter(s, e, c, Step(s, e).campaigns[c])
  {
  }

  // A campaign's tenant never changes, its date only by an edit, and its status only by an edit that
  // clears the date, a launch (RUNNING at once, SCHEDULED when it has a date), a cancel, a job taken
  // up (CANCELLED when no engine is found) and the end of a run.
  lemma CampaignMoves(s: State, e: Event, c: Id)
    requires Inv(s) && c in s.campaigns
    ensures c in Step(s, e).campaigns && CampaignAfter(s, e, c, Step(s, e).campaigns[c])
  {
    if e.Update? || e.Launch? || e.Cancel? {
      CallOnRow(s, e, c);
    } else if e.Start? {
      StartOnRow(s, e, c);
    } else if e.Check? {
      CheckOnRow(s, e, c);
    } else {
      OtherOnRow(s, e, c);
    }
  }

  // A campaign is added by a creation with a connected session and different numbers (SCHEDULED when
  // it has a date) or, as an empty draft, by a clone of one of the tenant's campaigns.
  lemma CampaignsAdded(s: State, e: Event, c: Id)
    requires Inv(s) && c !in s.campaigns
    ensures c in Step(s, e).campaigns <==>
              c == s.nextId &&
                ((e.Create? && e.session.Connected? && e.contacts.Contacts? && Distinct(e.contacts.phones)) ||
                 (e.Clone? && Owned(s, e.tenant, e.campaign)))
    ensures c in Step(s, e).campaigns && e.Create? ==>
              Step(s, e).campaigns[c] ==
                Campaign(e.tenant, if e.at.Some? then Scheduled else Running, e.at, |e.contacts.phones|)
    ensures c in Step(s, e).campaigns && e.Clone? ==> Step(s, e).campaigns[c] == Campaign(e.tenant, Draft, None, 0)
  {
    if e.Create? && e.contacts.Contacts? { AllNewMeansDistinct(s.recipients, s.nextId, e.contacts.phones); }
  }

  // ── The queue and the messages ───────────────────────────────────────────

  ghost predicate Creates(s: State, e: Event) {
    e.Create? && e.session.Connected? && e.contacts.Contacts? && Distinct(e.contacts.phones)
  }

  ghost predicate Requeues(s: State, e: Event) {
    && e.Retry? && Owned(s, e.tenant, e.campaign) && s.campaigns[e.campaign].status == Completed
    && exists k :: k in s.recipients && k.campaign == e.campaign && s.recipients[k].status == Failed
  }

  lemma SomebodyFailed(s: State, c: Id)
    ensures KeysWith(s.recipients, c, Failed) != {} <==>
              exists k :: k in s.recipients && k.campaign == c && s.recipients[k].status == Failed
  {
    if k :| k in s.recipients && k.campaign == c && s.recipients[k].status == Failed {
      assert k in KeysWith(s.recipients, c, Failed);
    }
  }

  lemma CreateQueues(s: State, e: Event)
    requires Inv(s) && e.Create?
    ensures Step(s, e).jobs == if Creates(s, e) then s.jobs + multiset{Job(s.nextId, e.tenant)} else s.jobs
  {
    if e.contacts.Contacts? { AllNewMeansDistinct(s.recipients, s.nextId, e.contacts.phones); }
  }

  lemma RetryQueues(s: State, e: Event)
    requires e.Retry?
    ensures Step(s, e).jobs == if Requeues(s, e) then s.jobs + multiset{Job(e.campaign, e.tenant)} else s.jobs
  {
    SomebodyFailed(s, e.campaign);
  }

  lemma OthersQueue(s: State, e: Event)
    requires !e.Create? && !e.Retry?
    ensures Step(s, e).jobs ==
              if e.Launch? && Launches(s, e, e.campaign) then s.jobs + multiset{Job(e.campaign, e.tenant)}
              else if e.Start? && CanStart(s, e.job, e.order) then s.jobs - multiset{e.job}
              else if e.Redeliver? then s.jobs + multiset{e.job} else s.jobs
  {
  }

  // A job is queued by a creation, a launch and a retry that finds somebody FAILED, for the campaign
  // and its tenant; the queue may deliver one again; the worker takes one at a time.
  lemma QueueMoves(s: State, e: Event)
    requires Inv(s)
    ensures Step(s, e).jobs ==
              if Creates(s, e) then s.jobs + multiset{Job(s.nextId, e.tenant)}
              else if (e.Launch? && Launches(s, e, e.campaign)) || Requeues(s, e)
              then s.jobs + multiset{Job(e.campaign, e.tenant)}
              else if e.Start? && CanStart(s, e.job, e.order) then s.jobs - multiset{e.job}
              else if e.Redeliver? then s.jobs + multiset{e.job} else s.jobs
  {
    if e.Create? {
      CreateQueues(s, e);
    } else if e.Retry? {
      RetryQueues(s, e);
    } else {
      OthersQueue(s, e);
    }
  }

  // The worker enters the send loop of a job it takes, with the job's snapshot, exactly when the
  // campaign is the tenant's, is not CANCELLED and has an engine.
  lemma JobTakenUp(s: State, e: Event)
    requires Inv(s) && e.Start? && CanStart(s, e.job, e.order)
    ensures Step(s, e).worker ==
              if Starts(s, e, e.job.campaign) && e.engineFound then AtCheck(e.job.campaign, e.order) else Idle
    ensures forall k :: k in e.order <==>
              k in s.recipients && k.campaign == e.job.campaign && s.recipients[k].status == Pending
  {
    assert forall k :: k in e.order <==> k in Elements(e.order);
  }

  ghost predicate Writes(s: State, e: Event, message: Message) {
    Step(s, e).messages == s.messages[s.nextId := message]
  }

  // A send writes the main message of the recipient being sent to, with the engine's id if the engine
  // took it.
  lemma MainMessageWritten(s: State, outcome: SendOutcome)
    requires Inv(s) && s.worker.Sending?
    ensures Writes(s, Send(outcome),
                   Message(Main(s.worker.key), if outcome.Accepted? then outcome.externalId else None))
  {
    SnapshotHead(s);
  }

  // A link card has its own message.
  lemma LinkMessageWritten(s: State, sent: Option<Option<string>>)
    requires s.worker.Linking? && s.worker.links > 0
    ensures Writes(s, Link(sent), Message(FollowUp(s.worker.key), if sent.Some? then sent.value else None))
  {
  }

  lemma CallsWriteNone(s: State, e: Event)
    requires IsServiceCall(e)
    ensures Step(s, e).messages == s.messages
  {
  }

  lemma StartWritesNone(s: State, job: Job, order: seq<RecipientKey>, engineFound: bool)
    ensures StartRun(s, job, order, engineFound).messages == s.messages
  {
  }

  lemma CheckWritesNone(s: State)
    requires s.worker.AtCheck? && s.worker.campaign in s.campaigns
    ensures CheckRun(s).messages == s.messages
  {
  }

  lemma AckWritesNone(s: State, ext: string, code: int, picked: Id)
    ensures HandleAck(s, ext, code, picked).messages == s.messages
  {
  }

  // Nothing else writes a campaign message.
  lemma NothingElseWritten(s: State, e: Event)
    requires !e.Send? && !e.Link? && !e.OtherMessage?
    ensures Step(s, e).messages == s.messages
  {
    if IsServiceCall(e) {
      CallsWriteNone(s, e);
    } else {
      match e
      case Start(job, order, engineFound) => StartWritesNone(s, job, order, engineFound);
      case Check => if s.worker.AtCheck? && s.worker.campaign in s.campaigns { CheckWritesNone(s); }
      case Ack(ext, code, picked) => AckWritesNone(s, ext, code, picked);
      case _ =>
    }
  }

  // ── The worker ───────────────────────────────────────────────────────────

  // Where an event of the run leaves the worker: before the next status check, at the next recipient
  // unless the campaign was cancelled, at its link cards one after another, or idle at the end.
  ghost predicate WorkerAfter(s: State, e: Event, after: Worker) {
    match s.worker
    case Idle => e.Start? || after == Idle
    case AtCheck(c, rest) =>
      after ==
        if e.Abort? || (e.Check? && c in s.campaigns && (rest == [] || s.campaigns[c].status == Cancelled)) then Idle
        else if e.Check? && c in s.campaigns then Sending(c, rest[0], rest[1..])
        else s.worker
    case Sending(c, k, rest) =>
      after ==
        if e.Abort? then Idle
        else if !e.Send? then s.worker
        else if e.outcome.Accepted? && e.outcome.links > 0 then Linking(c, k, e.outcome.links, rest)
        else AtCheck(c, rest)
    case Linking(c, k, links, rest) =>
      after ==
        if e.Abort? then Idle
        else if !e.Link? || links == 0 then s.worker
        else if links > 1 then Linking(c, k, links - 1, rest)
        else AtCheck(c, rest)
  }

  lemma RunMovesWorker(s: State, e: Event)
    requires WorkerSound(s) && (e.Check? || e.Send? || e.Link? || e.Abort?)
    ensures WorkerAfter(s, e, Step(s, e).worker)
  {
    if s.worker.Sending? { SnapshotHead(s); }
  }

  lemma OthersKeepWorker(s: State, e: Event)
    requires !e.Start? && !e.Check? && !e.Send? && !e.Link? && !e.Abort?
    ensures Step(s, e).worker == s.worker
  {
  }

  lemma WorkerMoves(s: State, e: Event)
    requires Inv(s)
    ensures WorkerAfter(s, e, Step(s, e).worker)
  {
    if e.Check? || e.Send? || e.Link? || e.Abort? {
      RunMovesWorker(s, e);
    } else if !e.Start? {
      OthersKeepWorker(s, e);
    }
  }

  ghost function CardsTo(messages: map<Id, Message>, k: RecipientKey): set<Id> {
    set m | m in messages && messages[m].purpose == FollowUp(k)
  }

  /** The link cards of one recipient, each sent or not. */
  function Cards(sent: seq<Option<Option<string>>>): seq<Event> {
    if sent == [] then [] else Cards(sent[..|sent| - 1]) + [Link(sent[|sent| - 1])]
  }

  lemma CardInserted(messages: map<Id, Message>, m: Id, card: Message, k: RecipientKey)
    requires m !in messages && card.purpose == FollowUp(k)
    ensures |CardsTo(messages[m := card], k)| == |CardsTo(messages, k)| + 1
  {
    assert CardsTo(messages[m := card], k) == CardsTo(messages, k) + {m};
  }

  lemma CardAdded(s: State, sent: Option<Option<string>>)
    requires Inv(s) && s.worker.Linking? && s.worker.links > 0
    ensures |CardsTo(Step(s, Link(sent)).messages, s.worker.key)| == |CardsTo(s.messages, s.worker.key)| + 1
  {
    var card := Message(FollowUp(s.worker.key), if sent.Some? then sent.value else None);
    LinkMessageWritten(s, sent);
    CardInserted(s.messages, s.nextId, card, s.worker.key);
  }

  // A recipient with link cards gets each of them, sent or failed, before the worker goes on to the next.
  lemma {:induction false} CardsFollow(s: State, sent: seq<Option<Option<string>>>)
    requires Inv(s) && s.worker.Linking? && |sent| <= s.worker.links
    ensures var r, w := Exec(s, Cards(sent)), s.worker;
            && Inv(r) && |CardsTo(r.messages, w.key)| == |CardsTo(s.messages, w.key)| + |sent|
            && (|sent| < w.links ==> r.worker == Linking(w.campaign, w.key, w.links - |sent|, w.rest))
            && (0 < |sent| == w.links ==> r.worker == AtCheck(w.campaign, w.rest))
  {
    if sent != [] {
      var init, last := sent[..|sent| - 1], sent[|sent| - 1];
      var r := Exec(s, Cards(init));
      CardsFollow(s, init);
      assert Cards(sent)[..|Cards(init)|] == Cards(init);
      CardAdded(r, last);
      StepKeeps(r, Link(last));
      WorkerMoves(r, Link(last));
    }
  }

  // ── What the calls answer ────────────────────────────────────────────────

  lemma CreateAnswer(s: State, tenant: Id, session: SessionCheck, contacts: Resolved, at: Option<int>)
    requires Inv(s)
    ensures var reply := CreateCampaign(s, tenant, session, contacts, at).1;
            && (reply == NotFound <==> session.Missing?)
            && (reply == BadRequest <==> session.Disconnected? || (session.Connected? && contacts.Unresolved?))
            && (reply == Failure <==> session.Connected? && contacts.Contacts? && !Distinct(contacts.phones))
  {
    if contacts.Contacts? { AllNewMeansDistinct(s.recipients, s.nextId, contacts.phones); }
  }

  // Another tenant's campaign, or none, is not found; one that is past editing is a bad request.
  lemma EditAnswers(s: State, tenant: Id, c: Id, newSession: Option<SessionCheck>, edit: ScheduleEdit,
                    session: SessionCheck)
    ensures var reply := UpdateCampaign(s, tenant, c, newSession, edit).1;
            && (reply == Ok <==> Unlaunched(s, tenant, c) && (newSession.None? || newSession == Some(Connected)))
            && (reply == NotFound <==>
                  !Owned(s, tenant, c) || (Unlaunched(s, tenant, c) && newSession == Some(Missing)))
            && reply != Failure
    ensures var reply := LaunchCampaign(s, tenant, c, session).1;
            && (reply == Ok <==> Unlaunched(s, tenant, c) && s.campaigns[c].totalContacts > 0 && session.Connected?)
            && (reply == NotFound <==> !Owned(s, tenant, c)) && reply != Failure
  {
    UpdateChecks(newSession);
  }

  lemma RecipientAnswers(s: State, tenant: Id, c: Id, rows: seq<Option<Phone>>, contacts: Resolved)
    ensures var reply := ImportRecipients(s, tenant, c, rows).1;
            && (reply == Ok <==> Unlaunched(s, tenant, c)) && (reply == NotFound <==> !Owned(s, tenant, c))
            && reply != Failure
    ensures var reply := AddContactsToCampaign(s, tenant, c, contacts).1;
            && (reply == Ok <==> Unlaunched(s, tenant, c) && contacts.Contacts? && contacts.phones != [])
            && (reply == NotFound <==> !Owned(s, tenant, c)) && reply != Failure
  {
  }

  lemma RunAnswers(s: State, tenant: Id, c: Id)
    ensures var reply := CancelCampaign(s, tenant, c).1;
            && (reply == Ok <==> Cancels(s, Cancel(tenant, c), c)) && (reply == NotFound <==> !Owned(s, tenant, c))
            && reply != Failure
    ensures var reply := RetryFailedCampaign(s, tenant, c).1;
            && (reply == Ok <==> Requeues(s, Retry(tenant, c))) && (reply == NotFound <==> !Owned(s, tenant, c))
            && reply != Failure
    ensures CloneCampaign(s, tenant, c).1 == if Owned(s, tenant, c) then Ok else NotFound
  {
    SomebodyFailed(s, c);
  }

  // ── A refused recipient ──────────────────────────────────────────────────

  lemma StartKeepsOut(s: State, e: Event, k: RecipientKey)
    requires Inv(s) && k in s.recipients && s.recipients[k].status != Pending && k !in Snapshot(s.worker) && e.Start?
    ensures k !in Snapshot(Step(s, e).worker)
  {
    if CanStart(s, e.job, e.order) { JobTakenUp(s, e); }
  }

  lemma RunKeepsOut(s: State, e: Event, k: RecipientKey)
    requires k !in Snapshot(s.worker) && (e.Check? || e.Send? || e.Link? || e.Abort?)
    ensures k !in Snapshot(Step(s, e).worker)
  {
  }

  // A recipient that is not PENDING and not in the worker's snapshot does not come back into it.
  lemma StaysOut(s: State, e: Event, k: RecipientKey)
    requires Inv(s) && k in s.recipients && s.recipients[k].status != Pending && k !in Snapshot(s.worker)
    ensures k !in Snapshot(Step(s, e).worker)
  {
    if e.Start? {
      StartKeepsOut(s, e, k);
    } else if e.Check? || e.Send? || e.Link? || e.Abort? {
      RunKeepsOut(s, e, k);
    } else {
      OthersKeepWorker(s, e);
    }
  }

  lemma SendLeavesRest(s: State, outcome: SendOutcome)
    requires s.worker.Sending? && s.worker.key in s.recipients
    ensures Snapshot(Step(s, Send(outcome)).worker) == s.worker.rest
  {
  }

  lemma SentIsOut(s: State, outcome: SendOutcome)
    requires Inv(s) && s.worker.Sending?
    ensures s.worker.key in s.recipients && s.worker.key !in Snapshot(Step(s, Send(outcome)).worker)
  {
    SnapshotHead(s);
    SendLeavesRest(s, outcome);
  }

  ghost predicate LeavesAlone(e: Event, k: RecipientKey, m: Id) {
    !(e.Ack? && e.picked == m) && !(e.Retry? && e.campaign == k.campaign)
  }

  // FAILED on this message and not in line.
  ghost predicate RefusedAs(s: State, k: RecipientKey, m: Id, retryCount: nat) {
    k in s.recipients && k !in Snapshot(s.worker) && s.recipients[k] == Recipient(Failed, Some(m), retryCount)
  }

  lemma RefusedStep(s: State, e: Event, k: RecipientKey, m: Id, retryCount: nat)
    requires Inv(s) && RefusedAs(s, k, m, retryCount) && LeavesAlone(e, k, m)
    ensures RefusedAs(Step(s, e), k, m, retryCount)
  {
    if s.worker.Sending? { SnapshotHead(s); }
    StaysOut(s, e, k);
    RecipientMoves(s, e, k);
  }

  // A recipient whose last send the engine refused stays FAILED, with that message, whatever else
  // happens, until the message is acknowledged or its campaign is retried.
  lemma {:induction false} RefusedStaysFailed(s: State, later: seq<Event>)
    requires Inv(s) && s.worker.Sending?
    requires forall i :: 0 <= i < |later| ==> LeavesAlone(later[i], s.worker.key, s.nextId)
    ensures var r, k := Exec(Step(s, Send(Rejected)), later), s.worker.key;
            && Inv(r) && k in r.recipients && k in s.recipients && k !in Snapshot(r.worker)
            && r.recipients[k] == Recipient(Failed, Some(s.nextId), s.recipients[k].retryCount)
  {
    var k := s.worker.key;
    SentIsOut(s, Rejected);
    if later == [] {
      StepKeeps(s, Send(Rejected));
      RecipientMoves(s, Send(Rejected), k);
    } else {
      var init := later[..|later| - 1];
      var r := Exec(Step(s, Send(Rejected)), init);
      RefusedStaysFailed(s, init);
      StepKeeps(r, later[|later| - 1]);
      RefusedStep(r, later[|later| - 1], k, s.nextId, s.recipients[k].retryCount);
    }
  }

  // ── Between two sends ────────────────────────────────────────────────────

  // At moment i of the run a retry takes the recipient up.
  ghost predicate TakenUpAt(s: State, events: seq<Event>, k: RecipientKey, i: nat) {
    i < |events| && k in Exec(s, events[..i]).recipients && Retries(Exec(s, events[..i]), events[i], k)
  }

  lemma TriedStep(s: State, e: Event, k: RecipientKey)
    requires Inv(s) && k in s.recipients && s.recipients[k].status != Pending && k !in Snapshot(s.worker)
    requires !Retries(s, e, k)
    ensures var r := Step(s, e);
            Inv(r) && k in r.recipients && r.recipients[k].status != Pending && k !in Snapshot(r.worker)
  {
    StepKeeps(s, e);
    StaysOut(s, e, k);
    RecipientMoves(s, e, k);
  }

  // Without a retry that takes it up, a recipient that has been tried is not PENDING and not in line.
  lemma {:induction false} TriedStaysOut(s: State, later: seq<Event>, k: RecipientKey)
    requires Inv(s) && k in s.recipients && s.recipients[k].status != Pending && k !in Snapshot(s.worker)
    requires forall i: nat :: !TakenUpAt(s, later, k, i)
    ensures var r := Exec(s, later);
            Inv(r) && k in r.recipients && r.recipients[k].status != Pending && k !in Snapshot(r.worker)
  {
    if later != [] {
      var n := |later| - 1;
      forall i: nat ensures !TakenUpAt(s, later[..n], k, i) {
        if i < n { assert later[..n][..i] == later[..i]; }
        assert !TakenUpAt(s, later, k, i);
      }
      TriedStaysOut(s, later[..n], k);
      assert !TakenUpAt(s, later, k, n);
      TriedStep(Exec(s, later[..n]), later[n], k);
    }
  }

  // Nobody gets the main message again without having FAILED: between two sends to one recipient
  // there is a moment at which it is FAILED and a retry of its campaign takes it up.
  lemma SentAgainAfterFailing(s: State, outcome: SendOutcome, between: seq<Event>) returns (i: nat)
    requires Inv(s) && s.worker.Sending?
    requires var r := Exec(Step(s, Send(outcome)), between); r.worker.Sending? && r.worker.key == s.worker.key
    ensures i < |between| && between[i].Retry? && between[i].campaign == s.worker.key.campaign
    ensures var r := Exec(Step(s, Send(outcome)), between[..i]);
            s.worker.key in r.recipients && r.recipients[s.worker.key].status == Failed
  {
    var a, k := Step(s, Send(outcome)), s.worker.key;
    SentIsOut(s, outcome);
    StepKeeps(s, Send(outcome));
    RecipientMoves(s, Send(outcome), k);
    if forall n: nat :: !TakenUpAt(a, between, k, n) {
      TriedStaysOut(a, between, k);
      SnapshotHead(Exec(a, between));
    }
    i :| TakenUpAt(a, between, k, i);
  }
}
