// The promises of the campaign protocol, over all runs.

module CampaignTheorems {
  import opened Common
  import opened CampaignModel
  import opened CampaignInvariant

  // ── At most 1 + retryCount main sends ────────────────────────────────────

  lemma AtMostOneSendPerTry(s: State, k: RecipientKey)
    requires Reachable(s) && k in s.recipients
    ensures Attempts(s, k) <= 1 + s.recipients[k].retryCount
    ensures s.recipients[k].status == Pending || k in Snapshot(s.worker) ==>
              Attempts(s, k) <= s.recipients[k].retryCount
    ensures s.recipients[k].status != Pending ==> 1 <= Attempts(s, k)
  {
    ReachableInv(s);
  }

  // ── What a service call can change ───────────────────────────────────────

  function Target(s: State, e: Event): Id
    requires IsServiceCall(e)
  {
    if e.Create? || e.Clone? then s.nextId else e.campaign
  }

  ghost predicate OnlyRows(rows: map<RecipientKey, Recipient>, t: map<RecipientKey, Recipient>, c: Id) {
    && (forall k :: k in rows && k.campaign != c ==> k in t && t[k] == rows[k])
    && (forall k :: k in t && k.campaign != c ==> k in rows)
  }

  lemma InsertOnlyRows(rows: map<RecipientKey, Recipient>, c: Id, phones: seq<Phone>)
    ensures OnlyRows(rows, InsertRows(rows, c, phones).0, c)
  {
    InsertRowsGrow(rows, c, phones);
  }

  // Only campaign c, its recipients and its jobs; never the worker or the messages.
  ghost predicate OnlyCampaign(s: State, s': State, c: Id) {
    && s'.worker == s.worker && s'.messages == s.messages
    && OneCampaign(s.campaigns, s'.campaigns, c)
    && (c in s.campaigns ==> s'.campaigns[c].tenant == s.campaigns[c].tenant)
    && OnlyRows(s.recipients, s'.recipients, c)
    && (s'.jobs == s.jobs || s'.jobs == s.jobs + multiset{Job(c, s'.campaigns[c].tenant)})
  }

  ghost predicate JobQueued(s: State, c: Id)
    requires c in s.campaigns
  {
    Job(c, s.campaigns[c].tenant) in s.jobs
  }

  // A launched, scheduled or retried campaign has a job; RUNNING only moves to CANCELLED,
  // and COMPLETED and CANCELLED do not move.
  ghost predicate StatusMove(s: State, s': State, c: Id)
    requires OnlyCampaign(s, s', c)
  {
    && (s'.campaigns[c].status in {Running, Scheduled} && !JobQueued(s', c) ==>
          c in s.campaigns && s'.campaigns[c].status == s.campaigns[c].status)
    && (s'.campaigns[c].status == Completed ==>
          && c in s.campaigns && s.campaigns[c].status == Completed
          && (KeysWith(s'.recipients, c, Pending) == KeysWith(s.recipients, c, Pending) || JobQueued(s', c)))
    && (c in s.campaigns && s.campaigns[c].status == Running ==>
          s'.jobs == s.jobs && (s'.campaigns[c].status == Running || s'.campaigns[c].status == Cancelled))
    && (c in s.campaigns && s.campaigns[c].status == Cancelled ==> s'.campaigns[c].status == Cancelled)
  }

  lemma CreateEffect(s: State, tenant: Id, phones: seq<Phone>, at: Option<int>)
    requires s.nextId !in s.campaigns
    ensures OnlyCampaign(s, NewCampaign(s, tenant, phones, at), s.nextId)
    ensures StatusMove(s, NewCampaign(s, tenant, phones, at), s.nextId)
  {
    InsertOnlyRows(s.recipients, s.nextId, phones);
  }

  lemma CloneEffect(s: State, tenant: Id, c: Id)
    requires IdsFresh(s) && CloneCampaign(s, tenant, c).1 == Ok
    ensures OnlyCampaign(s, CloneCampaign(s, tenant, c).0, s.nextId) &&
              StatusMove(s, CloneCampaign(s, tenant, c).0, s.nextId)
  {
  }

  lemma RowEditEffect(s: State, e: Event)
    requires (e.Update? || e.Launch? || e.Cancel?) && Step(s, e) != s
    ensures OnlyCampaign(s, Step(s, e), e.campaign) && StatusMove(s, Step(s, e), e.campaign)
  {
  }

  lemma InsertEffect(s: State, c: Id, phones: seq<Phone>)
    requires c in s.campaigns && Editable(s, c)
    ensures OnlyCampaign(s, InsertRecipients(s, c, phones), c) && StatusMove(s, InsertRecipients(s, c, phones), c)
  {
    InsertOnlyRows(s.recipients, c, phones);
  }

  lemma RetryEffect(s: State, tenant: Id, c: Id)
    requires RetryFailedCampaign(s, tenant, c).1 == Ok
    ensures OnlyCampaign(s, RetryFailedCampaign(s, tenant, c).0, c) &&
              StatusMove(s, RetryFailedCampaign(s, tenant, c).0, c)
  {
  }

  lemma ServiceEffect(s: State, e: Event)
    requires IdsFresh(s) && IsServiceCall(e)
    ensures Step(s, e) != s ==> OnlyCampaign(s, Step(s, e), Target(s, e)) && StatusMove(s, Step(s, e), Target(s, e))
  {
    if e.Create? {
      if CreateCampaign(s, e.tenant, e.session, e.contacts, e.at).1 == Ok {
        assert s.nextId !in s.campaigns;
        CreateEffect(s, e.tenant, e.contacts.phones, e.at);
      }
    } else if e.Clone? {
      if CloneCampaign(s, e.tenant, e.campaign).1 == Ok { CloneEffect(s, e.tenant, e.campaign); }
    } else if e.Update? || e.Launch? || e.Cancel? {
      if Step(s, e) != s { RowEditEffect(s, e); }
    } else if e.Import? {
      if ImportRecipients(s, e.tenant, e.campaign, e.rows).1 == Ok {
        InsertEffect(s, e.campaign, PresentPhones(e.rows));
      }
    } else if e.AddContacts? {
      if AddContactsToCampaign(s, e.tenant, e.campaign, e.contacts).1 == Ok {
        InsertEffect(s, e.campaign, e.contacts.phones);
      }
    } else {
      if RetryFailedCampaign(s, e.tenant, e.campaign).1 == Ok { RetryEffect(s, e.tenant, e.campaign); }
    }
  }

  // ── What the worker can change ───────────────────────────────────────────

  function InFlight(w: Worker, c: Id): nat {
    if w.Sending? && w.campaign == c then 1 else 0
  }

  lemma StartMoves(s: State, job: Job, order: seq<RecipientKey>, engineFound: bool, c: Id)
    requires CanStart(s, job, order) && c in s.campaigns
    ensures c in StartRun(s, job, order, engineFound).campaigns
    ensures StartRun(s, job, order, engineFound).campaigns[c].tenant == s.campaigns[c].tenant
    ensures s.campaigns[c].status == Cancelled || !JobQueued(s, c) ==>
              && StartRun(s, job, order, engineFound).campaigns[c].status == s.campaigns[c].status
              && !WorkingOn(StartRun(s, job, order, engineFound).worker, c)
    ensures StartRun(s, job, order, engineFound).messages == s.messages
    ensures StartRun(s, job, order, engineFound).jobs == s.jobs - multiset{job}
  {
  }

  lemma NewMain(messages: map<Id, Message>, m: Id, row: Message, c: Id)
    requires m !in messages
    ensures MainsOf(messages[m := row], c) ==
              MainsOf(messages, c) + (if row.purpose.Main? && row.purpose.to.campaign == c then {m} else {})
  {
  }

  lemma SendMoves(s: State, outcome: SendOutcome, c: Id)
    requires Inv(s) && s.worker.Sending? && s.worker.key in s.recipients
    ensures SendMain(s, outcome).campaigns == s.campaigns && SendMain(s, outcome).jobs == s.jobs
    ensures WorkingOn(SendMain(s, outcome).worker, c) <==> WorkingOn(s.worker, c)
    ensures InFlight(SendMain(s, outcome).worker, c) == 0
    ensures MainsOf(SendMain(s, outcome).messages, c) ==
              MainsOf(s.messages, c) + (if s.worker.campaign == c then {s.nextId} else {})
  {
    SnapshotHead(s);
    var row := SendMain(s, outcome).messages[s.nextId];
    assert SendMain(s, outcome).messages == s.messages[s.nextId := row];
    NewMain(s.messages, s.nextId, row, c);
  }

  lemma ExtraMessageMoves(s: State, e: Event, c: Id)
    requires Inv(s) && (e.Link? || e.OtherMessage?)
    ensures Step(s, e).campaigns == s.campaigns && Step(s, e).jobs == s.jobs
    ensures WorkingOn(Step(s, e).worker, c) <==> WorkingOn(s.worker, c)
    ensures InFlight(Step(s, e).worker, c) == InFlight(s.worker, c)
    ensures MainsOf(Step(s, e).messages, c) == MainsOf(s.messages, c)
  {
    if Step(s, e) != s {
      var row := Step(s, e).messages[s.nextId];
      assert Step(s, e).messages == s.messages[s.nextId := row];
      NewMain(s.messages, s.nextId, row, c);
    }
  }

  // ── No campaign is stranded ──────────────────────────────────────────────

  // A campaign that waits, or still has somebody to send to, has a job queued.
  ghost predicate WaitingServed(s: State) {
    forall c :: c in s.campaigns ==>
      && (s.campaigns[c].status == Scheduled ==> JobQueued(s, c))
      && (s.campaigns[c].status == Completed && KeysWith(s.recipients, c, Pending) != {} ==> JobQueued(s, c))
  }

  // A RUNNING campaign is being worked on or has a job queued.
  ghost predicate RunningServed(s: State) {
    forall c :: c in s.campaigns && s.campaigns[c].status == Running ==> JobQueued(s, c) || WorkingOn(s.worker, c)
  }

  ghost predicate Unstranded(s: State) {
    WaitingServed(s) && RunningServed(s)
  }

  // The step serves waiting campaigns if the state before did, and running ones likewise.
  ghost predicate Serves(s: State, s': State) {
    && (WaitingServed(s) ==> WaitingServed(s'))
    && (RunningServed(s) ==> RunningServed(s'))
  }

  // A run that reaches its end and is not cancelled completes the campaign with nobody left PENDING.
  lemma CompletionLeavesNonePending(s: State, k: RecipientKey)
    requires Inv(s) && s.worker.AtCheck?
    requires s.campaigns[s.worker.campaign].status != Completed
    requires CheckRun(s).campaigns[s.worker.campaign].status == Completed
    ensures KeysWith(CheckRun(s).recipients, s.worker.campaign, Pending) == {}
    ensures k in s.recipients && k.campaign == s.worker.campaign ==> 1 <= Attempts(CheckRun(s), k)
  {
    assert Snapshot(s.worker) == [];
    if k in s.recipients && k.campaign == s.worker.campaign {
      assert Attempts(CheckRun(s), k) == Attempts(s, k);
    }
  }

  lemma EffectServes(s: State, s': State, c: Id)
    requires OnlyCampaign(s, s', c) && StatusMove(s, s', c)
    ensures Serves(s, s')
  {
    forall d | d in s'.campaigns && d != c
      ensures KeysWith(s'.recipients, d, Pending) == KeysWith(s.recipients, d, Pending)
      ensures JobQueued(s', d) <==> JobQueued(s, d)
    {
    }
  }

  lemma ServiceStepServes(s: State, e: Event)
    requires Inv(s) && IsServiceCall(e)
    ensures Serves(s, Step(s, e))
  {
    ServiceEffect(s, e);
    if Step(s, e) != s { EffectServes(s, Step(s, e), Target(s, e)); }
  }

  lemma StartKeepsQueue(s: State, job: Job, order: seq<RecipientKey>, engineFound: bool, c: Id)
    requires CanStart(s, job, order) && c in s.campaigns
    requires JobQueued(s, c) && Job(c, s.campaigns[c].tenant) != job
    ensures var s' := StartRun(s, job, order, engineFound); c in s'.campaigns && JobQueued(s', c)
  {
  }

  lemma StartServesWaiting(s: State, job: Job, order: seq<RecipientKey>, engineFound: bool)
    requires CanStart(s, job, order) && WaitingServed(s)
    ensures WaitingServed(StartRun(s, job, order, engineFound))
  {
    forall c | c in s.campaigns && JobQueued(s, c) && Job(c, s.campaigns[c].tenant) != job
      ensures c in StartRun(s, job, order, engineFound).campaigns && JobQueued(StartRun(s, job, order, engineFound), c)
    {
      StartKeepsQueue(s, job, order, engineFound, c);
    }
  }

  lemma StartServesRunning(s: State, job: Job, order: seq<RecipientKey>, engineFound: bool)
    requires CanStart(s, job, order) && RunningServed(s)
    ensures RunningServed(StartRun(s, job, order, engineFound))
  {
    forall c | c in s.campaigns && JobQueued(s, c) && Job(c, s.campaigns[c].tenant) != job
      ensures c in StartRun(s, job, order, engineFound).campaigns && JobQueued(StartRun(s, job, order, engineFound), c)
    {
      StartKeepsQueue(s, job, order, engineFound, c);
    }
  }

  lemma StartServes(s: State, job: Job, order: seq<RecipientKey>, engineFound: bool)
    requires CanStart(s, job, order)
    ensures Serves(s, StartRun(s, job, order, engineFound))
  {
    if WaitingServed(s) { StartServesWaiting(s, job, order, engineFound); }
    if RunningServed(s) { StartServesRunning(s, job, order, engineFound); }
  }

  lemma CheckServes(s: State)
    requires Inv(s) && s.worker.AtCheck?
    ensures Serves(s, CheckRun(s))
  {
    var c := s.worker.campaign;
    if s.campaigns[c].status != Completed && CheckRun(s).campaigns[c].status == Completed {
      CompletionLeavesNonePending(s, RecipientKey(0, Phone("")));
    }
  }

  lemma NoNewPendingServes(s: State, s': State)
    requires s'.campaigns == s.campaigns && s.jobs <= s'.jobs
    requires forall c :: WorkingOn(s.worker, c) ==> WorkingOn(s'.worker, c)
    requires forall c :: KeysWith(s'.recipients, c, Pending) <= KeysWith(s.recipients, c, Pending)
    ensures Serves(s, s')
  {
  }

  lemma SendServes(s: State, outcome: SendOutcome)
    requires WorkerSound(s) && s.worker.Sending? && s.worker.key in s.recipients
    ensures Serves(s, SendMain(s, outcome))
  {
    NoNewPendingServes(s, SendMain(s, outcome));
  }

  lemma LinkServes(s: State, sent: Option<Option<string>>)
    requires s.worker.Linking? && s.worker.links > 0
    ensures Serves(s, SendLink(s, sent))
  {
    NoNewPendingServes(s, SendLink(s, sent));
  }

  lemma AckServes(s: State, ext: string, code: int, picked: Id)
    ensures Serves(s, HandleAck(s, ext, code, picked))
  {
    NoNewPendingServes(s, HandleAck(s, ext, code, picked));
  }

  lemma WorkerStepServes(s: State, e: Event)
    requires Inv(s) && !IsServiceCall(e) && !e.Abort?
    ensures Serves(s, Step(s, e))
  {
    match e
    case Start(job, order, found) => if CanStart(s, job, order) { StartServes(s, job, order, found); }
    case Check => if s.worker.AtCheck? { CheckServes(s); }
    case Send(outcome) => if s.worker.Sending? && s.worker.key in s.recipients { SendServes(s, outcome); }
    case Link(sent) => if s.worker.Linking? && s.worker.links > 0 { LinkServes(s, sent); }
    case Ack(ext, code, picked) => AckServes(s, ext, code, picked);
    case OtherMessage(ext) => NoNewPendingServes(s, Step(s, e));
    case Redeliver(job) => NoNewPendingServes(s, Step(s, e));
  }

  // The throw that strands: in the middle of a RUNNING campaign with no other job for it.
  ghost predicate Strands(s: State, e: Event) {
    && e.Abort? && !s.worker.Idle?
    && s.worker.campaign in s.campaigns && s.campaigns[s.worker.campaign].status == Running
    && !JobQueued(s, s.worker.campaign)
  }

  lemma StepServes(s: State, e: Event)
    requires Inv(s)
    ensures WaitingServed(s) ==> WaitingServed(Step(s, e))
    ensures RunningServed(s) ==> (RunningServed(Step(s, e)) <==> !Strands(s, e))
  {
    if IsServiceCall(e) {
      ServiceStepServes(s, e);
    } else if !e.Abort? {
      WorkerStepServes(s, e);
    } else if Strands(s, e) {
      assert !WorkingOn(Step(s, e).worker, s.worker.campaign);
    }
  }

  // Nobody is stranded by any step but one: a throw in the middle of a RUNNING campaign with no
  // other job for it. A throw after a cancel, or with another job queued, is harmless.
  lemma StrandsIff(s: State, e: Event)
    requires Inv(s) && Unstranded(s)
    ensures Unstranded(Step(s, e)) <==> !Strands(s, e)
  {
    StepServes(s, e);
  }

  lemma {:induction false} RunServesWaiting(events: seq<Event>)
    ensures WaitingServed(Exec(EMPTY, events))
  {
    if events != [] {
      var before := events[..|events| - 1];
      RunServesWaiting(before);
      RunKeeps(EMPTY, before);
      StepServes(Exec(EMPTY, before), events[|events| - 1]);
    }
  }

  // In every reachable state, whatever runs have thrown, a SCHEDULED campaign and a COMPLETED one
  // with somebody PENDING have a job queued.
  lemma WaitingNeverStranded(s: State, c: Id)
    requires Reachable(s) && c in s.campaigns
    ensures s.campaigns[c].status == Scheduled ==> JobQueued(s, c)
    ensures s.campaigns[c].status == Completed && KeysWith(s.recipients, c, Pending) != {} ==> JobQueued(s, c)
  {
    var events: seq<Event> :| Exec(EMPTY, events) == s;
    RunServesWaiting(events);
  }

  ghost predicate NoneStrands(events: seq<Event>) {
    events == [] ||
    (NoneStrands(events[..|events| - 1]) && !Strands(Exec(EMPTY, events[..|events| - 1]), events[|events| - 1]))
  }

  lemma {:induction false} RunServesRunning(events: seq<Event>)
    requires NoneStrands(events)
    ensures RunningServed(Exec(EMPTY, events))
  {
    if events != [] {
      var before := events[..|events| - 1];
      RunServesRunning(before);
      RunKeeps(EMPTY, before);
      StepServes(Exec(EMPTY, before), events[|events| - 1]);
    }
  }

  // After a run in which no throw strands, a RUNNING campaign also has a job queued or running.
  lemma NoCampaignStranded(events: seq<Event>, c: Id)
    requires NoneStrands(events) && c in Exec(EMPTY, events).campaigns
    ensures var s := Exec(EMPTY, events);
            && (s.campaigns[c].status == Scheduled ==> JobQueued(s, c))
            && (s.campaigns[c].status == Running ==> JobQueued(s, c) || WorkingOn(s.worker, c))
            && (s.campaigns[c].status == Completed && KeysWith(s.recipients, c, Pending) != {} ==> JobQueued(s, c))
  {
    RunServesRunning(events);
    RunServesWaiting(events);
  }

  // With no job left, a completed campaign has tried every recipient, and none more often than allowed.
  lemma CompletedTriedEveryone(s: State, k: RecipientKey)
    requires Reachable(s) && k in s.recipients
    requires k.campaign in s.campaigns && s.campaigns[k.campaign].status == Completed && !JobQueued(s, k.campaign)
    ensures 1 <= Attempts(s, k) <= 1 + s.recipients[k].retryCount
  {
    WaitingNeverStranded(s, k.campaign);
    ReachableInv(s);
    assert k !in KeysWith(s.recipients, k.campaign, Pending);
  }

  // ── A run that throws strands its campaign ───────────────────────────────

  ghost predicate Stranded(s: State, c: Id) {
    c in s.campaigns && s.campaigns[c].status == Running && !JobQueued(s, c) && !WorkingOn(s.worker, c)
  }

  lemma AbortStrands(s: State, c: Id)
    requires Inv(s) && c in s.campaigns && !Stranded(s, c)
    ensures Stranded(Step(s, Abort), c) <==> Strands(s, Abort) && s.worker.campaign == c
  {
  }

  lemma OneRecipientCreated(p: Phone)
    ensures Step(EMPTY, Create(0, Connected, Contacts([p]), None)) == NewCampaign(EMPTY, 0, [p], None)
    ensures KeysWith(NewCampaign(EMPTY, 0, [p], None).recipients, 0, Pending) == {RecipientKey(0, p)}
  {
    var k := RecipientKey(0, p);
    assert [p][..0] == [];
    assert AllNew(EMPTY.recipients, 0, [p]);
    assert InsertRows(EMPTY.recipients, 0, [p][..0]) == (EMPTY.recipients, 0);
    assert NewCampaign(EMPTY, 0, [p], None).recipients == EMPTY.recipients[k := Recipient(Pending, None, 0)];
  }

  lemma OneRecipientThrows(p: Phone)
    ensures var s := Step(NewCampaign(EMPTY, 0, [p], None), Start(Job(0, 0), [RecipientKey(0, p)], true));
            && Strands(s, Abort) && Stranded(Step(s, Abort), 0)
            && KeysWith(s.recipients, 0, Pending) == {RecipientKey(0, p)}
  {
    var k, s0 := RecipientKey(0, p), NewCampaign(EMPTY, 0, [p], None);
    OneRecipientCreated(p);
    assert forall x :: x in [k] <==> x == k;
    assert Elements([k]) == {k};
    assert CanStart(s0, Job(0, 0), [k]);
  }

  lemma TwoSteps(s: State, e0: Event, e1: Event)
    ensures Exec(s, [e0, e1]) == Step(Step(s, e0), e1)
  {
    assert [e0, e1][..1] == [e0] && [e0][..0] == [];
    assert Exec(s, [e0]) == Step(Exec(s, []), e0);
  }

  lemma NoneStrandsTwo(e0: Event, e1: Event)
    requires !e0.Abort? && !e1.Abort?
    ensures NoneStrands([e0, e1])
  {
    assert [e0, e1][..1] == [e0] && [e0][..0] == [];
    assert NoneStrands([e0][..0]);
  }

  // The failing input: an immediate campaign for one number is created and taken up; the run then
  // throws, and the campaign is RUNNING with its recipient PENDING and nothing left to send to it.
  lemma StrandingReachable(p: Phone)
    ensures var before := [Create(0, Connected, Contacts([p]), None), Start(Job(0, 0), [RecipientKey(0, p)], true)];
            && NoneStrands(before) && Strands(Exec(EMPTY, before), Abort)
            && Stranded(Step(Exec(EMPTY, before), Abort), 0)
            && KeysWith(Step(Exec(EMPTY, before), Abort).recipients, 0, Pending) == {RecipientKey(0, p)}
  {
    var e0, e1 := Create(0, Connected, Contacts([p]), None), Start(Job(0, 0), [RecipientKey(0, p)], true);
    OneRecipientCreated(p);
    OneRecipientThrows(p);
    TwoSteps(EMPTY, e0, e1);
    NoneStrandsTwo(e0, e1);
  }

  lemma StrandedService(s: State, e: Event, c: Id)
    requires Inv(s) && Stranded(s, c) && IsServiceCall(e) && !(e.Cancel? && e.campaign == c)
    ensures Stranded(Step(s, e), c) && Step(s, e).messages == s.messages
  {
    ServiceEffect(s, e);
    var s' := Step(s, e);
    if s' != s && Target(s, e) == c { assert s'.campaigns[c].status == Running; }
  }

  lemma StrandedSend(s: State, e: Event, c: Id)
    requires Inv(s) && Stranded(s, c) && (e.Send? || e.Link? || e.OtherMessage?)
    ensures Stranded(Step(s, e), c) && MainsOf(Step(s, e).messages, c) == MainsOf(s.messages, c)
  {
    if e.Send? {
      if s.worker.Sending? && s.worker.key in s.recipients { SendMoves(s, e.outcome, c); }
    } else {
      ExtraMessageMoves(s, e, c);
    }
  }

  lemma StrandedQuiet(s: State, e: Event, c: Id)
    requires Inv(s) && Stranded(s, c) && !IsServiceCall(e) && !(e.Redeliver? && e.job.campaign == c)
    requires !e.Start? && !e.Send? && !e.Link? && !e.OtherMessage?
    ensures Stranded(Step(s, e), c) && Step(s, e).messages == s.messages
  {
  }

  lemma StrandedWorker(s: State, e: Event, c: Id)
    requires Inv(s) && Stranded(s, c) && !IsServiceCall(e) && !(e.Redeliver? && e.job.campaign == c)
    ensures Stranded(Step(s, e), c) && MainsOf(Step(s, e).messages, c) == MainsOf(s.messages, c)
  {
    if e.Send? || e.Link? || e.OtherMessage? {
      StrandedSend(s, e, c);
    } else if e.Start? {
      if CanStart(s, e.job, e.order) { StartMoves(s, e.job, e.order, e.engineFound, c); }
    } else {
      StrandedQuiet(s, e, c);
    }
  }

  // Nothing but a cancel (or the queue delivering the job again) gets it moving: its unsent recipients stay unsent.
  lemma {:induction false} StrandedUntilCancelled(s: State, events: seq<Event>, c: Id)
    requires Inv(s) && Stranded(s, c)
    requires forall i :: 0 <= i < |events| ==> !(events[i].Cancel? && events[i].campaign == c)
    requires forall i :: 0 <= i < |events| ==> !(events[i].Redeliver? && events[i].job.campaign == c)
    ensures Stranded(Exec(s, events), c) && Inv(Exec(s, events))
    ensures MainsOf(Exec(s, events).messages, c) == MainsOf(s.messages, c)
  {
    if events != [] {
      var before, e := events[..|events| - 1], events[|events| - 1];
      StrandedUntilCancelled(s, before, c);
      StepKeeps(Exec(s, before), e);
      if IsServiceCall(e) { StrandedService(Exec(s, before), e, c); } else { StrandedWorker(Exec(s, before), e, c); }
    }
  }

  // ── CANCELLED is terminal ────────────────────────────────────────────────

  ghost predicate CancelledNoGain(s: State, s': State, c: Id) {
    && c in s'.campaigns && s'.campaigns[c].status == Cancelled
    && |MainsOf(s'.messages, c)| + InFlight(s'.worker, c) <= |MainsOf(s.messages, c)| + InFlight(s.worker, c)
  }

  lemma CancelledService(s: State, e: Event, c: Id)
    requires Inv(s) && c in s.campaigns && s.campaigns[c].status == Cancelled && IsServiceCall(e)
    ensures CancelledNoGain(s, Step(s, e), c)
  {
    ServiceEffect(s, e);
  }

  lemma CancelledQuiet(s: State, e: Event, c: Id)
    requires Inv(s) && c in s.campaigns && s.campaigns[c].status == Cancelled && !IsServiceCall(e)
    requires !e.Start? && !e.Send? && !e.Link? && !e.OtherMessage?
    ensures CancelledNoGain(s, Step(s, e), c)
  {
    assert Step(s, e).messages == s.messages;
  }

  lemma CancelledWorker(s: State, e: Event, c: Id)
    requires Inv(s) && c in s.campaigns && s.campaigns[c].status == Cancelled && !IsServiceCall(e)
    ensures CancelledNoGain(s, Step(s, e), c)
  {
    if e.Start? {
      if CanStart(s, e.job, e.order) { StartMoves(s, e.job, e.order, e.engineFound, c); }
    } else if e.Send? {
      if s.worker.Sending? && s.worker.key in s.recipients { SendMoves(s, e.outcome, c); }
    } else if e.Link? || e.OtherMessage? {
      ExtraMessageMoves(s, e, c);
    } else {
      CancelledQuiet(s, e, c);
    }
  }

  // After a cancel the campaign stays CANCELLED in every run, and at most the one
  // recipient already past the status check still gets its main message.
  lemma {:induction false} CancelledForever(s: State, events: seq<Event>, c: Id)
    requires Inv(s) && c in s.campaigns && s.campaigns[c].status == Cancelled
    ensures Inv(Exec(s, events)) && c in Exec(s, events).campaigns
    ensures Exec(s, events).campaigns[c].status == Cancelled
    ensures |MainsOf(Exec(s, events).messages, c)| + InFlight(Exec(s, events).worker, c)
              <= |MainsOf(s.messages, c)| + InFlight(s.worker, c)
  {
    if events != [] {
      var before, e := events[..|events| - 1], events[|events| - 1];
      CancelledForever(s, before, c);
      StepKeeps(Exec(s, before), e);
      if IsServiceCall(e) { CancelledService(Exec(s, before), e, c); } else { CancelledWorker(Exec(s, before), e, c); }
    }
  }

  lemma AtMostOneSendAfterCancel(s: State, tenant: Id, c: Id, later: seq<Event>)
    requires Reachable(s) && CancelCampaign(s, tenant, c).1 == Ok
    ensures c in Exec(Step(s, Cancel(tenant, c)), later).campaigns
    ensures Exec(Step(s, Cancel(tenant, c)), later).campaigns[c].status == Cancelled
    ensures |MainsOf(Exec(Step(s, Cancel(tenant, c)), later).messages, c)|
              <= |MainsOf(s.messages, c)| + InFlight(s.worker, c)
  {
    ReachableInv(s);
    StepKeeps(s, Cancel(tenant, c));
    CancelledForever(Step(s, Cancel(tenant, c)), later, c);
  }

  // ── Message ids and acknowledgements ─────────────────────────────────────

  lemma MessageIdsInjective(s: State, a: RecipientKey, b: RecipientKey)
    requires Reachable(s) && a in s.recipients && b in s.recipients
    requires s.recipients[a].messageId.Some?
    requires s.recipients[a].messageId == s.recipients[b].messageId
    ensures a == b
    ensures s.recipients[a].messageId.value in s.messages
    ensures s.messages[s.recipients[a].messageId.value].purpose == Main(a)
  {
    ReachableInv(s);
  }

  lemma AckedOnly(recipients: map<RecipientKey, Recipient>, c: Id, m: Id, st: RecipientStatus, a: RecipientKey)
    requires a in recipients && Acked(recipients, c, m, st)[a] != recipients[a]
    requires forall k :: k in recipients && recipients[k].messageId == Some(m) ==> k == a
    ensures Acked(recipients, c, m, st) == recipients[a := recipients[a].(status := st)]
  {
  }

  // The step that changed a row marked it, and only it, with the code's status.
  lemma AckMarks(s: State, ext: string, code: int, picked: Id, a: RecipientKey)
    requires a in s.recipients && a in Step(s, Ack(ext, code, picked)).recipients
    requires Step(s, Ack(ext, code, picked)).recipients[a] != s.recipients[a]
    ensures picked in s.messages && s.messages[picked].externalId == Some(ext)
    ensures s.recipients[a].messageId == Some(picked) && AckStatus(code).Some?
    ensures CampaignOf(s.messages[picked]) == Some(a.campaign)
    ensures Step(s, Ack(ext, code, picked))
              == s.(recipients := Acked(s.recipients, a.campaign, picked, AckStatus(code).value))
  {
  }

  // An acknowledgement changes at most one recipient row, the one whose main message it names,
  // and that row only in its status; acknowledging a follow-up link changes none.
  lemma AckChangesAtMostOne(s: State, ext: string, code: int, picked: Id, a: RecipientKey)
    requires Reachable(s) && a in s.recipients
    requires a in Step(s, Ack(ext, code, picked)).recipients
    requires Step(s, Ack(ext, code, picked)).recipients[a] != s.recipients[a]
    ensures picked in s.messages && s.messages[picked] == Message(Main(a), Some(ext))
    ensures AckStatus(code).Some?
    ensures Step(s, Ack(ext, code, picked))
              == s.(recipients := s.recipients[a := s.recipients[a].(status := AckStatus(code).value)])
  {
    AckMarks(s, ext, code, picked, a);
    MessageIdsInjective(s, a, a);
    forall k | k in s.recipients && s.recipients[k].messageId == Some(picked) ensures k == a {
      MessageIdsInjective(s, a, k);
    }
    AckedOnly(s.recipients, a.campaign, picked, AckStatus(code).value, a);
  }

  lemma AckedNobody(recipients: map<RecipientKey, Recipient>, c: Id, m: Id, st: RecipientStatus)
    requires forall k :: k in recipients ==> recipients[k].messageId != Some(m)
    ensures Acked(recipients, c, m, st) == recipients
  {
  }

  lemma FollowUpAckChangesNothing(s: State, ext: string, code: int, picked: Id)
    requires Reachable(s) && picked in s.messages && !s.messages[picked].purpose.Main?
    ensures Step(s, Ack(ext, code, picked)) == s
  {
    ReachableInv(s);
    var c := CampaignOf(s.messages[picked]);
    if c.Some? && AckStatus(code).Some? {
      AckedNobody(s.recipients, c.value, picked, AckStatus(code).value);
    }
  }

  // ── Conservation ─────────────────────────────────────────────────────────

  function CountWith(s: State, c: Id, st: RecipientStatus): nat {
    |KeysWith(s.recipients, c, st)|
  }

  lemma DisjointSizes<T>(a: set<T>, b: set<T>, c: set<T>, d: set<T>, e: set<T>, f: set<T>)
    requires a !! b !! c !! d !! e !! f
    ensures |a + b + c + d + e + f| == |a| + |b| + |c| + |d| + |e| + |f|
  {
    assert |a + b| == |a| + |b|;
    assert |a + b + c| == |a + b| + |c|;
    assert |a + b + c + d| == |a + b + c| + |d|;
    assert |a + b + c + d + e| == |a + b + c + d| + |e|;
  }

  lemma StatusesCover(s: State, c: Id)
    ensures KeysOf(s.recipients, c) ==
              KeysWith(s.recipients, c, Pending) + KeysWith(s.recipients, c, Sent)
              + KeysWith(s.recipients, c, Delivered) + KeysWith(s.recipients, c, Read)
              + KeysWith(s.recipients, c, Failed) + KeysWith(s.recipients, c, OptedOut)
  {
    forall k | k in KeysOf(s.recipients, c) ensures k in KeysWith(s.recipients, c, s.recipients[k].status) {}
  }

  lemma StatusesDisjoint(s: State, c: Id)
    ensures KeysWith(s.recipients, c, Pending) !! KeysWith(s.recipients, c, Sent)
              !! KeysWith(s.recipients, c, Delivered) !! KeysWith(s.recipients, c, Read)
              !! KeysWith(s.recipients, c, Failed) !! KeysWith(s.recipients, c, OptedOut)
  {
  }

  lemma StatusesPartition(s: State, c: Id)
    ensures |KeysOf(s.recipients, c)| ==
              CountWith(s, c, Pending) + CountWith(s, c, Sent) + CountWith(s, c, Delivered)
              + CountWith(s, c, Read) + CountWith(s, c, Failed) + CountWith(s, c, OptedOut)
  {
    var r := s.recipients;
    var p, t, d := KeysWith(r, c, Pending), KeysWith(r, c, Sent), KeysWith(r, c, Delivered);
    var e, f, o := KeysWith(r, c, Read), KeysWith(r, c, Failed), KeysWith(r, c, OptedOut);
    assert KeysOf(r, c) == p + t + d + e + f + o by { StatusesCover(s, c); }
    StatusesDisjoint(s, c);
    DisjointSizes(p, t, d, e, f, o);
  }

  lemma RecipientsConserved(s: State, c: Id)
    requires Reachable(s) && c in s.campaigns
    ensures s.campaigns[c].totalContacts == |KeysOf(s.recipients, c)|
    ensures s.campaigns[c].totalContacts ==
              CountWith(s, c, Pending) + CountWith(s, c, Sent)
              + CountWith(s, c, Delivered) + CountWith(s, c, Read)
              + CountWith(s, c, Failed) + CountWith(s, c, OptedOut)
  {
    ReachableInv(s);
    StatusesPartition(s, c);
  }
}
