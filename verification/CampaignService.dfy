// The code that drives the campaign protocol, in the order it writes: the
// service methods of CampaignsService, CampaignProcessor.handleCampaign and
// the acknowledgement handler, over one shared database and queue.

module CampaignService {
  import opened Common
  import opened CampaignInvariant
  import opened CampaignTheorems
  import opened M = CampaignModel

  // errors holds the CSV row numbers rejected for a missing phone number; row 1 is the header.
  datatype ImportResult = ImportResult(created: nat, skipped: nat, errors: seq<nat>)

  lemma {:induction false} AllNewPrefix(rows: map<RecipientKey, Recipient>, c: Id, phones: seq<Phone>, n: nat)
    requires n <= |phones| && !AllNew(rows, c, phones[..n])
    ensures !AllNew(rows, c, phones)
  {
    if n < |phones| {
      assert phones[..|phones| - 1][..n] == phones[..n];
      AllNewPrefix(rows, c, phones[..|phones| - 1], n);
    } else {
      assert phones[..n] == phones;
    }
  }

  lemma {:induction false} InsertedHas(rows: map<RecipientKey, Recipient>, c: Id, phones: seq<Phone>, p: Phone)
    ensures RecipientKey(c, p) in InsertRows(rows, c, phones).0 <==> RecipientKey(c, p) in rows || p in phones
  {
    if phones != [] {
      InsertedHas(rows, c, phones[..|phones| - 1], p);
      assert phones == phones[..|phones| - 1] + [phones[|phones| - 1]];
    }
  }

  /** createMany: with skipDuplicates existing keys are passed over, without it they fail the insert. */
  method CreateMany(rows: map<RecipientKey, Recipient>, c: Id, phones: seq<Phone>, skipDuplicates: bool)
    returns (inserted: bool, rows': map<RecipientKey, Recipient>, count: nat)
    ensures skipDuplicates ==> inserted
    ensures inserted ==> (rows', count) == InsertRows(rows, c, phones)
    ensures !skipDuplicates ==> (inserted <==> AllNew(rows, c, phones))
  {
    rows', count := rows, 0;
    for i := 0 to |phones|
      invariant (rows', count) == InsertRows(rows, c, phones[..i])
      invariant !skipDuplicates ==> AllNew(rows, c, phones[..i])
    {
      var key := RecipientKey(c, phones[i]);
      assert phones[..i + 1][..i] == phones[..i];
      InsertedHas(rows, c, phones[..i], phones[i]);
      if key in rows' {
        if !skipDuplicates {
          AllNewPrefix(rows, c, phones, i + 1);
          return false, rows', count;
        }
      } else {
        rows', count := rows'[key := Recipient(Pending, None, 0)], count + 1;
      }
    }
    assert phones[..|phones|] == phones;
    inserted := true;
  }

  /** The CSV loop: keep the phone numbers present, count and report the rows without one. */
  method ScanRows(rows: seq<Option<Phone>>) returns (valid: seq<Phone>, skipped: nat, errors: seq<nat>)
    ensures valid == PresentPhones(rows) && |valid| + skipped == |rows|
    ensures forall i, j :: 0 <= i < j < |errors| ==> errors[i] < errors[j]
    ensures forall n :: n in errors <==> 2 <= n < |rows| + 2 && rows[n - 2] == None
    ensures |errors| == skipped
  {
    valid, skipped, errors := [], 0, [];
    for i := 0 to |rows|
      invariant valid == PresentPhones(rows[..i]) && |valid| + skipped == i && |errors| == skipped
      invariant forall j, k :: 0 <= j < k < |errors| ==> errors[j] < errors[k]
      invariant forall n :: n in errors <==> 2 <= n < i + 2 && rows[n - 2] == None
      invariant forall j :: 0 <= j < |errors| ==> errors[j] < i + 2
    {
      assert rows[..i + 1][..i] == rows[..i];
      if rows[i].None? {
        errors, skipped := errors + [i + 2], skipped + 1;
      } else {
        valid := valid + [rows[i].value];
      }
    }
    assert rows[..|rows|] == rows;
  }

  /** The counts of an import: what was created, and everything parsed that was not. */
  function Tallied(created: nat, valid: nat, skipped: nat, errors: seq<nat>): (r: ImportResult)
    requires created <= valid
    ensures r.created == created && r.created + r.skipped == valid + skipped && r.errors == errors
  {
    ImportResult(created, skipped + (valid - created), errors)
  }

  lemma NothingInserted(s: State, c: Id)
    requires c in s.campaigns
    ensures InsertRecipients(s, c, []) == s
  {
    assert s.campaigns[c := s.campaigns[c]] == s.campaigns;
  }

  lemma {:induction false} InsertCountAtMost(rows: map<RecipientKey, Recipient>, c: Id, phones: seq<Phone>)
    ensures InsertRows(rows, c, phones).1 <= |phones|
  {
    if phones != [] { InsertCountAtMost(rows, c, phones[..|phones| - 1]); }
  }

  // The number createMany reports is the number of new keys, and no more than it was given.
  lemma InsertRowsCount(rows: map<RecipientKey, Recipient>, c: Id, phones: seq<Phone>)
    ensures InsertRows(rows, c, phones).1 == |InsertRows(rows, c, phones).0.Keys - rows.Keys|
    ensures InsertRows(rows, c, phones).1 <= |phones|
  {
    InsertRowsExtend(rows, c, phones);
    InsertCountAtMost(rows, c, phones);
    var keys := InsertRows(rows, c, phones).0.Keys;
    assert rows.Keys <= keys;
    assert keys == rows.Keys + (keys - rows.Keys);
  }

  lemma ExecSnoc(s: State, trace: seq<Event>, e: Event)
    ensures Exec(s, trace + [e]) == Step(Exec(s, trace), e)
  {
    assert (trace + [e])[..|trace|] == trace;
  }

  lemma ExecOne(s: State, e: Event)
    ensures Exec(s, [e]) == Step(s, e)
  {
    assert Exec(s, []) == s;
    assert [e][..0] == [];
  }

  lemma {:induction false} ExecConcat(s: State, a: seq<Event>, b: seq<Event>)
    ensures Exec(s, a + b) == Exec(Exec(s, a), b)
  {
    if b == [] {
      assert a + b == a;
    } else {
      ExecConcat(s, a, b[..|b| - 1]);
      assert (a + b)[..|a + b| - 1] == a + b[..|b| - 1];
    }
  }

  ghost predicate IsWorkerEvent(e: Event) {
    e.Start? || e.Check? || e.Send? || e.Link? || e.Abort?
  }

  // Events the worker does not cause: service calls, acknowledgements and queue deliveries.
  ghost predicate FromOutside(events: seq<Event>) {
    forall i :: 0 <= i < |events| ==> !IsWorkerEvent(events[i])
  }

  // Service calls, acknowledgements and queue deliveries never move the worker.
  lemma LandingKeepsWorker(s: State, e: Event)
    requires !IsWorkerEvent(e)
    ensures Step(s, e).worker == s.worker
  {
  }

  lemma {:induction false} RunReachable(s: State, events: seq<Event>)
    requires Reachable(s)
    ensures Reachable(Exec(s, events))
  {
    var before: seq<Event> :| Exec(EMPTY, before) == s;
    ExecConcat(EMPTY, before, events);
  }

  // The campaign was cancelled, or completed with nobody left PENDING.
  ghost predicate Finished(s: State, c: Id) {
    && c in s.campaigns
    && (s.campaigns[c].status == Cancelled ||
        (s.campaigns[c].status == Completed && KeysWith(s.recipients, c, Pending) == {}))
  }

  lemma LandedPrefix(s: State, events: seq<Event>, i: nat)
    requires i < |events| && !IsWorkerEvent(events[i])
    ensures Exec(s, events[..i + 1]) == Step(Exec(s, events[..i]), events[i])
    ensures Exec(s, events[..i + 1]).worker == Exec(s, events[..i]).worker
  {
    LandingKeepsWorker(Exec(s, events[..i]), events[i]);
    assert events[..i + 1] == events[..i] + [events[i]];
    ExecSnoc(s, events[..i], events[i]);
  }

  // Where the worker stands, the rows its next step needs are there.
  lemma WorkerFacts(s: State)
    requires Reachable(s) && !s.worker.Idle?
    ensures s.worker.campaign in s.campaigns
    ensures s.worker.Sending? ==> s.worker.key in s.recipients
  {
    ReachableInv(s);
    if s.worker.Sending? { SnapshotHead(s); }
  }

  // What the loop head does, as a step of the protocol.
  lemma CheckFacts(s: State)
    requires Reachable(s) && s.worker.AtCheck?
    ensures s.worker.campaign in s.campaigns && Step(s, Check) == CheckRun(s)
    ensures CheckRun(s).worker.Idle? ==> Finished(CheckRun(s), s.worker.campaign)
  {
    ReachableInv(s);
    if s.worker.rest == [] && s.campaigns[s.worker.campaign].status != Cancelled {
      CompletionLeavesNonePending(s, RecipientKey(0, Phone("")));
    }
  }

  class CampaignStore {
    var campaigns: map<Id, Campaign>
    var recipients: map<RecipientKey, Recipient>
    var messages: map<Id, Message>
    var jobs: multiset<Job>
    var worker: Worker
    var nextId: Id

    ghost function View(): State
      reads this
    {
      State(campaigns, recipients, messages, jobs, worker, nextId)
    }

    constructor ()
      ensures View() == EMPTY
    {
      campaigns, recipients, messages, jobs, worker, nextId := map[], map[], map[], multiset{}, Idle, 0;
    }

    method CreateCampaign(tenant: Id, session: SessionCheck, contacts: Resolved, at: Option<int>) returns (reply: Reply)
      modifies this
      ensures (View(), reply) == M.CreateCampaign(old(View()), tenant, session, contacts, at)
    {
      if session.Missing? { return NotFound; }
      if session.Disconnected? { return BadRequest; }
      if contacts.Unresolved? { return BadRequest; }
      var c := nextId;
      var inserted, rows, count := CreateMany(recipients, c, contacts.phones, false);
      if !inserted { return Failure; }
      campaigns := campaigns[c := Campaign(tenant, if at.None? then Running else Scheduled, at, |contacts.phones|)];
      recipients := rows;
      nextId := c + 1;
      jobs := jobs + multiset{Job(c, tenant)};
      reply := Ok;
      assert View() == NewCampaign(old(View()), tenant, contacts.phones, at);
    }

    method UpdateCampaign(tenant: Id, c: Id, newSession: Option<SessionCheck>, edit: ScheduleEdit)
      returns (reply: Reply)
      modifies this
      ensures (View(), reply) == M.UpdateCampaign(old(View()), tenant, c, newSession, edit)
    {
      if c !in campaigns || campaigns[c].tenant != tenant { return NotFound; }
      var row := campaigns[c];
      if row.status != Draft && row.status != Scheduled { return BadRequest; }
      if newSession == Some(Missing) { return NotFound; }
      if newSession == Some(Disconnected) { return BadRequest; }
      if row.status == Scheduled && edit.Clear? { row := row.(status := Draft); }
      match edit {
        case Keep =>
        case Clear => row := row.(scheduledAt := None);
        case SetTo(t) => row := row.(scheduledAt := Some(t));
      }
      campaigns := campaigns[c := row];
      reply := Ok;
    }

    method LaunchCampaign(tenant: Id, c: Id, session: SessionCheck) returns (reply: Reply)
      modifies this
      ensures (View(), reply) == M.LaunchCampaign(old(View()), tenant, c, session)
    {
      if c !in campaigns || campaigns[c].tenant != tenant { return NotFound; }
      var row := campaigns[c];
      if row.status != Draft && row.status != Scheduled { return BadRequest; }
      if row.totalContacts == 0 { return BadRequest; }
      if !session.Connected? { return BadRequest; }
      campaigns := campaigns[c := row.(status := if row.scheduledAt.None? then Running else Scheduled)];
      jobs := jobs + multiset{Job(c, tenant)};
      reply := Ok;
    }

    /** The insert and counter update that both ways of adding recipients share. */
    method InsertNewRows(c: Id, phones: seq<Phone>) returns (count: nat)
      requires c in campaigns
      modifies this`recipients, this`campaigns
      ensures View() == InsertRecipients(old(View()), c, phones)
      ensures count == |recipients.Keys - old(recipients).Keys| <= |phones|
    {
      InsertRowsCount(recipients, c, phones);
      var _, inserted, n := CreateMany(recipients, c, phones, true);
      recipients, count := inserted, n;
      ghost var row := campaigns[c].(totalContacts := campaigns[c].totalContacts + count);
      if count > 0 {
        campaigns := campaigns[c := campaigns[c].(totalContacts := campaigns[c].totalContacts + count)];
      }
      assert campaigns == old(campaigns)[c := row];
    }

    method ImportCampaignRecipients(tenant: Id, c: Id, rows: seq<Option<Phone>>)
      returns (reply: Reply, result: ImportResult)
      modifies this
      ensures (View(), reply) == M.ImportRecipients(old(View()), tenant, c, rows)
      ensures reply == Ok ==>
                && result.created + result.skipped == |rows|
                && result.created == |recipients.Keys - old(recipients.Keys)|
                && forall n :: n in result.errors <==> 2 <= n < |rows| + 2 && rows[n - 2] == None
    {
      result := ImportResult(0, 0, []);
      if c !in campaigns || campaigns[c].tenant != tenant { return NotFound, result; }
      if campaigns[c].status != Draft && campaigns[c].status != Scheduled { return BadRequest, result; }
      var valid, skipped, errors := ScanRows(rows);
      if valid == [] {
        NothingInserted(View(), c);
        return Ok, Tallied(0, 0, skipped, errors);
      }
      var count := InsertNewRows(c, valid);
      reply, result := Ok, Tallied(count, |valid|, skipped, errors);
    }

    method AddContactsToCampaign(tenant: Id, c: Id, contacts: Resolved) returns (reply: Reply, added: nat, skipped: nat)
      modifies this
      ensures (View(), reply) == M.AddContactsToCampaign(old(View()), tenant, c, contacts)
      ensures reply == Ok ==> contacts.Contacts? && added + skipped == |contacts.phones|
      ensures reply == Ok ==> added == |recipients.Keys - old(recipients.Keys)|
    {
      added, skipped := 0, 0;
      if c !in campaigns || campaigns[c].tenant != tenant { return NotFound, 0, 0; }
      if campaigns[c].status != Draft && campaigns[c].status != Scheduled { return BadRequest, 0, 0; }
      if contacts.Unresolved? || contacts.phones == [] { return BadRequest, 0, 0; }
      added := InsertNewRows(c, contacts.phones);
      reply, skipped := Ok, |contacts.phones| - added;
    }

    method CancelCampaign(tenant: Id, c: Id) returns (reply: Reply)
      modifies this
      ensures (View(), reply) == M.CancelCampaign(old(View()), tenant, c)
    {
      if c !in campaigns || campaigns[c].tenant != tenant { return NotFound; }
      if campaigns[c].status != Running && campaigns[c].status != Scheduled { return BadRequest; }
      campaigns := campaigns[c := campaigns[c].(status := Cancelled)];
      reply := Ok;
    }

    method RetryFailedCampaign(tenant: Id, c: Id) returns (reply: Reply, retried: nat)
      modifies this
      ensures (View(), reply) == M.RetryFailedCampaign(old(View()), tenant, c)
      ensures reply == Ok ==> retried == |KeysWith(old(recipients), c, Failed)| && KeysWith(recipients, c, Failed) == {}
      ensures forall k :: k in old(recipients) && !(k.campaign == c && old(recipients)[k].status == Failed) ==>
                k in recipients && recipients[k] == old(recipients)[k]
    {
      retried := 0;
      if c !in campaigns || campaigns[c].tenant != tenant { return NotFound, 0; }
      if campaigns[c].status != Completed { return BadRequest, 0; }
      var failed := KeysWith(recipients, c, Failed);
      if failed == {} { return BadRequest, 0; }
      recipients := map k | k in recipients ::
        if k in failed then recipients[k].(status := Pending, retryCount := recipients[k].retryCount + 1)
        else recipients[k];
      assert recipients == Requeued(old(recipients), c);
      jobs := jobs + multiset{Job(c, tenant)};
      reply, retried := Ok, |failed|;
    }

    method CloneCampaign(tenant: Id, c: Id) returns (reply: Reply)
      modifies this
      ensures (View(), reply) == M.CloneCampaign(old(View()), tenant, c)
    {
      if c !in campaigns || campaigns[c].tenant != tenant { return NotFound; }
      campaigns := campaigns[nextId := Campaign(tenant, Draft, None, 0)];
      nextId := nextId + 1;
      reply := Ok;
    }

    method HandleMessageAck(externalId: string, code: int, picked: Id)
      modifies this
      ensures View() == M.HandleAck(old(View()), externalId, code, picked)
    {
      var status: RecipientStatus;
      if code == 1 { status := Sent; }
      else if code == 2 { status := Delivered; }
      else if code == 3 { status := Read; }
      else if code == -1 { status := Failed; }
      else { return; }
      if externalId == "" { return; }
      if picked !in messages || messages[picked].externalId != Some(externalId) { return; }
      var c := CampaignOf(messages[picked]);
      if c.Some? {
        recipients := map k | k in recipients ::
          if k.campaign == c.value && recipients[k].messageId == Some(picked)
          then recipients[k].(status := status)
          else recipients[k];
      }
    }

    method LandCall(e: Event)
      requires IsServiceCall(e)
      modifies this
      ensures View() == Step(old(View()), e)
    {
      match e {
        case Create(t, session, contacts, at) => var _ := CreateCampaign(t, session, contacts, at);
        case Update(t, c, session, edit) => var _ := UpdateCampaign(t, c, session, edit);
        case Launch(t, c, session) => var _ := LaunchCampaign(t, c, session);
        case Import(t, c, rows) => var _, _ := ImportCampaignRecipients(t, c, rows);
        case AddContacts(t, c, contacts) => var _, _, _ := AddContactsToCampaign(t, c, contacts);
        case Cancel(t, c) => var _ := CancelCampaign(t, c);
        case Retry(t, c) => var _, _ := RetryFailedCampaign(t, c);
        case Clone(t, c) => var _ := CloneCampaign(t, c);
      }
    }

    method LandDelivery(e: Event)
      requires !IsServiceCall(e) && !IsWorkerEvent(e)
      modifies this
      ensures View() == Step(old(View()), e)
    {
      match e {
        case Ack(ext, code, picked) => HandleMessageAck(ext, code, picked);
        case OtherMessage(ext) => messages, nextId := messages[nextId := Message(Unrelated, ext)], nextId + 1;
        case Redeliver(job) => jobs := jobs + multiset{job};
      }
    }

    /** One event landing while the worker waits. */
    method Land(e: Event)
      requires !IsWorkerEvent(e)
      modifies this
      ensures View() == Step(old(View()), e)
    {
      if IsServiceCall(e) { LandCall(e); } else { LandDelivery(e); }
    }

    method LandAll(events: seq<Event>)
      requires FromOutside(events)
      modifies this
      ensures View() == Exec(old(View()), events) && worker == old(worker)
    {
      ghost var s0 := View();
      for i := 0 to |events|
        invariant View() == Exec(s0, events[..i]) && worker == s0.worker
      {
        LandedPrefix(s0, events, i);
        Land(events[i]);
      }
      assert events[..|events|] == events;
    }

    /** The gate and the look-ups before the send loop; true when the loop is entered. */
    method BeginRun(job: Job, order: seq<RecipientKey>, engineFound: bool) returns (entered: bool)
      requires CanStart(View(), job, order)
      modifies this
      ensures View() == StartRun(old(View()), job, order, engineFound)
      ensures entered <==> worker == AtCheck(job.campaign, order)
      ensures !entered ==> worker.Idle?
    {
      jobs := jobs - multiset{job};
      var c := job.campaign;
      if c !in campaigns || campaigns[c].tenant != job.tenant { return false; }
      if campaigns[c].status == Cancelled { return false; }
      ghost var row := campaigns[c];
      if campaigns[c].status != Running {
        campaigns := campaigns[c := campaigns[c].(status := Running)];
      }
      assert campaigns == old(campaigns)[c := row.(status := Running)];
      if !engineFound {
        campaigns := campaigns[c := campaigns[c].(status := Cancelled)];
        assert campaigns == old(campaigns)[c := row.(status := Cancelled)];
        return false;
      }
      worker := AtCheck(c, order);
      entered := true;
    }

    /** The status check at the loop head; true when the next recipient is taken. */
    method NextRecipient() returns (taken: bool)
      requires worker.AtCheck? && worker.campaign in campaigns
      modifies this
      ensures View() == CheckRun(old(View()))
      ensures taken <==> worker.Sending?
    {
      var AtCheck(c, rest) := worker;
      if rest == [] {
        if campaigns[c].status != Cancelled {
          campaigns := campaigns[c := campaigns[c].(status := Completed)];
        }
        worker := Idle;
        return false;
      }
      if campaigns[c].status == Cancelled {
        worker := Idle;
        return false;
      }
      worker := Sending(c, rest[0], rest[1..]);
      taken := true;
    }

    /** The main message: the row, the engine call, and the updates on either outcome. */
    method SendToRecipient(outcome: SendOutcome)
      requires worker.Sending? && worker.key in recipients
      modifies this
      ensures View() == SendMain(old(View()), outcome)
      ensures var key := old(worker).key;
              key in recipients && recipients[key].status == if outcome.Rejected? then Failed else Sent
    {
      var Sending(c, key, rest) := worker;
      var m := nextId;
      nextId := nextId + 1;
      messages := messages[m := Message(Main(key), None)];
      match outcome {
        case Accepted(ext, links) =>
          messages := messages[m := messages[m].(externalId := ext)];
          recipients := recipients[key := recipients[key].(status := Sent, messageId := Some(m))];
          worker := AfterLink(c, key, links, rest);
          assert messages == old(messages)[m := Message(Main(key), ext)];
        case Rejected =>
          recipients := recipients[key := recipients[key].(status := Failed, messageId := Some(m))];
          worker := AtCheck(c, rest);
      }
    }

    method SendFollowUp(sent: Option<Option<string>>)
      requires worker.Linking? && worker.links > 0
      modifies this
      ensures View() == SendLink(old(View()), sent)
    {
      var Linking(c, key, links, rest) := worker;
      var m := nextId;
      nextId := nextId + 1;
      messages := messages[m := Message(FollowUp(key), None)];
      if sent.Some? {
        messages := messages[m := messages[m].(externalId := sent.value)];
        assert messages == old(messages)[m := Message(FollowUp(key), sent.value)];
      }
      worker := AfterLink(c, key, links - 1, rest);
    }

    // The store is where the run trace leads from the reachable state s0.
    ghost predicate OnRun(s0: State, trace: seq<Event>)
      reads this
    {
      View() == Exec(s0, trace)
    }

    /** The worker waits while events land. */
    method Wait(events: seq<Event>, ghost s0: State, ghost before: seq<Event>) returns (ghost trace: seq<Event>)
      requires OnRun(s0, before) && FromOutside(events)
      modifies this
      ensures OnRun(s0, trace) && worker == old(worker)
    {
      ExecConcat(s0, before, events);
      trace := before + events;
      LandAll(events);
    }

    method CheckedNext(ghost s0: State, ghost before: seq<Event>) returns (ghost trace: seq<Event>, taken: bool)
      requires Reachable(s0) && OnRun(s0, before) && worker.AtCheck?
      modifies this
      ensures OnRun(s0, trace)
      ensures taken ==>
                old(worker).rest != [] &&
                worker == Sending(old(worker).campaign, old(worker).rest[0], old(worker).rest[1..])
      ensures !taken ==> worker.Idle? && Finished(View(), old(worker).campaign)
      ensures old(worker).rest == [] ==> !taken
    {
      RunReachable(s0, before);
      CheckFacts(View());
      ExecSnoc(s0, before, Check);
      trace := before + [Check];
      taken := NextRecipient();
    }

    method LinkNext(sent: Option<Option<string>>, ghost s0: State, ghost before: seq<Event>)
      returns (ghost trace: seq<Event>)
      requires OnRun(s0, before) && worker.Linking? && worker.links > 0
      modifies this
      ensures OnRun(s0, trace) &&
                worker == AfterLink(old(worker).campaign, old(worker).key, old(worker).links - 1, old(worker).rest)
    {
      ExecSnoc(s0, before, Link(sent));
      trace := before + [Link(sent)];
      SendFollowUp(sent);
    }

    method SendNext(outcome: SendOutcome, ghost s0: State, ghost before: seq<Event>) returns (ghost trace: seq<Event>)
      requires Reachable(s0) && OnRun(s0, before) && worker.Sending?
      modifies this
      ensures OnRun(s0, trace)
      ensures var links := if outcome.Accepted? then outcome.links else 0;
              worker == AfterLink(old(worker).campaign, old(worker).key, links, old(worker).rest)
    {
      RunReachable(s0, before);
      WorkerFacts(View());
      ExecSnoc(s0, before, Send(outcome));
      trace := before + [Send(outcome)];
      SendToRecipient(outcome);
    }

    /** One recipient past the check: the main message, then its follow-up links. */
    method SendAll(outcome: SendOutcome, linkSent: nat -> Option<Option<string>>, landing: nat -> seq<Event>,
                   ghost s0: State, ghost before: seq<Event>)
      returns (ghost trace: seq<Event>)
      requires Reachable(s0) && OnRun(s0, before) && worker.Sending?
      requires forall j: nat :: FromOutside(landing(j))
      modifies this
      ensures OnRun(s0, trace) && worker == AtCheck(old(worker).campaign, old(worker).rest)
    {
      var c, rest := worker.campaign, worker.rest;
      trace := SendNext(outcome, s0, before);
      var n := 0;
      while worker.Linking?
        invariant OnRun(s0, trace)
        invariant !worker.Linking? ==> worker == AtCheck(c, rest)
        invariant worker.Linking? ==> worker.links > 0 && worker.campaign == c && worker.rest == rest
        decreases if worker.Linking? then worker.links else 0
      {
        trace := Wait(landing(n), s0, trace);
        trace := LinkNext(linkSent(n), s0, trace);
        n := n + 1;
      }
    }

    /** One turn of the loop, up to the next recipient's status check. */
    method OneRecipient(outcome: SendOutcome, linkSent: nat -> Option<Option<string>>, landing: nat -> seq<Event>,
                        ghost s0: State, ghost before: seq<Event>)
      returns (ghost trace: seq<Event>, taken: bool)
      requires Reachable(s0) && OnRun(s0, before) && worker.AtCheck? && worker.rest != []
      requires forall j: nat :: FromOutside(landing(j))
      modifies this
      ensures OnRun(s0, trace)
      ensures taken ==> worker == AtCheck(old(worker).campaign, old(worker).rest[1..])
      ensures !taken ==> worker.Idle? && Finished(View(), old(worker).campaign)
    {
      trace := Wait(landing(0), s0, before);
      trace, taken := CheckedNext(s0, trace);
      if taken {
        trace := Wait(landing(1), s0, trace);
        trace := SendAll(outcome, linkSent, (n: nat) => landing(2 + n), s0, trace);
      }
    }

    /**
     * handleCampaign from taking the job to its end, with any service calls,
     * acknowledgements and queue deliveries landing at every point where it
     * waits: landing(i, 0) before recipient i's status check, landing(i, 1)
     * before its send, landing(i, 2 + n) around its follow-up links. The whole
     * execution is one run of the state machine, so every invariant applies.
     */
    method HandleCampaign(job: Job, order: seq<RecipientKey>, engineFound: bool,
                          outcome: nat -> SendOutcome, linkSent: (nat, nat) -> Option<Option<string>>,
                          landing: (nat, nat) -> seq<Event>)
      returns (ghost trace: seq<Event>)
      requires Reachable(View()) && CanStart(View(), job, order)
      requires forall i: nat, j: nat :: FromOutside(landing(i, j))
      modifies this
      ensures OnRun(old(View()), trace) && worker.Idle?
      ensures old(Visible(View(), job.tenant, job.campaign) && campaigns[job.campaign].status != Cancelled) ==>
                Finished(View(), job.campaign)
    {
      ghost var s0 := View();
      ExecOne(s0, Start(job, order, engineFound));
      trace := [Start(job, order, engineFound)];
      var taken := BeginRun(job, order, engineFound);
      if !taken { return; }
      for i := 0 to |order|
        invariant OnRun(s0, trace) && worker == AtCheck(job.campaign, order[i..])
      {
        trace, taken := OneRecipient(outcome(i), (n: nat) => linkSent(i, n), (n: nat) => landing(i, n), s0, trace);
        if !taken { return; }
      }
      trace := Wait(landing(|order|, 0), s0, trace);
      trace, taken := CheckedNext(s0, trace);
    }
  }
}
