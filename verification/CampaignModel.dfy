// The campaign run protocol as a state machine over database rows.
//
// Three sources of events interleave: service calls (CampaignsService), the
// single queue worker (CampaignProcessor) and acknowledgements from the
// messaging engine (WebhooksProcessor.handleMessageAck). Each service call is
// one atomic step. A worker run is cut at the points where other events can
// land: taking the job, the status check before each recipient, the send
// itself, each follow-up link, and the completion.
//
// Clock readings, session look-ups, engine outcomes, the row order of
// unordered queries and the row picked by findFirst are inputs of the events.

module CampaignModel {
  import opened Common

  type Id = nat

  datatype Phone = Phone(digits: string)

  datatype CampaignStatus = Draft | Scheduled | Running | Paused | Completed | Cancelled

  datatype RecipientStatus = Pending | Sent | Delivered | Read | Failed | OptedOut

  datatype Campaign = Campaign(tenant: Id, status: CampaignStatus, scheduledAt: Option<int>, totalContacts: nat)

  // The unique index on (campaignId, phoneNumber) makes this pair a key.
  datatype RecipientKey = RecipientKey(campaign: Id, phone: Phone)

  datatype Recipient = Recipient(status: RecipientStatus, messageId: Option<Id>, retryCount: nat)

  // Why a message row was written. The row's campaignId column is CampaignOf.
  datatype Purpose = Main(to: RecipientKey) | FollowUp(to: RecipientKey) | Unrelated

  datatype Message = Message(purpose: Purpose, externalId: Option<string>)

  datatype Job = Job(campaign: Id, tenant: Id)

  // Where the single worker stands in handleCampaign.
  datatype Worker =
    | Idle
    | AtCheck(campaign: Id, rest: seq<RecipientKey>)                              // about to read the status
    | Sending(campaign: Id, key: RecipientKey, rest: seq<RecipientKey>)           // past the check
    | Linking(campaign: Id, key: RecipientKey, links: nat, rest: seq<RecipientKey>) // follow-up cards left

  datatype State = State(
    campaigns: map<Id, Campaign>,
    recipients: map<RecipientKey, Recipient>,
    messages: map<Id, Message>,
    jobs: multiset<Job>,
    worker: Worker,
    nextId: Id)

  const EMPTY := State(map[], map[], map[], multiset{}, Idle, 0)

  datatype Reply = Ok | NotFound | BadRequest | Failure

  // Result of looking up a session for a tenant.
  datatype SessionCheck = Missing | Disconnected | Connected

  // Result of resolveRecipients: an unknown contact id, or the phone numbers of the contacts found.
  datatype Resolved = Unresolved | Contacts(phones: seq<Phone>)

  // The scheduledAt field of an edit: absent, null, or a date.
  datatype ScheduleEdit = Keep | Clear | SetTo(at: int)

  datatype SendOutcome = Accepted(externalId: Option<string>, links: nat) | Rejected

  datatype Event =
    | Create(tenant: Id, session: SessionCheck, contacts: Resolved, at: Option<int>)
    | Update(tenant: Id, campaign: Id, newSession: Option<SessionCheck>, edit: ScheduleEdit)
    | Launch(tenant: Id, campaign: Id, session: SessionCheck)
    | Import(tenant: Id, campaign: Id, rows: seq<Option<Phone>>)
    | AddContacts(tenant: Id, campaign: Id, contacts: Resolved)
    | Cancel(tenant: Id, campaign: Id)
    | Retry(tenant: Id, campaign: Id)
    | Clone(tenant: Id, campaign: Id)
    | Start(job: Job, order: seq<RecipientKey>, engineFound: bool)
    | Check
    | Send(outcome: SendOutcome)
    | Link(sent: Option<Option<string>>)
    | Abort
    | Ack(externalId: string, code: int, picked: Id)
    | OtherMessage(ext: Option<string>)
    | Redeliver(job: Job)

  // ── Row queries ──────────────────────────────────────────────────────────

  function CampaignOf(m: Message): Option<Id> {
    match m.purpose
    case Main(k) => Some(k.campaign)
    case FollowUp(k) => Some(k.campaign)
    case Unrelated => None
  }

  predicate Visible(s: State, tenant: Id, c: Id) {
    c in s.campaigns && s.campaigns[c].tenant == tenant
  }

  predicate Editable(s: State, c: Id)
    requires c in s.campaigns
  {
    s.campaigns[c].status == Draft || s.campaigns[c].status == Scheduled
  }

  function KeysOf(recipients: map<RecipientKey, Recipient>, c: Id): set<RecipientKey> {
    set k | k in recipients && k.campaign == c
  }

  function KeysWith(recipients: map<RecipientKey, Recipient>, c: Id, st: RecipientStatus): set<RecipientKey> {
    set k | k in recipients && k.campaign == c && recipients[k].status == st
  }

  /** createMany with skipDuplicates: the table after it and the number of rows it inserted. */
  function InsertRows(rows: map<RecipientKey, Recipient>, c: Id, phones: seq<Phone>)
    : (map<RecipientKey, Recipient>, nat)
  {
    if phones == [] then (rows, 0)
    else
      var (before, count) := InsertRows(rows, c, phones[..|phones| - 1]);
      var key := RecipientKey(c, phones[|phones| - 1]);
      if key in before then (before, count) else (before[key := Recipient(Pending, None, 0)], count + 1)
  }

  /** The main messages ever handed to the engine for one recipient. */
  function MainMessages(messages: map<Id, Message>, k: RecipientKey): set<Id> {
    set m | m in messages && messages[m].purpose == Main(k)
  }

  function Attempts(s: State, k: RecipientKey): nat {
    |MainMessages(s.messages, k)|
  }

  function MainsOf(messages: map<Id, Message>, c: Id): set<Id> {
    set m | m in messages && messages[m].purpose.Main? && messages[m].purpose.to.campaign == c
  }

  function Snapshot(w: Worker): seq<RecipientKey> {
    match w
    case Idle => []
    case AtCheck(_, rest) => rest
    case Sending(_, k, rest) => [k] + rest
    case Linking(_, _, _, rest) => rest
  }

  predicate WorkingOn(w: Worker, c: Id) {
    !w.Idle? && w.campaign == c
  }

  function AckStatus(code: int): Option<RecipientStatus> {
    if code == 1 then Some(Sent)
    else if code == 2 then Some(Delivered)
    else if code == 3 then Some(Read)
    else if code == -1 then Some(Failed)
    else None
  }

  // ── Service calls ────────────────────────────────────────────────────────

  function SetStatus(s: State, c: Id, st: CampaignStatus): State
    requires c in s.campaigns
  {
    s.(campaigns := s.campaigns[c := s.campaigns[c].(status := st)])
  }

  function Enqueue(s: State, c: Id, tenant: Id): State {
    s.(jobs := s.jobs + multiset{Job(c, tenant)})
  }

  /** createMany with skipDuplicates, followed by the totalContacts increment. */
  function InsertRecipients(s: State, c: Id, phones: seq<Phone>): State
    requires c in s.campaigns
  {
    var (rows, count) := InsertRows(s.recipients, c, phones);
    s.(recipients := rows,
       campaigns := s.campaigns[c := s.campaigns[c].(totalContacts := s.campaigns[c].totalContacts + count)])
  }

  // What a createMany without skipDuplicates needs: no phone number twice, none present already.
  predicate AllNew(rows: map<RecipientKey, Recipient>, c: Id, phones: seq<Phone>) {
    phones == [] ||
    (var init, p := phones[..|phones| - 1], phones[|phones| - 1];
     RecipientKey(c, p) !in rows && p !in init && AllNew(rows, c, init))
  }

  /** The transaction of createCampaign and the job it enqueues. */
  function NewCampaign(s: State, tenant: Id, phones: seq<Phone>, at: Option<int>): State {
    State(s.campaigns[s.nextId := Campaign(tenant, if at.None? then Running else Scheduled, at, |phones|)],
          InsertRows(s.recipients, s.nextId, phones).0,
          s.messages,
          s.jobs + multiset{Job(s.nextId, tenant)},
          s.worker,
          s.nextId + 1)
  }

  function CreateCampaign(s: State, tenant: Id, session: SessionCheck, contacts: Resolved, at: Option<int>)
    : (State, Reply)
  {
    if session.Missing? then (s, NotFound)
    else if session.Disconnected? || contacts.Unresolved? then (s, BadRequest)
    else if !AllNew(s.recipients, s.nextId, contacts.phones) then (s, Failure) // unique index: rolled back
    else (NewCampaign(s, tenant, contacts.phones, at), Ok)
  }

  function UpdateCampaign(s: State, tenant: Id, c: Id, newSession: Option<SessionCheck>, edit: ScheduleEdit)
    : (State, Reply)
  {
    if !Visible(s, tenant, c) then (s, NotFound)
    else if !Editable(s, c) then (s, BadRequest)
    else if newSession == Some(Missing) then (s, NotFound)
    else if newSession == Some(Disconnected) then (s, BadRequest)
    else
      var row := s.campaigns[c];
      var at := match edit case Keep => row.scheduledAt case Clear => None case SetTo(t) => Some(t);
      var status := if row.status == Scheduled && edit.Clear? then Draft else row.status;
      (s.(campaigns := s.campaigns[c := row.(scheduledAt := at, status := status)]), Ok)
  }

  function LaunchCampaign(s: State, tenant: Id, c: Id, session: SessionCheck): (State, Reply) {
    if !Visible(s, tenant, c) then (s, NotFound)
    else if !Editable(s, c) || s.campaigns[c].totalContacts == 0 || !session.Connected? then (s, BadRequest)
    else
      var status := if s.campaigns[c].scheduledAt.None? then Running else Scheduled;
      (Enqueue(SetStatus(s, c, status), c, tenant), Ok)
  }

  // A CSV row is the phone number it carries, if that is present and not empty.
  function PresentPhones(rows: seq<Option<Phone>>): seq<Phone> {
    if rows == [] then []
    else
      var before := PresentPhones(rows[..|rows| - 1]);
      if rows[|rows| - 1].None? then before else before + [rows[|rows| - 1].value]
  }

  function ImportRecipients(s: State, tenant: Id, c: Id, rows: seq<Option<Phone>>): (State, Reply) {
    if !Visible(s, tenant, c) then (s, NotFound)
    else if !Editable(s, c) then (s, BadRequest)
    else (InsertRecipients(s, c, PresentPhones(rows)), Ok)
  }

  function AddContactsToCampaign(s: State, tenant: Id, c: Id, contacts: Resolved): (State, Reply) {
    if !Visible(s, tenant, c) then (s, NotFound)
    else if !Editable(s, c) || contacts.Unresolved? || contacts.phones == [] then (s, BadRequest)
    else (InsertRecipients(s, c, contacts.phones), Ok)
  }

  function CancelCampaign(s: State, tenant: Id, c: Id): (State, Reply) {
    if !Visible(s, tenant, c) then (s, NotFound)
    else if s.campaigns[c].status != Running && s.campaigns[c].status != Scheduled then (s, BadRequest)
    else (SetStatus(s, c, Cancelled), Ok)
  }

  function Requeued(recipients: map<RecipientKey, Recipient>, c: Id): map<RecipientKey, Recipient> {
    map k | k in recipients ::
      if k.campaign == c && recipients[k].status == Failed
      then recipients[k].(status := Pending, retryCount := recipients[k].retryCount + 1)
      else recipients[k]
  }

  function RetryFailedCampaign(s: State, tenant: Id, c: Id): (State, Reply) {
    if !Visible(s, tenant, c) then (s, NotFound)
    else if s.campaigns[c].status != Completed || KeysWith(s.recipients, c, Failed) == {} then (s, BadRequest)
    else (Enqueue(s.(recipients := Requeued(s.recipients, c)), c, tenant), Ok)
  }

  function CloneCampaign(s: State, tenant: Id, c: Id): (State, Reply) {
    if !Visible(s, tenant, c) then (s, NotFound)
    else
      (s.(campaigns := s.campaigns[s.nextId := Campaign(tenant, Draft, None, 0)], nextId := s.nextId + 1), Ok)
  }

  // ── The worker ───────────────────────────────────────────────────────────

  ghost predicate CanStart(s: State, job: Job, order: seq<RecipientKey>) {
    s.worker.Idle? && job in s.jobs && Lists(order, KeysWith(s.recipients, job.campaign, Pending))
  }

  /** Take a job: status gate, snapshot of the PENDING recipients, engine look-up. */
  function StartRun(s: State, job: Job, order: seq<RecipientKey>, engineFound: bool): State {
    var s1 := s.(jobs := s.jobs - multiset{job});
    var c := job.campaign;
    if !Visible(s, job.tenant, c) || s.campaigns[c].status == Cancelled then s1
    else if !engineFound then SetStatus(s1, c, Cancelled)
    else SetStatus(s1, c, Running).(worker := AtCheck(c, order))
  }

  /** Loop head: read the status; stop, go on to the next recipient, or complete. */
  function CheckRun(s: State): State
    requires s.worker.AtCheck? && s.worker.campaign in s.campaigns
  {
    var c := s.worker.campaign;
    if s.campaigns[c].status == Cancelled then s.(worker := Idle)
    else if s.worker.rest == [] then SetStatus(s, c, Completed).(worker := Idle)
    else s.(worker := Sending(c, s.worker.rest[0], s.worker.rest[1..]))
  }

  function AfterLink(c: Id, k: RecipientKey, links: nat, rest: seq<RecipientKey>): Worker {
    if links == 0 then AtCheck(c, rest) else Linking(c, k, links, rest)
  }

  /** The main send and the row updates that follow it. */
  function SendMain(s: State, outcome: SendOutcome): State
    requires s.worker.Sending? && s.worker.key in s.recipients
  {
    var Sending(c, k, rest) := s.worker;
    var m := s.nextId;
    match outcome
    case Accepted(ext, links) =>
      s.(nextId := m + 1,
         messages := s.messages[m := Message(Main(k), ext)],
         recipients := s.recipients[k := s.recipients[k].(status := Sent, messageId := Some(m))],
         worker := AfterLink(c, k, links, rest))
    case Rejected =>
      s.(nextId := m + 1,
         messages := s.messages[m := Message(Main(k), None)],
         recipients := s.recipients[k := s.recipients[k].(status := Failed, messageId := Some(m))],
         worker := AtCheck(c, rest))
  }

  /** One follow-up link card; its failure leaves the recipient alone. */
  function SendLink(s: State, sent: Option<Option<string>>): State
    requires s.worker.Linking? && s.worker.links > 0
  {
    var Linking(c, k, links, rest) := s.worker;
    var ext := if sent.Some? then sent.value else None;
    s.(nextId := s.nextId + 1,
       messages := s.messages[s.nextId := Message(FollowUp(k), ext)],
       worker := AfterLink(c, k, links - 1, rest))
  }

  // ── Acknowledgements ─────────────────────────────────────────────────────

  function Acked(recipients: map<RecipientKey, Recipient>, c: Id, m: Id, st: RecipientStatus)
    : map<RecipientKey, Recipient>
  {
    map k | k in recipients ::
      if k.campaign == c && recipients[k].messageId == Some(m) then recipients[k].(status := st) else recipients[k]
  }

  /** picked is the row findFirst returns among those carrying the external id. */
  function HandleAck(s: State, externalId: string, code: int, picked: Id): State {
    if AckStatus(code).None? || externalId == "" then s
    else if picked !in s.messages || s.messages[picked].externalId != Some(externalId) then s
    else
      match CampaignOf(s.messages[picked])
      case None => s
      case Some(c) => s.(recipients := Acked(s.recipients, c, picked, AckStatus(code).value))
  }

  // ── One step, and runs ───────────────────────────────────────────────────

  ghost function Step(s: State, e: Event): State {
    match e
    case Create(t, session, contacts, at) => CreateCampaign(s, t, session, contacts, at).0
    case Update(t, c, session, edit) => UpdateCampaign(s, t, c, session, edit).0
    case Launch(t, c, session) => LaunchCampaign(s, t, c, session).0
    case Import(t, c, rows) => ImportRecipients(s, t, c, rows).0
    case AddContacts(t, c, contacts) => AddContactsToCampaign(s, t, c, contacts).0
    case Cancel(t, c) => CancelCampaign(s, t, c).0
    case Retry(t, c) => RetryFailedCampaign(s, t, c).0
    case Clone(t, c) => CloneCampaign(s, t, c).0
    case Start(job, order, found) => if CanStart(s, job, order) then StartRun(s, job, order, found) else s
    case Check => if s.worker.AtCheck? && s.worker.campaign in s.campaigns then CheckRun(s) else s
    case Send(outcome) => if s.worker.Sending? && s.worker.key in s.recipients then SendMain(s, outcome) else s
    case Link(sent) => if s.worker.Linking? && s.worker.links > 0 then SendLink(s, sent) else s
    case Abort => s.(worker := Idle) // the run throws before its next send and BullMQ drops the job
    case Ack(ext, code, picked) => HandleAck(s, ext, code, picked)
    case OtherMessage(ext) => s.(nextId := s.nextId + 1, messages := s.messages[s.nextId := Message(Unrelated, ext)])
    case Redeliver(job) => s.(jobs := s.jobs + multiset{job})
  }

  ghost function Exec(s: State, events: seq<Event>): State {
    if events == [] then s
    else Step(Exec(s, events[..|events| - 1]), events[|events| - 1])
  }
}
