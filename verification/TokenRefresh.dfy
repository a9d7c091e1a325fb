// The single-flight access-token refresh of the API client: a small
// asynchronous protocol around isRefreshing and refreshQueue. The browser runs
// one callback at a time, so each event below is one callback.
//
// Only the request that leads a refresh is marked _retry; requests that wait in
// the queue are re-issued unmarked. The fields leaders, rounds, waits and
// settled are a log of what happened; no step reads them except to append.

module TokenRefresh {
  import opened Common

  type Id = nat

  datatype Outcome = Renewed(token: string) | Lost

  datatype Phase =
    | Ready
    | InFlight
    | Leading                    // awaiting the refresh it started
    | Queued                     // a promise in refreshQueue
    | Released(outcome: Outcome) // the promise is settled, its continuation has not run yet
    | Done(succeeded: bool)

  datatype Request = Request(phase: Phase, retry: bool, issued: nat)

  datatype Wait = Wait(request: Id, round: nat)

  datatype Settlement = Settlement(request: Id, round: nat, outcome: Outcome)

  datatype State = State(
    requests: seq<Request>,
    refreshing: bool,
    queue: seq<Id>,
    leaders: seq<Id>,      // who started each refresh
    rounds: seq<Outcome>,  // how each finished refresh ended
    waits: seq<Wait>,      // every promise ever queued
    settled: seq<Settlement>) // every promise ever settled

  datatype Status = Success | Unauthorized | OtherError

  datatype Event =
    | Issue(r: Id)
    | Respond(r: Id, status: Status)
    | Refreshed(r: Id, outcome: Outcome)
    | Continue(r: Id)

  function Start(n: nat): State {
    State(seq(n, i => Request(Ready, false, 0)), false, [], [], [], [], [])
  }

  predicate Enabled(s: State, e: Event) {
    && e.r < |s.requests|
    && match e
       case Issue(r) => s.requests[r].phase.Ready?
       case Respond(r, _) => s.requests[r].phase.InFlight?
       case Refreshed(r, _) => s.requests[r].phase.Leading?
       case Continue(r) => s.requests[r].phase.Released?
  }

  function Send(req: Request): Request {
    req.(phase := InFlight, issued := req.issued + 1)
  }

  /** processQueue: every queued promise is settled with the outcome. */
  function ReleaseAll(requests: seq<Request>, queue: seq<Id>, outcome: Outcome): (r: seq<Request>)
    ensures |r| == |requests|
  {
    seq(|requests|, i requires 0 <= i < |requests| =>
      if i in queue then requests[i].(phase := Released(outcome)) else requests[i])
  }

  function Settlements(queue: seq<Id>, round: nat, outcome: Outcome): (w: seq<Settlement>)
    ensures |w| == |queue|
  {
    seq(|queue|, i requires 0 <= i < |queue| => Settlement(queue[i], round, outcome))
  }

  /** The response interceptor. */
  function OnResponse(s: State, r: Id, status: Status): State
    requires r < |s.requests|
  {
    var req := s.requests[r];
    match status
    case Success => s.(requests := s.requests[r := req.(phase := Done(true))])
    case OtherError => s.(requests := s.requests[r := req.(phase := Done(false))])
    case Unauthorized =>
      if req.retry then s.(requests := s.requests[r := req.(phase := Done(false))])
      else if s.refreshing then
        s.(requests := s.requests[r := req.(phase := Queued)],
           queue := s.queue + [r],
           waits := s.waits + [Wait(r, |s.rounds|)])
      else
        s.(requests := s.requests[r := req.(phase := Leading, retry := true)],
           refreshing := true,
           leaders := s.leaders + [r])
  }

  /** The refresh call returns to the request leading it. */
  function OnRefreshed(s: State, r: Id, outcome: Outcome): State
    requires r < |s.requests|
  {
    var released := ReleaseAll(s.requests, s.queue, outcome);
    s.(requests := released[r := if outcome.Renewed? then Send(released[r]) else released[r].(phase := Done(false))],
       refreshing := false,
       queue := [],
       rounds := s.rounds + [outcome],
       settled := s.settled + Settlements(s.queue, |s.rounds|, outcome))
  }

  function Resume(s: State, r: Id): State
    requires r < |s.requests| && s.requests[r].phase.Released?
  {
    var req := s.requests[r];
    s.(requests := s.requests[r := if req.phase.outcome.Renewed? then Send(req) else req.(phase := Done(false))])
  }

  // An event that is not possible in the state leaves it alone.
  function Step(s: State, e: Event): State {
    if !Enabled(s, e) then s
    else
      match e
      case Issue(r) => s.(requests := s.requests[r := Send(s.requests[r])])
      case Respond(r, status) => OnResponse(s, r, status)
      case Refreshed(r, outcome) => OnRefreshed(s, r, outcome)
      case Continue(r) => Resume(s, r)
  }

  function Exec(s: State, events: seq<Event>): State {
    if events == [] then s
    else Step(Exec(s, events[..|events| - 1]), events[|events| - 1])
  }

  // Every event of the run was possible when it happened.
  predicate Proper(s: State, events: seq<Event>) {
    events == [] ||
    (Proper(s, events[..|events| - 1]) && Enabled(Exec(s, events[..|events| - 1]), events[|events| - 1]))
  }

  // ── Invariant ────────────────────────────────────────────────────────────

  ghost predicate SingleFlight(s: State) {
    && (forall i, j | 0 <= i < |s.requests| && 0 <= j < |s.requests| ::
          s.requests[i].phase.Leading? && s.requests[j].phase.Leading? ==> i == j)
    && (s.refreshing <==> exists i :: 0 <= i < |s.requests| && s.requests[i].phase.Leading?)
  }

  ghost predicate QueueSound(s: State) {
    && Distinct(s.queue)
    && (forall i :: i in s.queue ==> i < |s.requests| && s.requests[i].phase.Queued?)
    && (forall i :: 0 <= i < |s.requests| && s.requests[i].phase.Queued? ==> i in s.queue)
    && (s.queue != [] ==> s.refreshing)
  }

  ghost predicate LeadersSound(s: State) {
    && Distinct(s.leaders)
    && (forall i :: i in s.leaders ==> i < |s.requests| && s.requests[i].retry)
    && |s.leaders| == |s.rounds| + (if s.refreshing then 1 else 0)
  }

  ghost predicate IssuesBounded(s: State) {
    forall i :: 0 <= i < |s.requests| ==>
      s.requests[i].issued + (if s.requests[i].phase.Ready? || s.requests[i].phase.Released? then 1
                              else 0) <= 1 + |s.rounds|
  }

  // The promises queued so far are the settled ones, in order, followed by those still in the queue.
  ghost predicate WaitsSound(s: State) {
    && |s.waits| == |s.settled| + |s.queue|
    && (forall i :: 0 <= i < |s.settled| ==>
          && s.waits[i] == Wait(s.settled[i].request, s.settled[i].round)
          && s.settled[i].round < |s.rounds| && s.settled[i].outcome == s.rounds[s.settled[i].round])
    && (forall i :: 0 <= i < |s.queue| ==> s.waits[|s.settled| + i] == Wait(s.queue[i], |s.rounds|))
  }

  ghost predicate Inv(s: State) {
    SingleFlight(s) && QueueSound(s) && LeadersSound(s) && IssuesBounded(s) && WaitsSound(s) && Distinct(s.waits)
  }

  // ── Every callback keeps it ──────────────────────────────────────────────

  // One request moves between phases that neither lead, wait nor settle.
  lemma QuietMove(s: State, r: Id, req: Request)
    requires Inv(s) && r < |s.requests|
    requires !s.requests[r].phase.Leading? && !s.requests[r].phase.Queued?
    requires !req.phase.Leading? && !req.phase.Queued? && req.retry == s.requests[r].retry
    requires req.issued + (if req.phase.Ready? || req.phase.Released? then 1 else 0) <= 1 + |s.rounds|
    ensures Inv(s.(requests := s.requests[r := req]))
  {
    var s' := s.(requests := s.requests[r := req]);
    assert forall i :: 0 <= i < |s.requests| && i != r ==> s'.requests[i] == s.requests[i];
    if s.refreshing {
      var i :| 0 <= i < |s.requests| && s.requests[i].phase.Leading?;
      assert s'.requests[i].phase.Leading?;
    }
  }

  lemma JoinQueue(s: State, r: Id)
    requires Inv(s) && r < |s.requests| && s.requests[r].phase.InFlight? && !s.requests[r].retry && s.refreshing
    ensures Inv(OnResponse(s, r, Unauthorized))
  {
    var s' := OnResponse(s, r, Unauthorized);
    assert forall i :: 0 <= i < |s.requests| && i != r ==> s'.requests[i] == s.requests[i];
    var i :| 0 <= i < |s.requests| && s.requests[i].phase.Leading?;
    assert s'.requests[i].phase.Leading?;
    assert r !in s.queue;
    DistinctSnoc(s.queue, r);
    forall j | 0 <= j < |s.waits| ensures s.waits[j] != Wait(r, |s.rounds|) {
      if |s.settled| <= j {
        assert s.waits[|s.settled| + (j - |s.settled|)] == Wait(s.queue[j - |s.settled|], |s.rounds|);
      }
    }
    DistinctSnoc(s.waits, Wait(r, |s.rounds|));
    assert QueueSound(s') && WaitsSound(s');
  }

  lemma LeadRefresh(s: State, r: Id)
    requires Inv(s) && r < |s.requests| && s.requests[r].phase.InFlight? && !s.requests[r].retry && !s.refreshing
    ensures Inv(OnResponse(s, r, Unauthorized))
  {
    var s' := OnResponse(s, r, Unauthorized);
    assert forall i :: 0 <= i < |s.requests| && i != r ==> s'.requests[i] == s.requests[i];
    assert s'.requests[r].phase.Leading?;
    DistinctSnoc(s.leaders, r);
  }

  lemma FinishFlight(s: State, r: Id, outcome: Outcome)
    requires SingleFlight(s) && r < |s.requests| && s.requests[r].phase.Leading?
    ensures SingleFlight(OnRefreshed(s, r, outcome))
  {
    var s' := OnRefreshed(s, r, outcome);
    forall i | 0 <= i < |s.requests| ensures !s'.requests[i].phase.Leading? {}
  }

  lemma FinishQueue(s: State, r: Id, outcome: Outcome)
    requires QueueSound(s) && r < |s.requests| && s.requests[r].phase.Leading?
    ensures QueueSound(OnRefreshed(s, r, outcome))
  {
    var s' := OnRefreshed(s, r, outcome);
    forall i | 0 <= i < |s.requests| ensures !s'.requests[i].phase.Queued? {}
  }

  lemma FinishIssues(s: State, r: Id, outcome: Outcome)
    requires IssuesBounded(s) && r < |s.requests| && r !in s.queue && s.requests[r].phase.Leading?
    ensures IssuesBounded(OnRefreshed(s, r, outcome))
  {
  }

  lemma FinishLeaders(s: State, r: Id, outcome: Outcome)
    requires LeadersSound(s) && s.refreshing && r < |s.requests|
    ensures LeadersSound(OnRefreshed(s, r, outcome))
  {
  }

  lemma FinishWaits(s: State, r: Id, outcome: Outcome)
    requires WaitsSound(s) && r < |s.requests|
    ensures WaitsSound(OnRefreshed(s, r, outcome))
  {
  }

  lemma FinishRefresh(s: State, r: Id, outcome: Outcome)
    requires Inv(s) && r < |s.requests| && s.requests[r].phase.Leading?
    ensures Inv(OnRefreshed(s, r, outcome))
  {
    FinishFlight(s, r, outcome);
    FinishQueue(s, r, outcome);
    FinishIssues(s, r, outcome);
    FinishLeaders(s, r, outcome);
    FinishWaits(s, r, outcome);
  }

  lemma StepKeeps(s: State, e: Event)
    requires Inv(s)
    ensures Inv(Step(s, e))
  {
    if Enabled(s, e) {
      match e
      case Issue(r) => QuietMove(s, r, Send(s.requests[r]));
      case Respond(r, status) =>
        if status != Unauthorized || s.requests[r].retry {
          QuietMove(s, r, s.requests[r].(phase := Done(status.Success?)));
        } else if s.refreshing {
          JoinQueue(s, r);
        } else {
          LeadRefresh(s, r);
        }
      case Refreshed(r, outcome) => FinishRefresh(s, r, outcome);
      case Continue(r) => QuietMove(s, r, Resume(s, r).requests[r]);
    }
  }

  lemma {:induction false} RunKeeps(n: nat, events: seq<Event>)
    ensures Inv(Exec(Start(n), events)) && |Exec(Start(n), events).requests| == n
  {
    if events != [] {
      RunKeeps(n, events[..|events| - 1]);
      StepKeeps(Exec(Start(n), events[..|events| - 1]), events[|events| - 1]);
    }
  }

  ghost predicate Reachable(n: nat, s: State) {
    exists events: seq<Event> :: Exec(Start(n), events) == s
  }

  lemma ReachableInv(n: nat, s: State)
    requires Reachable(n, s)
    ensures Inv(s) && |s.requests| == n
  {
    var events: seq<Event> :| Exec(Start(n), events) == s;
    RunKeeps(n, events);
  }

  // ── Promises ─────────────────────────────────────────────────────────────

  // At most one refresh is in flight, exactly while isRefreshing holds, and only then can a request wait.
  lemma AtMostOneRefreshInFlight(n: nat, s: State, i: Id, j: Id)
    requires Reachable(n, s) && i < n && j < n
    ensures |s.requests| == n
    ensures s.requests[i].phase.Leading? && s.requests[j].phase.Leading? ==> i == j
    ensures s.refreshing <==> exists k :: 0 <= k < n && s.requests[k].phase.Leading?
    ensures s.queue != [] ==> s.refreshing
  {
    ReachableInv(n, s);
  }

  // Each request leads at most one refresh, so n requests cause at most n refreshes,
  // and no request is issued more than n + 1 times.
  lemma RefreshesAndIssuesBounded(n: nat, s: State, i: Id)
    requires Reachable(n, s) && i < n
    ensures Distinct(s.leaders) && |s.rounds| <= |s.leaders| <= n
    ensures |s.requests| == n && s.requests[i].issued <= n + 1
  {
    ReachableInv(n, s);
    DistinctBelow(s.leaders, n);
  }

  // Every promise is queued once, and settled at most once, with the outcome of the
  // refresh it waited on; until then that refresh is in flight.
  lemma WaiterSettledOnce(n: nat, s: State, w: nat)
    requires Reachable(n, s) && w < |s.waits|
    ensures |s.waits| == |s.settled| + |s.queue|
    ensures forall v :: 0 <= v < |s.waits| && v != w ==> s.waits[v] != s.waits[w]
    ensures w < |s.settled| ==>
              && s.waits[w].round < |s.rounds|
              && s.settled[w] == Settlement(s.waits[w].request, s.waits[w].round, s.rounds[s.waits[w].round])
    ensures w >= |s.settled| ==> s.refreshing && s.waits[w] == Wait(s.queue[w - |s.settled|], |s.rounds|)
  {
    ReachableInv(n, s);
    if |s.settled| <= w {
      assert s.waits[|s.settled| + (w - |s.settled|)] == Wait(s.queue[w - |s.settled|], |s.rounds|);
    }
  }

  // What a waiting request goes on with is the outcome just settled: a renewed token
  // re-issues it, a lost session fails it.
  lemma WaiterFollowsItsRefresh(n: nat, s: State, leader: Id, outcome: Outcome, i: Id)
    requires Reachable(n, s) && Enabled(s, Refreshed(leader, outcome)) && i in s.queue
    ensures i < n && |Step(s, Refreshed(leader, outcome)).requests| == n
    ensures Step(s, Refreshed(leader, outcome)).requests[i].phase == Released(outcome)
    ensures Step(Step(s, Refreshed(leader, outcome)), Continue(i)).requests[i] ==
              if outcome.Renewed? then Request(InFlight, s.requests[i].retry, s.requests[i].issued + 1)
              else Request(Done(false), s.requests[i].retry, s.requests[i].issued)
    ensures !Step(s, Refreshed(leader, outcome)).refreshing && Step(s, Refreshed(leader, outcome)).queue == []
  {
    ReachableInv(n, s);
  }

  // Nobody waits for ever: while a request is unfinished, some callback can still run.
  lemma NobodyStuck(n: nat, s: State, i: Id)
    requires Reachable(n, s) && i < n
    ensures |s.requests| == n
    ensures !s.requests[i].phase.Done? ==> exists e :: Enabled(s, e)
  {
    ReachableInv(n, s);
    match s.requests[i].phase
    case Ready => assert Enabled(s, Issue(i));
    case InFlight => assert Enabled(s, Respond(i, Success));
    case Leading => assert Enabled(s, Refreshed(i, Lost));
    case Queued =>
      var l :| 0 <= l < |s.requests| && s.requests[l].phase.Leading?;
      assert Enabled(s, Refreshed(l, Lost));
    case Released(_) => assert Enabled(s, Continue(i));
    case Done(_) =>
  }

  // ── One request ──────────────────────────────────────────────────────────

  // What a callback leaves of a request.
  ghost predicate RequestAfter(s: State, e: Event, i: Id, after: Request)
    requires i < |s.requests|
  {
    var before := s.requests[i];
    match e
    case Issue(r) => after == if r == i then Request(InFlight, before.retry, before.issued + 1) else before
    case Respond(r, status) =>
      after ==
        if r != i then before
        else if status.Success? then before.(phase := Done(true))
        else if status.OtherError? || before.retry then before.(phase := Done(false))
        else if exists l :: 0 <= l < |s.requests| && s.requests[l].phase.Leading? then before.(phase := Queued)
        else Request(Leading, true, before.issued)
    case Refreshed(r, outcome) =>
      if r == i then
        if outcome.Renewed? then after == Request(InFlight, before.retry, before.issued + 1)
        else after == Request(Done(false), before.retry, before.issued)
      else after == if before.phase.Queued? then before.(phase := Released(outcome)) else before
    case Continue(r) =>
      after ==
        if r != i then before
        else if before.phase == Released(Lost) then Request(Done(false), before.retry, before.issued)
        else Request(InFlight, before.retry, before.issued + 1)
  }

  // A success ends a request well, any other error, or a second 401 after it led a refresh, ends it
  // badly; a first 401 makes it lead a refresh or wait for the one under way. When the refresh comes
  // back, the request that led it and, one by one, those that waited are issued again with the new
  // token, or end badly if the session is lost.
  lemma RequestMoves(s: State, e: Event, i: Id)
    requires Inv(s) && Enabled(s, e) && i < |s.requests|
    ensures |Step(s, e).requests| == |s.requests| && RequestAfter(s, e, i, Step(s, e).requests[i])
  {
  }

  // ── How a request ends ───────────────────────────────────────────────────

  // The last response a request got in a run, if it got one.
  function LastResponse(events: seq<Event>, i: Id): Option<Status> {
    if events == [] then None
    else if events[|events| - 1].Respond? && events[|events| - 1].r == i then Some(events[|events| - 1].status)
    else LastResponse(events[..|events| - 1], i)
  }

  // A request ends well if and only if the last response it got is a success.
  lemma {:induction false} EndsWellIff(n: nat, events: seq<Event>, i: Id)
    requires Proper(Start(n), events) && i < n
    ensures |Exec(Start(n), events).requests| == n
    ensures Exec(Start(n), events).requests[i].phase == Done(true) <==> LastResponse(events, i) == Some(Success)
  {
    RunKeeps(n, events);
    if events != [] {
      var init, e := events[..|events| - 1], events[|events| - 1];
      EndsWellIff(n, init, i);
      RunKeeps(n, init);
      RequestMoves(Exec(Start(n), init), e, i);
    }
  }

  // A request starts unmarked and is marked _retry exactly when it has led a refresh; waiting for one
  // does not mark it.
  lemma {:induction false} MarkedIffLed(n: nat, events: seq<Event>, i: Id)
    requires i < n
    ensures var s := Exec(Start(n), events); |s.requests| == n && (s.requests[i].retry <==> i in s.leaders)
    ensures events == [] ==> Exec(Start(n), events).requests[i] == Request(Ready, false, 0)
  {
    RunKeeps(n, events);
    if events != [] {
      var s, e := Exec(Start(n), events[..|events| - 1]), events[|events| - 1];
      MarkedIffLed(n, events[..|events| - 1], i);
      RunKeeps(n, events[..|events| - 1]);
      if Enabled(s, e) { RequestMoves(s, e, i); }
    }
  }

  // A callback that leaves a request with no way on: an error other than 401, a 401 to a request that
  // has already led a refresh, or a refresh that fails.
  ghost predicate Fatal(s: State, e: Event) {
    Enabled(s, e) &&
    ((e.Respond? && (e.status.OtherError? || (e.status.Unauthorized? && s.requests[e.r].retry))) ||
     (e.Refreshed? && e.outcome.Lost?))
  }

  ghost predicate NeverFatal(n: nat, events: seq<Event>) {
    events == [] ||
    (NeverFatal(n, events[..|events| - 1]) && !Fatal(Exec(Start(n), events[..|events| - 1]), events[|events| - 1]))
  }

  ghost predicate NobodyFailed(s: State) {
    forall i :: 0 <= i < |s.requests| ==> s.requests[i].phase != Done(false) && s.requests[i].phase != Released(Lost)
  }

  lemma StepFailsNobody(s: State, e: Event)
    requires Inv(s) && NobodyFailed(s) && !Fatal(s, e)
    ensures NobodyFailed(Step(s, e))
  {
    if Enabled(s, e) {
      forall i | 0 <= i < |Step(s, e).requests|
        ensures Step(s, e).requests[i].phase != Done(false) && Step(s, e).requests[i].phase != Released(Lost)
      {
        if i < |s.requests| { RequestMoves(s, e, i); }
      }
    }
  }

  lemma {:induction false} FailsNobody(n: nat, events: seq<Event>)
    requires NeverFatal(n, events)
    ensures NobodyFailed(Exec(Start(n), events))
  {
    if events != [] {
      FailsNobody(n, events[..|events| - 1]);
      RunKeeps(n, events[..|events| - 1]);
      StepFailsNobody(Exec(Start(n), events[..|events| - 1]), events[|events| - 1]);
    }
  }

  // An expired token costs nobody anything: if every refresh renews it, the server has no other error
  // and accepts the new token of a request that led a refresh, then every request ends well, whatever
  // the order of the callbacks.
  lemma ExpiryIsInvisible(n: nat, events: seq<Event>, i: Id)
    requires NeverFatal(n, events) && i < n && forall e :: !Enabled(Exec(Start(n), events), e)
    ensures |Exec(Start(n), events).requests| == n && Exec(Start(n), events).requests[i].phase == Done(true)
  {
    RunKeeps(n, events);
    FailsNobody(n, events);
    NobodyStuck(n, Exec(Start(n), events), i);
  }

  // ── Termination ──────────────────────────────────────────────────────────

  function Rank(p: Phase): nat {
    match p
    case Ready => 3
    case Released(_) => 3
    case InFlight => 2
    case Leading => 1
    case Queued => 1
    case Done(_) => 0
  }

  function Work(requests: seq<Request>): nat {
    if requests == [] then 0 else Work(requests[..|requests| - 1]) + Rank(requests[|requests| - 1].phase)
  }

  function Budget(s: State): int {
    2 * (|s.requests| - |s.leaders|) + (if s.refreshing then 1 else 0)
  }

  // Refreshes still possible weigh more than everything the requests can do between two of them.
  function Measure(s: State): int {
    Budget(s) * (3 * |s.requests| + 1) + Work(s.requests)
  }

  lemma {:induction false} WorkAtMost(requests: seq<Request>)
    ensures Work(requests) <= 3 * |requests|
  {
    if requests != [] { WorkAtMost(requests[..|requests| - 1]); }
  }

  lemma {:induction false} WorkUpdate(requests: seq<Request>, r: Id, req: Request)
    requires r < |requests|
    ensures Work(requests[r := req]) == Work(requests) - Rank(requests[r].phase) + Rank(req.phase)
  {
    var last := |requests| - 1;
    if r == last {
      assert requests[r := req][..last] == requests[..last];
    } else {
      assert requests[r := req][..last] == requests[..last][r := req];
      WorkUpdate(requests[..last], r, req);
    }
  }

  lemma BudgetSpent(a: int, b: int, n: nat, w: nat, w': nat)
    requires b == a - 1 && w' <= 3 * n
    ensures b * (3 * n + 1) + w' < a * (3 * n + 1) + w
  {
    assert b * (3 * n + 1) == a * (3 * n + 1) - (3 * n + 1);
  }

  // Starting or finishing a refresh spends budget; every other callback only lowers the work left.
  lemma StepSpends(s: State, e: Event)
    requires SingleFlight(s) && Enabled(s, e)
    ensures |Step(s, e).requests| == |s.requests|
    ensures Budget(Step(s, e)) == Budget(s) - 1
            || (Budget(Step(s, e)) == Budget(s) && Work(Step(s, e).requests) < Work(s.requests))
  {
    var s' := Step(s, e);
    if e.Refreshed? {
      assert s.refreshing;
    } else {
      WorkUpdate(s.requests, e.r, s'.requests[e.r]);
    }
  }

  lemma StepDecreases(s: State, e: Event)
    requires SingleFlight(s) && Enabled(s, e)
    ensures Measure(Step(s, e)) < Measure(s)
  {
    StepSpends(s, e);
    WorkAtMost(Step(s, e).requests);
    if Budget(Step(s, e)) == Budget(s) - 1 {
      BudgetSpent(Budget(s), Budget(Step(s, e)), |s.requests|, Work(s.requests), Work(Step(s, e).requests));
    }
  }

  lemma {:induction false} RunLengthBounded(n: nat, events: seq<Event>)
    requires Proper(Start(n), events)
    ensures Measure(Exec(Start(n), events)) + |events| <= Measure(Start(n))
  {
    if events != [] {
      RunLengthBounded(n, events[..|events| - 1]);
      RunKeeps(n, events[..|events| - 1]);
      StepDecreases(Exec(Start(n), events[..|events| - 1]), events[|events| - 1]);
    }
  }

  lemma {:induction false} StartWork(n: nat)
    ensures Work(Start(n).requests) == 3 * n
  {
    if n > 0 {
      StartWork(n - 1);
      assert Start(n).requests[..n - 1] == Start(n - 1).requests;
    }
  }

  lemma FewLeaders(n: nat, events: seq<Event>)
    ensures |Exec(Start(n), events).leaders| <= |Exec(Start(n), events).requests|
  {
    RunKeeps(n, events);
    DistinctBelow(Exec(Start(n), events).leaders, n);
  }

  lemma MeasureNatural(s: State)
    requires |s.leaders| <= |s.requests|
    ensures 0 <= Measure(s)
  {
    var a, b: nat := Budget(s), 3 * |s.requests| + 1;
    assert 0 <= a * b;
  }

  lemma StartMeasure(n: nat)
    ensures Measure(Start(n)) == 2 * n * (3 * n + 1) + 3 * n
  {
    StartWork(n);
    assert Budget(Start(n)) == 2 * n;
  }

  // Whatever the server answers, every run with n requests is finite.
  lemma RefreshTerminates(n: nat, events: seq<Event>)
    requires Proper(Start(n), events)
    ensures |events| <= 2 * n * (3 * n + 1) + 3 * n
  {
    RunLengthBounded(n, events);
    FewLeaders(n, events);
    MeasureNatural(Exec(Start(n), events));
    StartMeasure(n);
  }

  // A run that cannot go on has finished every request, and settled every promise it ever queued,
  // each exactly once and with the outcome of the refresh it waited on.
  lemma EverythingSettles(n: nat, s: State)
    requires Reachable(n, s) && forall e :: !Enabled(s, e)
    ensures |s.requests| == n && forall i :: 0 <= i < n ==> s.requests[i].phase.Done?
    ensures |s.waits| == |s.settled| && Distinct(s.waits)
    ensures forall w :: 0 <= w < |s.waits| ==>
              && s.waits[w].round < |s.rounds|
              && s.settled[w] == Settlement(s.waits[w].request, s.waits[w].round, s.rounds[s.waits[w].round])
  {
    ReachableInv(n, s);
    forall i | 0 <= i < n ensures s.requests[i].phase.Done? { NobodyStuck(n, s, i); }
    assert !s.refreshing;
  }

  lemma OneMore(n: nat, events: seq<Event>, e: Event)
    requires Enabled(Exec(Start(n), events), e)
    ensures 0 <= Measure(Exec(Start(n), events))
    ensures Measure(Exec(Start(n), events + [e])) < Measure(Exec(Start(n), events))
  {
    assert (events + [e])[..|events|] == events;
    RunKeeps(n, events);
    FewLeaders(n, events);
    MeasureNatural(Exec(Start(n), events));
    StepDecreases(Exec(Start(n), events), e);
  }

  // Every run can be continued to such an end.
  lemma {:induction false} RunsEnd(n: nat, events: seq<Event>) returns (more: seq<Event>)
    ensures forall e :: !Enabled(Exec(Start(n), events + more), e)
    decreases Measure(Exec(Start(n), events))
  {
    if e :| Enabled(Exec(Start(n), events), e) {
      OneMore(n, events, e);
      var rest := RunsEnd(n, events + [e]);
      assert events + [e] + rest == events + ([e] + rest);
      more := [e] + rest;
    } else {
      assert events + [] == events;
      more := [];
    }
  }

  // ── The interceptor itself ───────────────────────────────────────────────

  class ApiClient {
    var isRefreshing: bool
    var refreshQueue: seq<Id>
    var requests: seq<Request>
    ghost var leaders: seq<Id>
    ghost var rounds: seq<Outcome>
    ghost var waits: seq<Wait>
    ghost var settled: seq<Settlement>

    ghost function View(): State
      reads this
    {
      State(requests, isRefreshing, refreshQueue, leaders, rounds, waits, settled)
    }

    constructor (n: nat)
      ensures View() == Start(n)
    {
      isRefreshing, refreshQueue := false, [];
      requests := seq(n, i => Request(Ready, false, 0));
      leaders, rounds, waits, settled := [], [], [], [];
    }

    /** Settle every queued promise, then empty the queue. */
    method ProcessQueue(outcome: Outcome)
      requires forall i :: i in refreshQueue ==> i < |requests|
      modifies this
      ensures requests == ReleaseAll(old(requests), old(refreshQueue), outcome) && refreshQueue == []
      ensures settled == old(settled) + Settlements(old(refreshQueue), |rounds|, outcome)
      ensures unchanged(`isRefreshing) && unchanged(`leaders) && unchanged(`rounds) && unchanged(`waits)
    {
      var k := 0;
      while k < |refreshQueue|
        invariant 0 <= k <= |refreshQueue|
        invariant requests == ReleaseAll(old(requests), refreshQueue[..k], outcome)
        invariant settled == old(settled) + Settlements(refreshQueue[..k], |rounds|, outcome)
        invariant unchanged(`isRefreshing) && unchanged(`leaders) && unchanged(`rounds) && unchanged(`waits) &&
                    unchanged(`refreshQueue)
      {
        var i := refreshQueue[k];
        assert i in refreshQueue;
        assert refreshQueue[..k + 1] == refreshQueue[..k] + [i];
        requests := requests[i := requests[i].(phase := Released(outcome))];
        settled := settled + [Settlement(i, |rounds|, outcome)];
        k := k + 1;
      }
      assert refreshQueue[..|refreshQueue|] == refreshQueue;
      refreshQueue := [];
    }

    /** A response, or the lack of one, reaches the interceptor. */
    method OnResponse(r: Id, status: Status)
      requires r < |requests| && requests[r].phase.InFlight?
      modifies this
      ensures View() == Step(old(View()), Respond(r, status))
    {
      if status == Success {
        requests := requests[r := requests[r].(phase := Done(true))];
        return;
      }
      if status != Unauthorized || requests[r].retry {
        requests := requests[r := requests[r].(phase := Done(false))];
        return;
      }
      if isRefreshing {
        refreshQueue := refreshQueue + [r];
        waits := waits + [Wait(r, |rounds|)];
        requests := requests[r := requests[r].(phase := Queued)];
        return;
      }
      requests := requests[r := requests[r].(phase := Leading, retry := true)];
      isRefreshing := true;
      leaders := leaders + [r];
    }

    /** The refresh call of the leading request returns: settle the queue, re-issue or fail the leader, and reset. */
    method OnRefreshed(r: Id, outcome: Outcome)
      requires r < |requests| && requests[r].phase.Leading?
      requires forall i :: i in refreshQueue ==> i < |requests|
      modifies this
      ensures View() == Step(old(View()), Refreshed(r, outcome)) && r < |requests|
      ensures r !in old(refreshQueue) ==>
                requests[r].phase == (if outcome.Renewed? then InFlight else Done(false)) &&
                requests[r].issued == old(requests[r].issued) + if outcome.Renewed? then 1 else 0
    {
      ProcessQueue(outcome);
      if outcome.Renewed? {
        requests := requests[r := requests[r].(phase := InFlight, issued := requests[r].issued + 1)];
      } else {
        requests := requests[r := requests[r].(phase := Done(false))];
      }
      rounds := rounds + [outcome];
      isRefreshing := false;
    }

    /** The continuation of a settled promise. */
    method OnSettled(r: Id)
      requires r < |requests| && requests[r].phase.Released?
      modifies this
      ensures View() == Step(old(View()), Continue(r))
    {
      if requests[r].phase.outcome.Renewed? {
        requests := requests[r := requests[r].(phase := InFlight, issued := requests[r].issued + 1)];
      } else {
        requests := requests[r := requests[r].(phase := Done(false))];
      }
    }
  }
}
