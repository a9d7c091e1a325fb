// Engine allocation: the registry keeps one expiring record per engine with a
// clamped counter of active sessions, and one expiring mapping per session.
// Creating a session picks the least loaded engine, writes the session row,
// calls the engine, and only then records the mapping, so several creations
// may be in flight at once.

module EngineRegistry {
  import opened Common

  type Id = nat
  type Capacity = n: int | 1 <= n <= 200 witness 1

  datatype Instance = Instance(maxSessions: Capacity, activeSessions: nat, isHealthy: bool)

  datatype SessionRow = SessionRow(tenant: Id, engine: Id)

  // inFlight holds the creations whose engine call has not been settled, with the engine picked.
  datatype State = State(engines: map<Id, Instance>, mapping: map<Id, Id>, rows: map<Id, SessionRow>,
                         inFlight: map<Id, Id>, nextSession: Id)

  const EMPTY := State(map[], map[], map[], map[], 0)

  // How the second half of a creation ends: the engine refused, all went well, or the registry
  // failed before writing the mapping, or after writing it but before counting the session.
  datatype Outcome = EngineRefused | Assigned | MappingFailed | CountFailed

  datatype Event =
    | Register(engine: Id, maxSessions: Capacity)
    | Heartbeat(engine: Id)
    | Deregister(engine: Id)
    | EngineExpires(engine: Id)
    | MappingExpires(session: Id)
    | Pick(tenant: Id, order: seq<Id>)
    | Settle(session: Id, outcome: Outcome)
    | Delete(tenant: Id, session: Id)

  // ── The allocator ────────────────────────────────────────────────────────

  function Load(i: Instance): real {
    i.activeSessions as real / i.maxSessions as real
  }

  predicate Usable(i: Instance) {
    i.isHealthy && i.activeSessions < i.maxSessions
  }

  function Available(engines: map<Id, Instance>, order: seq<Id>): (usable: seq<Id>)
    requires forall e :: e in order ==> e in engines
    ensures forall e :: e in usable <==> e in order && Usable(engines[e])
  {
    if order == [] then []
    else
      var rest := Available(engines, order[..|order| - 1]);
      assert order == order[..|order| - 1] + [order[|order| - 1]];
      if Usable(engines[order[|order| - 1]]) then rest + [order[|order| - 1]] else rest
  }

  function Least(engines: map<Id, Instance>, ids: seq<Id>): (e: Id)
    requires ids != [] && forall e :: e in ids ==> e in engines
    ensures e in ids
  {
    if |ids| == 1 then ids[0]
    else
      var least := Least(engines, ids[..|ids| - 1]);
      var current := ids[|ids| - 1];
      if Load(engines[current]) < Load(engines[least]) then current else least
  }

  datatype Choice = NoEngines | AllFull | Chosen(engine: Id)

  function LeastLoaded(engines: map<Id, Instance>, order: seq<Id>): Choice
    requires forall e :: e in order ==> e in engines
  {
    if order == [] then NoEngines
    else if Available(engines, order) == [] then AllFull
    else Chosen(Least(engines, Available(engines, order)))
  }

  ghost predicate FirstMinimum(engines: map<Id, Instance>, ids: seq<Id>, i: nat)
    requires i < |ids| && forall e :: e in ids ==> e in engines
  {
    && (forall e :: e in ids ==> Load(engines[ids[i]]) <= Load(engines[e]))
    && (forall e :: e in ids[..i] ==> Load(engines[ids[i]]) < Load(engines[e]))
  }

  // The reduction keeps the first of the minimal elements.
  lemma {:induction false} LeastIsFirstMinimum(engines: map<Id, Instance>, ids: seq<Id>) returns (i: nat)
    requires ids != [] && forall e :: e in ids ==> e in engines
    ensures i < |ids| && ids[i] == Least(engines, ids) && FirstMinimum(engines, ids, i)
  {
    if |ids| == 1 {
      i := 0;
    } else {
      var n := |ids| - 1;
      i := LeastIsFirstMinimum(engines, ids[..n]);
      assert ids == ids[..n] + [ids[n]];
      if Load(engines[ids[n]]) < Load(engines[ids[i]]) {
        i := n;
      } else {
        assert ids[..n][..i] == ids[..i];
      }
    }
  }

  lemma ProductSign(d: real, w: real)
    requires w > 0.0
    ensures d >= 0.0 <==> d * w >= 0.0
  {
  }

  lemma QuotientOrder(x: real, y: real, p: real, q: real, m: real, n: real)
    requires m > 0.0 && n > 0.0 && x * m == p && y * n == q
    ensures x <= y <==> p * n <= q * m
  {
    assert q * m - p * n == (y - x) * (m * n);
    assert m * n > 0.0;
    ProductSign(y - x, m * n);
  }

  lemma LoadOrder(a: Instance, b: Instance)
    ensures Load(a) <= Load(b) <==> a.activeSessions * b.maxSessions <= b.activeSessions * a.maxSessions
  {
    var p, q, m, n := a.activeSessions as real, b.activeSessions as real, a.maxSessions as real, b.maxSessions as real;
    assert Load(a) * m == p && Load(b) * n == q;
    QuotientOrder(Load(a), Load(b), p, q, m, n);
    assert p * n == (a.activeSessions * b.maxSessions) as real && q * m == (b.activeSessions * a.maxSessions) as real;
  }

  // The pick is healthy and not full, and no such engine has a smaller active / max (compared
  // crosswise); it fails exactly when there is no engine or no such engine.
  lemma PickMinimisesLoad(engines: map<Id, Instance>, order: seq<Id>)
    requires Lists(order, engines.Keys)
    ensures LeastLoaded(engines, order) == NoEngines <==> engines == map[]
    ensures LeastLoaded(engines, order).Chosen? <==>
              exists e :: e in engines && engines[e].isHealthy && engines[e].activeSessions < engines[e].maxSessions
    ensures LeastLoaded(engines, order).Chosen? ==>
              var e := LeastLoaded(engines, order).engine;
              e in engines && engines[e].isHealthy && engines[e].activeSessions < engines[e].maxSessions &&
              forall d :: d in engines && engines[d].isHealthy && engines[d].activeSessions < engines[d].maxSessions ==>
                engines[e].activeSessions * engines[d].maxSessions <= engines[d].activeSessions * engines[e].maxSessions
  {
    assert forall e :: e in order <==> e in engines by {
      assert forall e :: e in Elements(order) <==> e in order;
    }
    if order != [] { assert order[0] in engines; }
    if engines == map[] { assert order == []; }
    var usable := Available(engines, order);
    if usable != [] {
      assert usable[0] in engines && Usable(engines[usable[0]]);
      var _ := LeastIsFirstMinimum(engines, usable);
      var e := Least(engines, usable);
      forall d | d in engines && engines[d].isHealthy && engines[d].activeSessions < engines[d].maxSessions
        ensures engines[e].activeSessions * engines[d].maxSessions <= engines[d].activeSessions * engines[e].maxSessions
      {
        assert Usable(engines[d]) && d in usable;
        LoadOrder(engines[e], engines[d]);
      }
    }
  }

  // ── The protocol ─────────────────────────────────────────────────────────

  function Increment(engines: map<Id, Instance>, e: Id): map<Id, Instance> {
    if e !in engines then engines
    else
      var i := engines[e];
      var count := if i.activeSessions + 1 <= i.maxSessions then i.activeSessions + 1 else i.maxSessions;
      engines[e := i.(activeSessions := count)]
  }

  function Decrement(engines: map<Id, Instance>, e: Id): map<Id, Instance> {
    if e !in engines then engines
    else
      var i := engines[e];
      engines[e := i.(activeSessions := if i.activeSessions >= 1 then i.activeSessions - 1 else 0)]
  }

  function Release(s: State, session: Id): State {
    if session in s.mapping then
      s.(engines := Decrement(s.engines, s.mapping[session]), mapping := s.mapping - {session})
    else s
  }

  function Settled(s: State, session: Id, outcome: Outcome): State
    requires session in s.inFlight
  {
    var e := s.inFlight[session];
    var t := s.(inFlight := s.inFlight - {session});
    if outcome.EngineRefused? then t.(rows := t.rows - {session})
    else if session !in s.rows then t
    else match outcome
      case Assigned => t.(mapping := t.mapping[session := e], engines := Increment(t.engines, e))
      case CountFailed => t.(mapping := t.mapping[session := e], rows := t.rows - {session})
      case _ => t.(rows := t.rows - {session})
  }

  function Picked(s: State, tenant: Id, e: Id): State {
    s.(rows := s.rows[s.nextSession := SessionRow(tenant, e)], inFlight := s.inFlight[s.nextSession := e],
       nextSession := s.nextSession + 1)
  }

  ghost function Step(s: State, ev: Event): State {
    match ev
    case Register(e, m) => s.(engines := s.engines[e := Instance(m, 0, true)])
    case Heartbeat(e) => if e in s.engines then s.(engines := s.engines[e := s.engines[e].(isHealthy := true)]) else s
    case Deregister(e) => s.(engines := s.engines - {e})
    case EngineExpires(e) => s.(engines := s.engines - {e})
    case MappingExpires(k) => s.(mapping := s.mapping - {k})
    case Pick(tenant, order) =>
      if Lists(order, s.engines.Keys) &&
        (assert forall e :: e in order ==> e in Elements(order); LeastLoaded(s.engines, order).Chosen?) then
        Picked(s, tenant, LeastLoaded(s.engines, order).engine)
      else s
    case Settle(k, outcome) => if k in s.inFlight then Settled(s, k, outcome) else s
    case Delete(tenant, k) =>
      if k in s.rows && s.rows[k].tenant == tenant then
        var t := Release(s, k);
        t.(rows := t.rows - {k})
      else s
  }

  ghost function Exec(s: State, evs: seq<Event>): State {
    if evs == [] then s else Step(Exec(s, evs[..|evs| - 1]), evs[|evs| - 1])
  }

  // ── Invariants of every run ──────────────────────────────────────────────

  ghost predicate CountsWithin(engines: map<Id, Instance>) {
    forall e :: e in engines ==> engines[e].activeSessions <= engines[e].maxSessions && engines[e].isHealthy
  }

  ghost predicate Fresh(s: State) {
    && (forall k :: k in s.mapping ==> k < s.nextSession && k !in s.inFlight)
    && (forall k :: k in s.inFlight ==> k < s.nextSession)
    && (forall k :: k in s.rows ==> k < s.nextSession)
  }

  ghost predicate Inv(s: State) {
    CountsWithin(s.engines) && Fresh(s)
  }

  lemma StepKeepsInv(s: State, ev: Event)
    requires Inv(s)
    ensures Inv(Step(s, ev))
  {
  }

  lemma {:induction false} RunKeepsInv(s: State, evs: seq<Event>)
    requires Inv(s)
    ensures Inv(Exec(s, evs))
  {
    if evs != [] {
      RunKeepsInv(s, evs[..|evs| - 1]);
      StepKeepsInv(Exec(s, evs[..|evs| - 1]), evs[|evs| - 1]);
    }
  }

  // 0 <= activeSessions <= maxSessions whatever happens, in every interleaving, and every stored
  // record is healthy.
  lemma CountersStayWithin(evs: seq<Event>, e: Id)
    requires e in Exec(EMPTY, evs).engines
    ensures 0 <= Exec(EMPTY, evs).engines[e].activeSessions <= Exec(EMPTY, evs).engines[e].maxSessions
    ensures Exec(EMPTY, evs).engines[e].isHealthy
  {
    RunKeepsInv(EMPTY, evs);
  }

  // ── Counter against mapping ──────────────────────────────────────────────

  ghost function MappedTo(mapping: map<Id, Id>, e: Id): set<Id> {
    set k | k in mapping && mapping[k] == e
  }

  ghost predicate Bounded(s: State) {
    forall e :: e in s.engines ==> s.engines[e].activeSessions <= |MappedTo(s.mapping, e)|
  }

  ghost predicate Exact(s: State) {
    forall e :: e in s.engines ==> s.engines[e].activeSessions == |MappedTo(s.mapping, e)|
  }

  lemma MappedAfterAdd(mapping: map<Id, Id>, k: Id, e: Id)
    requires k !in mapping
    ensures |MappedTo(mapping[k := e], e)| == |MappedTo(mapping, e)| + 1
    ensures forall d :: d != e ==> MappedTo(mapping[k := e], d) == MappedTo(mapping, d)
  {
    assert MappedTo(mapping[k := e], e) == MappedTo(mapping, e) + {k};
  }

  lemma MappedAfterRemove(mapping: map<Id, Id>, k: Id)
    ensures k in mapping ==> |MappedTo(mapping, mapping[k])| >= 1
    ensures k in mapping ==> |MappedTo(mapping - {k}, mapping[k])| == |MappedTo(mapping, mapping[k])| - 1
    ensures forall d :: k in mapping && d != mapping[k] ==> MappedTo(mapping - {k}, d) == MappedTo(mapping, d)
    ensures k !in mapping ==> mapping - {k} == mapping
  {
    if k in mapping {
      assert k in MappedTo(mapping, mapping[k]);
      assert MappedTo(mapping - {k}, mapping[k]) == MappedTo(mapping, mapping[k]) - {k};
    }
  }

  lemma MappingLemmas(s: State, ev: Event)
    ensures ev.Settle? && ev.session in s.inFlight && ev.session !in s.mapping ==>
              var e := s.inFlight[ev.session];
              |MappedTo(s.mapping[ev.session := e], e)| == |MappedTo(s.mapping, e)| + 1 &&
              forall d :: d != e ==> MappedTo(s.mapping[ev.session := e], d) == MappedTo(s.mapping, d)
  {
    if ev.Settle? && ev.session in s.inFlight && ev.session !in s.mapping {
      MappedAfterAdd(s.mapping, ev.session, s.inFlight[ev.session]);
    }
  }

  // Only the expiry of a mapping that the counter relies on can push a counter above its mappings.
  ghost predicate KeepsBounded(s: State, ev: Event) {
    ev.MappingExpires? && ev.session in s.mapping && s.mapping[ev.session] in s.engines ==>
      s.engines[s.mapping[ev.session]].activeSessions < |MappedTo(s.mapping, s.mapping[ev.session])|
  }

  lemma BoundedIff(s: State, ev: Event)
    requires Inv(s) && Bounded(s)
    ensures Bounded(Step(s, ev)) <==> KeepsBounded(s, ev)
  {
    MappingLemmas(s, ev);
    if ev.Delete? || ev.MappingExpires? { MappedAfterRemove(s.mapping, ev.session); }
    if !KeepsBounded(s, ev) { assert s.mapping[ev.session] in Step(s, ev).engines; }
  }

  // Without mapping expiry no counter ever exceeds the number of sessions mapped to its engine,
  // through re-registration, deregistration, record expiry and interleaved or failing creations.
  lemma {:induction false} CountersNeverExceedMappings(evs: seq<Event>)
    requires forall i :: 0 <= i < |evs| ==> !evs[i].MappingExpires?
    ensures Bounded(Exec(EMPTY, evs))
  {
    if evs != [] {
      CountersNeverExceedMappings(evs[..|evs| - 1]);
      RunKeepsInv(EMPTY, evs[..|evs| - 1]);
      BoundedIff(Exec(EMPTY, evs[..|evs| - 1]), evs[|evs| - 1]);
    }
  }

  // The guard under which one step keeps every counter exact.
  ghost predicate KeepsExact(s: State, ev: Event) {
    match ev
    case Register(e, _) => MappedTo(s.mapping, e) == {}
    case MappingExpires(k) => k in s.mapping ==> s.mapping[k] !in s.engines
    case Settle(k, outcome) =>
      k in s.inFlight && k in s.rows && s.inFlight[k] in s.engines ==>
        (match outcome
         case Assigned => s.engines[s.inFlight[k]].activeSessions < s.engines[s.inFlight[k]].maxSessions
         case CountFailed => false
         case _ => true)
    case _ => true
  }

  // Exactness survives a step if and only if the step is not one of: registering an engine that
  // still has sessions mapped to it, expiry of a live engine's mapping, a creation settling on an
  // engine that filled up meanwhile, or a count lost half way.
  lemma ExactIff(s: State, ev: Event)
    requires Inv(s) && Exact(s)
    ensures Exact(Step(s, ev)) <==> KeepsExact(s, ev)
  {
    var t := Step(s, ev);
    MappingLemmas(s, ev);
    if ev.Delete? || ev.MappingExpires? { MappedAfterRemove(s.mapping, ev.session); }
    if !KeepsExact(s, ev) {
      match ev
      case Register(e, _) => assert t.engines[e].activeSessions != |MappedTo(t.mapping, e)|;
      case MappingExpires(k) => assert t.engines[s.mapping[k]] == s.engines[s.mapping[k]];
      case Settle(k, _) =>
        var e := s.inFlight[k];
        assert t.engines[e].activeSessions != |MappedTo(t.mapping, e)|;
    }
  }

  // ── Reachable states in which the guards fail ────────────────────────────

  lemma ExecSnoc(s: State, evs: seq<Event>, ev: Event)
    ensures Exec(s, evs + [ev]) == Step(Exec(s, evs), ev)
  {
    assert (evs + [ev])[..|evs|] == evs;
  }

  // An engine with room for the given number of sessions, and two creations picked at once.
  function TwoPicks(maxSessions: Capacity): seq<Event> {
    [] + [Register(0, maxSessions)] + [Pick(0, [0])] + [Pick(0, [0])]
  }

  lemma PickOnly(s: State)
    requires s.engines.Keys == {0} && Usable(s.engines[0])
    ensures Step(s, Pick(0, [0])) == Picked(s, 0, 0)
  {
    assert forall e :: e in [0] <==> e == 0;
    assert Elements([0]) == {0} && Lists([0], s.engines.Keys);
    assert [0][..0] == [];
    assert Available(s.engines, [0]) == [0];
  }

  lemma AfterTwoPicks(maxSessions: Capacity)
    ensures var row := SessionRow(0, 0);
            Exec(EMPTY, TwoPicks(maxSessions)) ==
              State(map[0 := Instance(maxSessions, 0, true)], map[], map[0 := row, 1 := row], map[0 := 0, 1 := 0], 2)
  {
    assert Exec(EMPTY, []) == EMPTY;
    var one := [] + [Register(0, maxSessions)];
    ExecSnoc(EMPTY, [], Register(0, maxSessions));
    ExecSnoc(EMPTY, one, Pick(0, [0]));
    ExecSnoc(EMPTY, one + [Pick(0, [0])], Pick(0, [0]));
    PickOnly(Exec(EMPTY, one));
    PickOnly(Exec(EMPTY, one + [Pick(0, [0])]));
  }

  // One session on the only engine, and a second creation in flight to it.
  ghost predicate OneOnEngine(s: State, maxSessions: Capacity) {
    && s.engines == map[0 := Instance(maxSessions, 1, true)] && s.mapping == map[0 := 0]
    && s.inFlight == map[1 := 0] && 1 in s.rows
  }

  lemma OneIsExact(s: State, maxSessions: Capacity)
    requires OneOnEngine(s, maxSessions)
    ensures Exact(s) && Bounded(s) && MappedTo(s.mapping, 0) == {0}
  {
    assert MappedTo(s.mapping, 0) == {0};
  }

  lemma FirstSettles(s: State, maxSessions: Capacity)
    requires s.engines == map[0 := Instance(maxSessions, 0, true)] && s.mapping == map[]
    requires s.inFlight == map[0 := 0, 1 := 0] && 0 in s.rows && 1 in s.rows
    ensures OneOnEngine(Step(s, Settle(0, Assigned)), maxSessions)
  {
    assert map[0 := 0, 1 := 0] - {0} == map[1 := 0];
  }

  // The first creation settles; the counters are exact, with one session on the engine.
  lemma OneAssigned(maxSessions: Capacity)
    ensures var s := Exec(EMPTY, TwoPicks(maxSessions) + [Settle(0, Assigned)]);
            Inv(s) && OneOnEngine(s, maxSessions) && Exact(s) && Bounded(s)
  {
    AfterTwoPicks(maxSessions);
    FirstSettles(Exec(EMPTY, TwoPicks(maxSessions)), maxSessions);
    ExecSnoc(EMPTY, TwoPicks(maxSessions), Settle(0, Assigned));
    RunKeepsInv(EMPTY, TwoPicks(maxSessions) + [Settle(0, Assigned)]);
    OneIsExact(Exec(EMPTY, TwoPicks(maxSessions) + [Settle(0, Assigned)]), maxSessions);
  }

  // Then the mapping expires: the counter exceeds the mappings.
  lemma ExpiryBreaksBound(maxSessions: Capacity)
    ensures var s := Exec(EMPTY, TwoPicks(maxSessions) + [Settle(0, Assigned)]);
            && Bounded(s) && !Bounded(Step(s, MappingExpires(0)))
            && Exact(s) && !Exact(Step(s, MappingExpires(0)))
  {
    OneAssigned(maxSessions);
    var s := Exec(EMPTY, TwoPicks(maxSessions) + [Settle(0, Assigned)]);
    OneIsExact(s, maxSessions);
    BoundedIff(s, MappingExpires(0));
    ExactIff(s, MappingExpires(0));
  }

  // Or the engine registers again, which forgets its session.
  lemma ReregistrationBreaksExactness(maxSessions: Capacity)
    ensures var s := Exec(EMPTY, TwoPicks(maxSessions) + [Settle(0, Assigned)]);
            Exact(s) && !Exact(Step(s, Register(0, maxSessions)))
  {
    OneAssigned(maxSessions);
    var s := Exec(EMPTY, TwoPicks(maxSessions) + [Settle(0, Assigned)]);
    OneIsExact(s, maxSessions);
    ExactIff(s, Register(0, maxSessions));
  }

  // Or the second creation settles on an engine with room for one, or loses its count half way.
  lemma SecondCreationBreaksExactness(maxSessions: Capacity)
    ensures var s := Exec(EMPTY, TwoPicks(maxSessions) + [Settle(0, Assigned)]);
            && (!Exact(Step(s, Settle(1, Assigned))) <==> maxSessions == 1)
            && !Exact(Step(s, Settle(1, CountFailed)))
  {
    OneAssigned(maxSessions);
    var s := Exec(EMPTY, TwoPicks(maxSessions) + [Settle(0, Assigned)]);
    ExactIff(s, Settle(1, Assigned));
    ExactIff(s, Settle(1, CountFailed));
  }

  // ── Runs of whole calls ──────────────────────────────────────────────────

  // A call that runs to completion before the next one starts.
  datatype Call =
    | FirstRegister(engine: Id, maxSessions: Capacity)
    | Beat(engine: Id)
    | Create(tenant: Id, order: seq<Id>, outcome: Outcome)
    | Remove(tenant: Id, session: Id)

  ghost function RunCall(s: State, c: Call): State {
    match c
    case FirstRegister(e, m) => Step(s, Register(e, m))
    case Beat(e) => Step(s, Heartbeat(e))
    case Create(tenant, order, outcome) => Step(Step(s, Pick(tenant, order)), Settle(s.nextSession, outcome))
    case Remove(tenant, k) => Step(s, Delete(tenant, k))
  }

  ghost function RunCalls(s: State, calls: seq<Call>): State {
    if calls == [] then s else RunCall(RunCalls(s, calls[..|calls| - 1]), calls[|calls| - 1])
  }

  // Each engine registers once, and no creation loses its count half way.
  ghost predicate OrdinaryRun(calls: seq<Call>) {
    && (forall i, j :: 0 <= i < j < |calls| && calls[i].FirstRegister? && calls[j].FirstRegister? ==>
          calls[i].engine != calls[j].engine)
    && (forall i :: 0 <= i < |calls| && calls[i].Create? ==> calls[i].outcome != CountFailed)
  }

  ghost predicate Registered(calls: seq<Call>, e: Id) {
    exists i :: 0 <= i < |calls| && calls[i].FirstRegister? && calls[i].engine == e
  }

  ghost predicate Linked(s: State) {
    && (forall k :: k in s.mapping ==> k in s.rows && s.rows[k].engine == s.mapping[k] && s.mapping[k] in s.engines)
    && (forall k :: k in s.rows ==> k in s.mapping)
    && s.inFlight == map[]
  }

  lemma CreateKeepsExact(s: State, tenant: Id, order: seq<Id>, outcome: Outcome)
    requires Inv(s) && Exact(s) && Linked(s) && outcome != CountFailed
    ensures Exact(RunCall(s, Create(tenant, order, outcome)))
  {
    if Lists(order, s.engines.Keys) { PickMinimisesLoad(s.engines, order); }
    var p := Step(s, Pick(tenant, order));
    ExactIff(s, Pick(tenant, order));
    StepKeepsInv(s, Pick(tenant, order));
    assert KeepsExact(p, Settle(s.nextSession, outcome));
    ExactIff(p, Settle(s.nextSession, outcome));
  }

  lemma CallKeepsInv(s: State, c: Call)
    requires Inv(s)
    ensures Inv(RunCall(s, c))
  {
    match c
    case FirstRegister(e, m) => StepKeepsInv(s, Register(e, m));
    case Beat(e) => StepKeepsInv(s, Heartbeat(e));
    case Create(tenant, order, outcome) =>
      StepKeepsInv(s, Pick(tenant, order));
      StepKeepsInv(Step(s, Pick(tenant, order)), Settle(s.nextSession, outcome));
    case Remove(tenant, k) => StepKeepsInv(s, Delete(tenant, k));
  }

  lemma SettleKeepsLinked(s: State, tenant: Id, e: Id, outcome: Outcome)
    requires Inv(s) && Linked(s) && outcome != CountFailed && e in s.engines
    ensures var t := Settled(Picked(s, tenant, e), s.nextSession, outcome);
            Linked(t) && t.engines.Keys == s.engines.Keys
  {
    var p := Picked(s, tenant, e);
    assert p.inFlight - {s.nextSession} == map[];
    assert p.rows - {s.nextSession} == s.rows;
  }

  lemma CreateKeepsLinked(s: State, tenant: Id, order: seq<Id>, outcome: Outcome)
    requires Inv(s) && Linked(s) && outcome != CountFailed
    ensures var t := RunCall(s, Create(tenant, order, outcome)); Linked(t) && t.engines.Keys == s.engines.Keys
  {
    var p := Step(s, Pick(tenant, order));
    if p != s {
      PickMinimisesLoad(s.engines, order);
      SettleKeepsLinked(s, tenant, LeastLoaded(s.engines, order).engine, outcome);
    }
  }

  lemma CallKeepsLinked(s: State, c: Call)
    requires Inv(s) && Linked(s) && (c.Create? ==> c.outcome != CountFailed)
    ensures Linked(RunCall(s, c))
    ensures RunCall(s, c).engines.Keys == s.engines.Keys + if c.FirstRegister? then {c.engine} else {}
  {
    if c.Create? { CreateKeepsLinked(s, c.tenant, c.order, c.outcome); }
  }

  lemma CallKeepsExact(s: State, c: Call)
    requires Inv(s) && Exact(s) && Linked(s) && (c.Create? ==> c.outcome != CountFailed)
    requires c.FirstRegister? ==> c.engine !in s.engines
    ensures Exact(RunCall(s, c))
  {
    match c
    case FirstRegister(e, m) =>
      assert MappedTo(s.mapping, e) == {};
      ExactIff(s, Register(e, m));
    case Beat(e) => ExactIff(s, Heartbeat(e));
    case Create(tenant, order, outcome) => CreateKeepsExact(s, tenant, order, outcome);
    case Remove(tenant, k) => ExactIff(s, Delete(tenant, k));
  }

  lemma RegisteredSnoc(calls: seq<Call>, e: Id)
    requires calls != []
    ensures Registered(calls, e) <==>
              Registered(calls[..|calls| - 1], e) ||
              (calls[|calls| - 1].FirstRegister? && calls[|calls| - 1].engine == e)
  {
  }

  lemma {:induction false} EnginesRegistered(calls: seq<Call>)
    requires OrdinaryRun(calls)
    ensures Inv(RunCalls(EMPTY, calls)) && Linked(RunCalls(EMPTY, calls))
    ensures forall e :: e in RunCalls(EMPTY, calls).engines ==> Registered(calls, e)
  {
    if calls != [] {
      var n := |calls| - 1;
      EnginesRegistered(calls[..n]);
      var s := RunCalls(EMPTY, calls[..n]);
      CallKeepsInv(s, calls[n]);
      CallKeepsLinked(s, calls[n]);
      forall e | e in RunCall(s, calls[n]).engines ensures Registered(calls, e) {
        RegisteredSnoc(calls, e);
      }
    }
  }

  // In runs of complete create and delete calls from first registrations, every counter is
  // exactly the number of sessions on its engine, and every session row has its mapping.
  lemma {:induction false} CreateDeleteRunsExact(calls: seq<Call>)
    requires OrdinaryRun(calls)
    ensures Exact(RunCalls(EMPTY, calls)) && Linked(RunCalls(EMPTY, calls))
  {
    EnginesRegistered(calls);
    if calls != [] {
      var n := |calls| - 1;
      CreateDeleteRunsExact(calls[..n]);
      EnginesRegistered(calls[..n]);
      if calls[n].FirstRegister? {
        assert !Registered(calls[..n], calls[n].engine);
      }
      CallKeepsExact(RunCalls(EMPTY, calls[..n]), calls[n]);
    }
  }

  // ── The services over one registry and one session table ────────────────

  class SessionsService {
    var engines: map<Id, Instance>
    var mapping: map<Id, Id>
    var rows: map<Id, SessionRow>
    var inFlight: map<Id, Id>
    var nextSession: Id

    ghost function View(): State
      reads this
    {
      State(engines, mapping, rows, inFlight, nextSession)
    }

    constructor ()
      ensures View() == EMPTY
    {
      engines, mapping, rows, inFlight, nextSession := map[], map[], map[], map[], 0;
    }

    method RegisterEngine(e: Id, maxSessions: Capacity)
      modifies `engines
      ensures View() == Step(old(View()), Register(e, maxSessions))
    {
      engines := engines[e := Instance(maxSessions, 0, true)];
    }

    method HeartbeatEngine(e: Id) returns (found: bool)
      modifies `engines
      ensures found == (e in old(engines)) && View() == Step(old(View()), Heartbeat(e))
    {
      found := e in engines;
      if found { engines := engines[e := engines[e].(isHealthy := true)]; }
    }

    method DeregisterEngine(e: Id)
      modifies `engines
      ensures View() == Step(old(View()), Deregister(e))
    {
      engines := engines - {e};
    }

    method FilterUsable(order: seq<Id>) returns (available: seq<Id>)
      requires forall e :: e in order ==> e in engines
      ensures available == Available(engines, order)
    {
      available := [];
      for i := 0 to |order|
        invariant available == Available(engines, order[..i])
      {
        assert order[..i + 1][..i] == order[..i];
        if Usable(engines[order[i]]) { available := available + [order[i]]; }
      }
      assert order[..|order|] == order;
    }

    method ReduceToLeast(available: seq<Id>) returns (least: Id)
      requires available != [] && forall e :: e in available ==> e in engines
      ensures least == Least(engines, available)
    {
      least := available[0];
      for i := 1 to |available|
        invariant least in engines && least == Least(engines, available[..i])
      {
        assert available[..i + 1][..i] == available[..i];
        if Load(engines[available[i]]) < Load(engines[least]) { least := available[i]; }
      }
      assert available[..|available|] == available;
    }

    /** Filter the usable engines, then reduce them to the first one of least load. */
    method GetLeastLoadedInstance(order: seq<Id>) returns (choice: Choice)
      requires forall e :: e in order ==> e in engines
      ensures choice == LeastLoaded(engines, order)
    {
      if order == [] { return NoEngines; }
      var available := FilterUsable(order);
      if available == [] { return AllFull; }
      var least := ReduceToLeast(available);
      choice := Chosen(least);
    }

    method IncrementSessionCount(e: Id)
      modifies `engines
      ensures engines == Increment(old(engines), e)
    {
      if e !in engines { return; }
      var count := engines[e].activeSessions + 1;
      if engines[e].maxSessions < count { count := engines[e].maxSessions; }
      engines := engines[e := engines[e].(activeSessions := count)];
    }

    method DecrementSessionCount(e: Id)
      modifies `engines
      ensures engines == Decrement(old(engines), e)
    {
      if e !in engines { return; }
      var count: int := engines[e].activeSessions - 1;
      if count < 0 { count := 0; }
      engines := engines[e := engines[e].(activeSessions := count)];
    }

    method ReleaseSessionFromInstance(session: Id)
      modifies `engines, `mapping
      ensures View() == Release(old(View()), session)
    {
      if session in mapping {
        DecrementSessionCount(mapping[session]);
        mapping := mapping - {session};
      }
    }

    /** The first half of createSession: pick an engine and write the session row. */
    method BeginCreate(tenant: Id, order: seq<Id>) returns (choice: Choice, session: Id)
      requires Lists(order, engines.Keys)
      modifies `rows, `inFlight, `nextSession
      ensures choice == LeastLoaded(engines, order) && session == old(nextSession)
      ensures View() == Step(old(View()), Pick(tenant, order))
    {
      assert forall e :: e in order ==> e in Elements(order);
      session := nextSession;
      choice := GetLeastLoadedInstance(order);
      if choice.Chosen? {
        rows := rows[session := SessionRow(tenant, choice.engine)];
        inFlight := inFlight[session := choice.engine];
        nextSession := nextSession + 1;
      }
    }

    /** The second half, once the engine has answered; created says whether the caller gets the session. */
    method FinishCreate(session: Id, outcome: Outcome) returns (created: bool)
      requires session in inFlight
      modifies `engines, `mapping, `rows, `inFlight
      ensures created == (outcome.Assigned? && session in old(rows))
      ensures View() == Step(old(View()), Settle(session, outcome))
    {
      var e := inFlight[session];
      inFlight := inFlight - {session};
      created := false;
      if outcome.EngineRefused? {
        rows := rows - {session};
      } else if session in rows {
        if outcome.MappingFailed? {
          rows := rows - {session};
        } else {
          mapping := mapping[session := e];
          if outcome.CountFailed? {
            rows := rows - {session};
          } else {
            IncrementSessionCount(e);
            created := true;
          }
        }
      }
    }

    method CreateSession(tenant: Id, order: seq<Id>, outcome: Outcome) returns (created: bool, session: Id)
      requires Lists(order, engines.Keys) && nextSession !in inFlight
      modifies this
      ensures View() == RunCall(old(View()), Create(tenant, order, outcome))
    {
      var choice;
      choice, session := BeginCreate(tenant, order);
      if !choice.Chosen? { return false, session; }
      created := FinishCreate(session, outcome);
    }

    method DeleteSession(tenant: Id, session: Id) returns (found: bool)
      modifies `engines, `mapping, `rows
      ensures found == (session in old(rows) && old(rows)[session].tenant == tenant)
      ensures View() == Step(old(View()), Delete(tenant, session))
    {
      if session !in rows || rows[session].tenant != tenant { return false; }
      ReleaseSessionFromInstance(session);
      rows := rows - {session};
      found := true;
    }
  }
}
