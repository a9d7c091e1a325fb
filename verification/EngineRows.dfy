// Engine allocation read row by row: which events change a session row, its
// mapping and an engine's counter, and to what.

module EngineRows {
  import opened Common
  import opened EngineRegistry

  // The event creates a session on this engine: a usable one of least load, found when it is picked.
  ghost predicate CreatesOn(s: State, ev: Event, e: Id) {
    && ev.Pick? && Lists(ev.order, s.engines.Keys) && e in s.engines
    && s.engines[e].isHealthy && s.engines[e].activeSessions < s.engines[e].maxSessions
    && forall d ::
         d in s.engines && s.engines[d].isHealthy && s.engines[d].activeSessions < s.engines[d].maxSessions ==>
         s.engines[e].activeSessions * s.engines[d].maxSessions <=
           s.engines[d].activeSessions * s.engines[e].maxSessions
  }

  ghost predicate SomeUsable(engines: map<Id, Instance>) {
    exists e :: e in engines && engines[e].isHealthy && engines[e].activeSessions < engines[e].maxSessions
  }

  ghost predicate Picks(s: State, ev: Event) {
    ev.Pick? && Lists(ev.order, s.engines.Keys) && SomeUsable(s.engines)
  }

  // The tenant's own deletion of the session.
  ghost predicate Deletes(s: State, ev: Event, k: Id) {
    ev.Delete? && ev.session == k && k in s.rows && s.rows[k].tenant == ev.tenant
  }

  // The engine's answer to the creation of the session.
  ghost predicate Settles(s: State, ev: Event, k: Id) {
    ev.Settle? && ev.session == k && k in s.inFlight
  }

  lemma PickFacts(s: State, tenant: Id, order: seq<Id>)
    requires Lists(order, s.engines.Keys)
    ensures forall e :: e in order ==> e in s.engines
    ensures LeastLoaded(s.engines, order).Chosen? <==> SomeUsable(s.engines)
    ensures LeastLoaded(s.engines, order).Chosen? ==>
              CreatesOn(s, Pick(tenant, order), LeastLoaded(s.engines, order).engine)
  {
    assert forall e :: e in order ==> e in Elements(order);
    PickMinimisesLoad(s.engines, order);
  }

  // A session row is written when an engine is picked, for the caller's tenant, and goes when its
  // tenant deletes it or its creation fails; nothing ever changes it.
  lemma SessionRowMoves(s: State, ev: Event, k: Id)
    requires Inv(s)
    ensures k in Step(s, ev).rows <==>
              (k in s.rows && !Deletes(s, ev, k) && !(Settles(s, ev, k) && !ev.outcome.Assigned?)) ||
              (k == s.nextSession && Picks(s, ev))
    ensures k in Step(s, ev).rows && k in s.rows ==> Step(s, ev).rows[k] == s.rows[k]
    ensures k in Step(s, ev).rows && k !in s.rows ==>
              Step(s, ev).rows[k].tenant == ev.tenant && CreatesOn(s, ev, Step(s, ev).rows[k].engine)
  {
    if ev.Pick? && Lists(ev.order, s.engines.Keys) { PickFacts(s, ev.tenant, ev.order); }
  }

  // A mapping is written when the creation of a session that still has its row is answered well, to the
  // engine it was picked for, and goes when it expires or the session is deleted.
  lemma MappingMoves(s: State, ev: Event, k: Id)
    requires Inv(s)
    ensures k in Step(s, ev).mapping <==>
              (k in s.mapping && !Deletes(s, ev, k) && !(ev.MappingExpires? && ev.session == k)) ||
              (Settles(s, ev, k) && k in s.rows && (ev.outcome.Assigned? || ev.outcome.CountFailed?))
    ensures k in Step(s, ev).mapping ==>
              Step(s, ev).mapping[k] == if k in s.mapping then s.mapping[k] else s.inFlight[k]
  {
  }

  // A creation is in flight from its pick to its answer.
  lemma CreationMoves(s: State, ev: Event, k: Id)
    requires Inv(s)
    ensures k in Step(s, ev).inFlight <==>
              (k in s.inFlight && !Settles(s, ev, k)) || (k == s.nextSession && Picks(s, ev))
    ensures k in Step(s, ev).inFlight && k in s.inFlight ==> Step(s, ev).inFlight[k] == s.inFlight[k]
    ensures k in Step(s, ev).inFlight && k !in s.inFlight ==>
              k in Step(s, ev).rows && Step(s, ev).inFlight[k] == Step(s, ev).rows[k].engine
  {
    if ev.Pick? && Lists(ev.order, s.engines.Keys) { PickFacts(s, ev.tenant, ev.order); }
  }

  // What an event leaves of an engine's record: a registration starts it again at no sessions, a
  // creation that goes through counts one session more, up to the maximum, the deletion of a session
  // mapped to it one less, down to none, and nothing else counts.
  ghost predicate EngineAfter(s: State, ev: Event, e: Id, after: Instance) {
    if ev.Register? && ev.engine == e then after == Instance(ev.maxSessions, 0, true)
    else
      e in s.engines &&
      var before := s.engines[e];
      after.maxSessions == before.maxSessions &&
      after.isHealthy == (before.isHealthy || (ev.Heartbeat? && ev.engine == e)) &&
      if ev.Settle? && Settles(s, ev, ev.session) && ev.outcome.Assigned? && ev.session in s.rows &&
           s.inFlight[ev.session] == e
      then after.activeSessions ==
             (if before.activeSessions < before.maxSessions then before.activeSessions + 1 else before.maxSessions)
      else if ev.Delete? && Deletes(s, ev, ev.session) && ev.session in s.mapping && s.mapping[ev.session] == e
      then after.activeSessions == if before.activeSessions == 0 then 0 else before.activeSessions - 1
      else after.activeSessions == before.activeSessions
  }

  lemma EngineMoves(s: State, ev: Event, e: Id)
    requires Inv(s)
    ensures e in Step(s, ev).engines <==>
              (e in s.engines && !((ev.Deregister? || ev.EngineExpires?) && ev.engine == e)) ||
              (ev.Register? && ev.engine == e)
    ensures e in Step(s, ev).engines ==> EngineAfter(s, ev, e, Step(s, ev).engines[e])
  {
  }

  // A session whose creation is over stays, with its tenant and its engine, until that tenant deletes
  // it, whatever other tenants delete and whatever happens to the engines.
  lemma {:induction false} SessionStays(s: State, evs: seq<Event>, k: Id)
    requires Inv(s) && k in s.rows && k !in s.inFlight
    requires forall i :: 0 <= i < |evs| ==> evs[i] != Delete(s.rows[k].tenant, k)
    ensures var r := Exec(s, evs); Inv(r) && k in r.rows && k !in r.inFlight && r.rows[k] == s.rows[k]
  {
    if evs != [] {
      var r, ev := Exec(s, evs[..|evs| - 1]), evs[|evs| - 1];
      SessionStays(s, evs[..|evs| - 1], k);
      StepKeepsInv(r, ev);
      SessionRowMoves(r, ev, k);
      CreationMoves(r, ev, k);
      assert ev != Delete(s.rows[k].tenant, k);
      if ev.Delete? && ev.session == k { assert ev == Delete(ev.tenant, k); }
    }
  }
}
