/**
Placement: which connected agent gets the next run. Utilisation is the exact
quotient of running work and capacity.
 */
module Placement {
  import opened Common
  import opened HealthTables
  import Dispatch

  datatype Source = Environment | SecretFile

  datatype Binding = Binding(source: Source, name: string)

  /** The part of an execution snapshot that placement looks at. */
  datatype Request = Request(labels: map<string, string>, bindings: set<Binding>)

  datatype Session = Session(
    connection: nat, enabled: bool, labels: map<string, string>, capacity: nat, revision: nat, running: nat,
    health: NodeState, lastAssigned: int, environment: set<string>, secretFiles: set<string>)

  predicate AcceptsNewWork(h: NodeState) { h == Healthy || h == Suspect || h == Probation }

  function CapacityLimit(h: NodeState): Option<nat> { if h == Probation then Some(1) else None }

  function EffectiveCapacity(s: Session): nat {
    match CapacityLimit(s.health)
    case None => s.capacity
    case Some(limit) => Min(s.capacity, limit)
  }

  predicate Supports(s: Session, b: Binding) {
    match b.source
    case Environment => b.name in s.environment
    case SecretFile => b.name in s.secretFiles
  }

  predicate Eligible(id: AgentId, s: Session, request: Request, excluded: set<AgentId>) {
    && s.enabled && id !in excluded && AcceptsNewWork(s.health) && s.running < EffectiveCapacity(s)
    && (forall k :: k in request.labels ==> k in s.labels && s.labels[k] == request.labels[k])
    && (forall b :: b in request.bindings ==> Supports(s, b))
  }

  // ----- the order of candidates -----

  function Utilisation(s: Session): real { s.running as real / Max(s.capacity, 1) as real }

  predicate IdBefore(a: string, b: string) {
    if a == [] then true
    else if b == [] then false
    else a[0] < b[0] || (a[0] == b[0] && IdBefore(a[1..], b[1..]))
  }

  predicate NoWorse(a: AgentId, s: Session, b: AgentId, t: Session) {
    || Utilisation(s) < Utilisation(t)
    || (&& Utilisation(s) == Utilisation(t)
        && (s.lastAssigned < t.lastAssigned || (s.lastAssigned == t.lastAssigned && IdBefore(a, b))))
  }

  lemma {:induction false} IdOrderIsTotal(a: string, b: string)
    ensures IdBefore(a, b) || IdBefore(b, a)
    ensures IdBefore(a, b) && IdBefore(b, a) ==> a == b
  {
    if a != [] && b != [] {
      IdOrderIsTotal(a[1..], b[1..]);
      assert a == [a[0]] + a[1..] && b == [b[0]] + b[1..];
    }
  }

  lemma {:induction false} IdOrderIsTransitive(a: string, b: string, c: string)
    requires IdBefore(a, b) && IdBefore(b, c)
    ensures IdBefore(a, c)
  {
    if a != [] && a[0] == b[0] == c[0] {
      IdOrderIsTransitive(a[1..], b[1..], c[1..]);
    }
  }

  lemma NoWorseIsTransitive(a: AgentId, s: Session, b: AgentId, t: Session, c: AgentId, u: Session)
    requires NoWorse(a, s, b, t) && NoWorse(b, t, c, u)
    ensures NoWorse(a, s, c, u)
  {
    if IdBefore(a, b) && IdBefore(b, c) {
      IdOrderIsTransitive(a, b, c);
    }
  }

  /** The agent placement must choose. */
  ghost predicate IsBest(id: AgentId, sessions: map<AgentId, Session>, request: Request, excluded: set<AgentId>) {
    && id in sessions && Eligible(id, sessions[id], request, excluded)
    && forall other :: other in sessions && Eligible(other, sessions[other], request, excluded) ==>
                         NoWorse(id, sessions[id], other, sessions[other])
  }

  /** The choice does not depend on the order in which the session table is walked. */
  lemma BestIsUnique(a: AgentId, b: AgentId, sessions: map<AgentId, Session>, request: Request, excluded: set<AgentId>)
    requires IsBest(a, sessions, request, excluded) && IsBest(b, sessions, request, excluded)
    ensures a == b
  {
    IdOrderIsTotal(a, b);
  }

  /** Judged by the health its session shows, an eligible node is not quarantined, and on probation it is idle. */
  lemma EligibleByShownHealth(id: AgentId, s: Session, request: Request, excluded: set<AgentId>)
    requires Eligible(id, s, request, excluded)
    ensures s.enabled && !Quarantined(s.health) && s.running < s.capacity && (s.health == Probation ==> s.running == 0)
  {
  }

  class Sessions {
    var sessions: map<AgentId, Session>

    constructor ()
      ensures sessions == map[]
    {
      sessions := map[];
    }

    method Best(request: Request, excluded: set<AgentId>) returns (best: Option<AgentId>)
      ensures best.Some? ==> IsBest(best.value, sessions, request, excluded)
      ensures best.None? ==> forall id :: id in sessions ==> !Eligible(id, sessions[id], request, excluded)
    {
      var todo := sessions.Keys;
      best := None;
      while todo != {}
        invariant todo <= sessions.Keys
        invariant best.None? ==> forall id :: id in sessions.Keys - todo ==> !Eligible(id, sessions[id], request, excluded)
        invariant best.Some? ==> best.value in sessions && Eligible(best.value, sessions[best.value], request, excluded)
        invariant best.Some? ==>
                    forall id :: id in sessions.Keys - todo && Eligible(id, sessions[id], request, excluded) ==>
                                   NoWorse(best.value, sessions[best.value], id, sessions[id])
        decreases |todo|
      {
        var id :| id in todo;
        if Eligible(id, sessions[id], request, excluded) {
          best := Better(best, id, request, excluded, sessions.Keys - todo);
        }
        todo := todo - {id};
      }
    }

    /** Keeps the better of the best so far and one more candidate. */
    method Better(best: Option<AgentId>, id: AgentId, request: Request, excluded: set<AgentId>, ghost seen: set<AgentId>)
      returns (r: Option<AgentId>)
      requires seen <= sessions.Keys && id in sessions && Eligible(id, sessions[id], request, excluded)
      requires best.None? ==> forall a :: a in seen ==> !Eligible(a, sessions[a], request, excluded)
      requires best.Some? ==> best.value in sessions && Eligible(best.value, sessions[best.value], request, excluded)
      requires best.Some? ==> forall a :: a in seen && Eligible(a, sessions[a], request, excluded) ==>
                                            NoWorse(best.value, sessions[best.value], a, sessions[a])
      ensures r.Some? && r.value in sessions && Eligible(r.value, sessions[r.value], request, excluded)
      ensures forall a :: a in seen + {id} && Eligible(a, sessions[a], request, excluded) ==>
                            NoWorse(r.value, sessions[r.value], a, sessions[a])
    {
      IdOrderIsTotal(id, id);
      if best.None? {
        return Some(id);
      }
      IdOrderIsTotal(best.value, id);
      if NoWorse(best.value, sessions[best.value], id, sessions[id]) {
        return best;
      }
      forall a | a in seen && Eligible(a, sessions[a], request, excluded)
        ensures NoWorse(id, sessions[id], a, sessions[a])
      {
        NoWorseIsTransitive(id, sessions[id], best.value, sessions[best.value], a, sessions[a]);
      }
      return Some(id);
    }

    method ReserveAvoiding(request: Request, excluded: set<AgentId>, now: int) returns (r: Option<AgentId>)
      modifies this
      ensures r.Some? ==>
                && IsBest(r.value, old(sessions), request, excluded)
                && var s := old(sessions)[r.value];
                   sessions == old(sessions)[r.value := s.(running := s.running + 1, lastAssigned := now)]
      ensures r.None? ==>
                && sessions == old(sessions)
                && forall id :: id in sessions ==> !Eligible(id, sessions[id], request, excluded)
    {
      r := Best(request, excluded);
      if r.Some? {
        var s := sessions[r.value];
        sessions := sessions[r.value := s.(running := s.running + 1, lastAssigned := now)];
      }
    }

    method Release(id: AgentId)
      modifies this
      ensures id !in old(sessions) ==> sessions == old(sessions)
      ensures id in old(sessions) ==>
                sessions == old(sessions)[id := old(sessions)[id].(running := Max(old(sessions)[id].running - 1, 0))]
    {
      if id in sessions {
        var s := sessions[id];
        sessions := sessions[id := s.(running := if s.running == 0 then 0 else s.running - 1)];
      }
    }

    method UpdateHealth(id: AgentId, health: NodeState)
      modifies this
      ensures id !in old(sessions) ==> sessions == old(sessions)
      ensures id in old(sessions) ==> sessions == old(sessions)[id := old(sessions)[id].(health := health)]
    {
      if id in sessions {
        sessions := sessions[id := sessions[id].(health := health)];
      }
    }

    /** The choice inside dispatch_run: avoid the suspects, and fall back to them only where that is allowed. */
    method ReserveForRun(request: Request, avoided: set<AgentId>, alternative: bool, now: int) returns (r: Option<AgentId>)
      modifies this
      ensures r.Some? ==>
                && Dispatch.MayReserve(avoided, alternative, r.value)
                && r.value in old(sessions) && Eligible(r.value, old(sessions)[r.value], request, {})
                && (r.value in avoided ==>
                      forall id :: id in old(sessions) ==> !Eligible(id, old(sessions)[id], request, avoided))
      ensures r.None? ==>
                forall id :: id in sessions && Eligible(id, sessions[id], request, {}) ==> id in avoided && alternative
    {
      r := ReserveAvoiding(request, avoided, now);
      if r.None? && avoided != {} && !alternative {
        r := ReserveAvoiding(request, {}, now);
      }
      forall id | id in sessions && Eligible(id, sessions[id], request, {})
        ensures r.None? ==> id in avoided && alternative
      {
        assert id !in avoided ==> Eligible(id, sessions[id], request, avoided);
      }
    }
  }
}
