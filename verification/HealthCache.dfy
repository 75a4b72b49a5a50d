/**
The placement cache of one node's health. The store's transactions, the read a
registration makes and the session it publishes, and the views that transactions
hand back to be applied are all separate steps, so a session can show a state
the store has left behind.
 */
module HealthCache {
  import opened Common
  import opened HealthTables
  import opened Placement

  /** A node state as read from the store, with the revision of the row it was read from. */
  datatype Seen = Seen(state: NodeState, revision: nat)

  /**
  `states` holds the stored state after each revision of the node's row, `written`
  the revision whose state the session shows. A view is one revision's result: on
  its way, applied (to a session or to none), or lost.
   */
  datatype World = World(
    tables: Tables, states: seq<NodeState>, session: Option<Session>, written: nat,
    readings: map<nat, Seen>, views: map<nat, NodeState>, applied: set<nat>, lost: set<nat>)

  function Revision(w: World): nat { if w.states == [] then 0 else |w.states| - 1 }

  /** The transaction writes the node's row and hands back a view of it. */
  predicate Writes(s: Tables, op: Op, s': Tables, agent: AgentId) {
    match op
    case Record(e, _, _) => agent in ToRescore(s, e, IsConfirmed(s', e.key))
    case Grant(_) => false
    case Consume(_) => false
    case SetQuarantine(a, on, _) => a == agent && MaySetQuarantine(s, a, on)
  }

  datatype Action =
    | Transact(op: Op, tables: Tables)
    | Read(id: nat)
    | Publish(id: nat, hello: Session)
    | Deliver(revision: nat)
    | Lose(revision: nat)
    | Remove
    | Touch(touched: Session)
    | Reserve(request: Request, excluded: set<AgentId>)
    | Restart

  ghost predicate Enabled(w: World, agent: AgentId, act: Action) {
    match act
    case Transact(op, tables) => Step(w.tables, op, tables)
    case Read(id) => id !in w.readings
    case Publish(id, _) => id in w.readings
    case Deliver(k) => k in w.views
    case Lose(k) => k in w.views
    case Remove => true
    case Touch(touched) => w.session.Some? && touched.health == w.session.value.health
    case Reserve(request, excluded) => w.session.Some? && Eligible(agent, w.session.value, request, excluded)
    case Restart => true
  }

  /** A new revision of the node's row, and the view of it. */
  function Wrote(w: World, tables: Tables, state: NodeState): World {
    w.(tables := tables, states := w.states + [state], views := w.views[|w.states| := state])
  }

  ghost function Apply(w: World, agent: AgentId, act: Action): World
    requires Enabled(w, agent, act)
  {
    match act
    case Transact(op, tables) =>
      if Writes(w.tables, op, tables, agent) then Wrote(w, tables, StateOf(tables, agent)) else w.(tables := tables)
    case Read(id) => w.(readings := w.readings[id := Seen(StateOf(w.tables, agent), Revision(w))])
    case Publish(id, hello) =>
      w.(session := Some(hello.(health := w.readings[id].state)), written := w.readings[id].revision, readings := w.readings - {id})
    case Deliver(k) =>
      var w' := w.(views := w.views - {k}, applied := w.applied + {k});
      if w.session.Some? then w'.(session := Some(w.session.value.(health := w.views[k])), written := k) else w'
    case Lose(k) => w.(views := w.views - {k}, lost := w.lost + {k})
    case Remove => w.(session := None)
    case Touch(touched) => w.(session := Some(touched))
    case Reserve(_, _) => w.(session := Some(w.session.value.(running := w.session.value.running + 1)))
    case Restart => w.(session := None, readings := map[], views := map[], lost := w.lost + w.views.Keys)
  }

  ghost predicate Init(w: World, agent: AgentId) {
    && w.states == [StateOf(w.tables, agent)] && w.session == None && w.readings == map[] && w.views == map[]
    && w.applied == {} && w.lost == {}
  }

  ghost predicate IsCacheRun(worlds: seq<World>, agent: AgentId, acts: seq<Action>) {
    && |worlds| == |acts| + 1 && Init(worlds[0], agent)
    && forall i :: 0 <= i < |acts| ==> Enabled(worlds[i], agent, acts[i]) && worlds[i + 1] == Apply(worlds[i], agent, acts[i])
  }

  // ----- the invariant -----

  /** Everything in flight or shown is what the store held at its revision. */
  ghost predicate Truthful(w: World, agent: AgentId) {
    && w.states != [] && w.states[Revision(w)] == StateOf(w.tables, agent)
    && (forall id :: id in w.readings ==> w.readings[id].revision < |w.states| && w.readings[id].state == w.states[w.readings[id].revision])
    && (forall k :: k in w.views ==> k < |w.states| && w.views[k] == w.states[k])
    && (w.session.Some? ==> w.written < |w.states| && w.session.value.health == w.states[w.written])
  }

  /** A view of the revision has been handed back. */
  predicate Produced(w: World, k: nat) { k in w.views || k in w.applied || k in w.lost }

  ghost predicate Accounted(w: World, k: nat) { 0 < k <= Revision(w) <==> Produced(w, k) }

  lemma UnwrittenKeepsState(s: Tables, op: Op, s': Tables, agent: AgentId)
    requires Step(s, op, s') && !Writes(s, op, s', agent)
    ensures StateOf(s', agent) == StateOf(s, agent)
  {
  }

  lemma WroteKeepsTruth(w: World, agent: AgentId, tables: Tables)
    requires Truthful(w, agent)
    ensures Truthful(Wrote(w, tables, StateOf(tables, agent)), agent)
  {
    var states := w.states + [StateOf(tables, agent)];
    assert forall k :: 0 <= k < |w.states| ==> states[k] == w.states[k];
  }

  lemma StepKeepsTruth(w: World, agent: AgentId, act: Action)
    requires Truthful(w, agent) && Enabled(w, agent, act)
    ensures Truthful(Apply(w, agent, act), agent)
  {
    if act.Transact? {
      if Writes(w.tables, act.op, act.tables, agent) {
        WroteKeepsTruth(w, agent, act.tables);
      } else {
        UnwrittenKeepsState(w.tables, act.op, act.tables, agent);
      }
    }
  }

  lemma WroteKeepsAccount(w: World, tables: Tables, state: NodeState, k: nat)
    requires w.states != [] && Accounted(w, k)
    ensures Accounted(Wrote(w, tables, state), k)
  {
  }

  lemma ViewKeepsAccount(w: World, agent: AgentId, act: Action, k: nat)
    requires Enabled(w, agent, act) && (act.Deliver? || act.Lose? || act.Restart?) && Accounted(w, k)
    ensures Accounted(Apply(w, agent, act), k)
  {
    assert Produced(Apply(w, agent, act), k) <==> Produced(w, k);
  }

  lemma StepKeepsAccount(w: World, agent: AgentId, act: Action, k: nat)
    requires w.states != [] && Enabled(w, agent, act) && Accounted(w, k)
    ensures Accounted(Apply(w, agent, act), k)
  {
    if act.Transact? {
      WroteKeepsAccount(w, act.tables, StateOf(act.tables, agent), k);
    } else if act.Deliver? || act.Lose? || act.Restart? {
      ViewKeepsAccount(w, agent, act, k);
    }
  }

  ghost predicate Good(w: World, agent: AgentId) {
    Truthful(w, agent) && forall k :: Accounted(w, k)
  }

  lemma {:induction false} RunStaysGood(worlds: seq<World>, agent: AgentId, acts: seq<Action>, n: nat)
    requires IsCacheRun(worlds, agent, acts) && n <= |acts|
    ensures Good(worlds[n], agent)
  {
    if n > 0 {
      RunStaysGood(worlds, agent, acts, n - 1);
      assert worlds[n - 1 + 1] == Apply(worlds[n - 1], agent, acts[n - 1]);
      StepKeepsTruth(worlds[n - 1], agent, acts[n - 1]);
      forall k ensures Accounted(worlds[n], k) {
        assert Accounted(worlds[n - 1], k);
        StepKeepsAccount(worlds[n - 1], agent, acts[n - 1], k);
      }
    }
  }

  // ----- when a reservation agrees with the store -----

  /** What the process would have to observe in applying views and publishing sessions. */
  datatype Rule = InOrder | NotEarly | NotLost

  /** Views are applied in the order of their revisions; none newer than a reading comes before its publication; none is lost. */
  ghost predicate Follows(w: World, act: Action, rule: Rule) {
    match rule
    case InOrder => act.Deliver? ==> forall k :: k in w.applied ==> k < act.revision
    case NotEarly => act.Publish? && act.id in w.readings ==> forall k :: k in w.applied ==> k <= w.readings[act.id].revision
    case NotLost => !act.Lose?
  }

  ghost predicate Keeps(worlds: seq<World>, acts: seq<Action>, rule: Rule) {
    |acts| <= |worlds| && forall i :: 0 <= i < |acts| ==> Follows(worlds[i], acts[i], rule)
  }

  ghost predicate Orderly(worlds: seq<World>, acts: seq<Action>) { forall rule :: Keeps(worlds, acts, rule) }

  /** Whatever was applied or lost is no newer than what the session shows, what was read, or what is on its way. */
  ghost predicate Settled(w: World) {
    && (w.session.Some? ==> forall k :: k in w.applied || k in w.lost ==> k <= w.written)
    && (forall id, k :: id in w.readings && k in w.lost ==> k <= w.readings[id].revision)
    && (forall v, k :: v in w.views && k in w.lost ==> k < v)
  }

  lemma WroteStaysSettled(w: World, agent: AgentId, tables: Tables, state: NodeState)
    requires Good(w, agent) && Settled(w)
    ensures Settled(Wrote(w, tables, state))
  {
    forall k | k in w.lost ensures k < |w.states| {
      assert Accounted(w, k);
    }
  }

  lemma ReadStaysSettled(w: World, agent: AgentId, id: nat)
    requires Good(w, agent) && Settled(w) && Enabled(w, agent, Read(id))
    ensures Settled(Apply(w, agent, Read(id)))
  {
    forall k | k in w.lost ensures k <= Revision(w) {
      assert Accounted(w, k);
    }
  }

  lemma StepKeepsSettled(w: World, agent: AgentId, act: Action)
    requires Good(w, agent) && Settled(w) && Enabled(w, agent, act) && forall rule :: Follows(w, act, rule)
    ensures Settled(Apply(w, agent, act))
  {
    assert Follows(w, act, InOrder) && Follows(w, act, NotEarly) && Follows(w, act, NotLost);
    if act.Transact? {
      WroteStaysSettled(w, agent, act.tables, StateOf(act.tables, agent));
    } else if act.Read? {
      ReadStaysSettled(w, agent, act.id);
    }
  }

  lemma {:induction false} OrderlyStaysSettled(worlds: seq<World>, agent: AgentId, acts: seq<Action>, n: nat)
    requires IsCacheRun(worlds, agent, acts) && Orderly(worlds, acts) && n <= |acts|
    ensures Settled(worlds[n])
  {
    if n > 0 {
      OrderlyStaysSettled(worlds, agent, acts, n - 1);
      RunStaysGood(worlds, agent, acts, n - 1);
      var w, act := worlds[n - 1], acts[n - 1];
      assert Enabled(w, agent, act) && worlds[n - 1 + 1] == Apply(w, agent, act);
      forall rule ensures Follows(w, act, rule) {
        assert Keeps(worlds, acts, rule);
      }
      StepKeepsSettled(w, agent, act);
    }
  }

  lemma SettledShowsNewest(w: World, agent: AgentId)
    requires Good(w, agent) && Settled(w) && w.session.Some?
    ensures w.written == Revision(w) <==> forall k :: k in w.views ==> k <= w.written
    ensures w.written < Revision(w) ==> Revision(w) in w.views
  {
    if 0 < Revision(w) {
      assert Accounted(w, Revision(w));
      assert Produced(w, Revision(w));
    }
    forall k | k in w.views ensures k <= Revision(w) {
      assert Accounted(w, k);
    }
  }

  /**
  In every run that keeps the three rules, a session shows the newest revision of
  the node's row if and only if no newer view is on its way; with none on its way
  it shows the stored state.
   */
  lemma OrderlySessionIsCurrentExactlyWhen(worlds: seq<World>, agent: AgentId, acts: seq<Action>, n: nat)
    requires IsCacheRun(worlds, agent, acts) && Orderly(worlds, acts) && n <= |acts| && worlds[n].session.Some?
    ensures var w := worlds[n];
            && (w.written == Revision(w) <==> forall k :: k in w.views ==> k <= w.written)
            && (w.views == map[] ==> w.session.value.health == StateOf(w.tables, agent))
  {
    RunStaysGood(worlds, agent, acts, n);
    OrderlyStaysSettled(worlds, agent, acts, n);
    SettledShowsNewest(worlds[n], agent);
  }

  /**
  In every such run, a reservation made with no view on its way lands on no node
  the store holds quarantined, and takes a node on probation to one task.
   */
  lemma ReservationRespectsStore(worlds: seq<World>, agent: AgentId, acts: seq<Action>, n: nat)
    requires IsCacheRun(worlds, agent, acts) && Orderly(worlds, acts) && n < |acts| && acts[n].Reserve?
    requires worlds[n].views == map[]
    ensures !Quarantined(StateOf(worlds[n].tables, agent)) && worlds[n].session.Some? && worlds[n + 1].session.Some?
    ensures StateOf(worlds[n].tables, agent) == Probation ==> worlds[n + 1].session.value.running == 1
    ensures worlds[n + 1].session.value.running <= worlds[n].session.value.capacity
  {
    assert Enabled(worlds[n], agent, acts[n]) && worlds[n + 1] == Apply(worlds[n], agent, acts[n]);
    OrderlySessionIsCurrentExactlyWhen(worlds, agent, acts, n);
    EligibleByShownHealth(agent, worlds[n].session.value, acts[n].request, acts[n].excluded);
  }

  /** In every such run a quarantined node is reserved only while the view of its newest revision is on its way. */
  lemma QuarantinedReservationAwaitsItsView(worlds: seq<World>, agent: AgentId, acts: seq<Action>, n: nat)
    requires IsCacheRun(worlds, agent, acts) && Orderly(worlds, acts) && n < |acts| && acts[n].Reserve?
    requires Quarantined(StateOf(worlds[n].tables, agent))
    ensures Revision(worlds[n]) in worlds[n].views
  {
    assert Enabled(worlds[n], agent, acts[n]) && worlds[n + 1] == Apply(worlds[n], agent, acts[n]);
    RunStaysGood(worlds, agent, acts, n);
    OrderlyStaysSettled(worlds, agent, acts, n);
    SettledShowsNewest(worlds[n], agent);
    EligibleByShownHealth(agent, worlds[n].session.value, acts[n].request, acts[n].excluded);
  }

  /** In any run a reserved node was not quarantined at the revision shown; a stored quarantine is newer. */
  lemma ReservedNodeWasOnceFree(worlds: seq<World>, agent: AgentId, acts: seq<Action>, n: nat)
    requires IsCacheRun(worlds, agent, acts) && n < |acts| && acts[n].Reserve?
    ensures var w := worlds[n];
            && w.written < |w.states| && !Quarantined(w.states[w.written])
            && (Quarantined(StateOf(w.tables, agent)) ==> w.written < Revision(w))
  {
    assert Enabled(worlds[n], agent, acts[n]) && worlds[n + 1] == Apply(worlds[n], agent, acts[n]);
    RunStaysGood(worlds, agent, acts, n);
    EligibleByShownHealth(agent, worlds[n].session.value, acts[n].request, acts[n].excluded);
  }

  // ----- without one of the rules, or with a view on its way -----

  const NODE: AgentId := "n"
  const FREE := Tables([], map[], map[])
  const HELD := Tables([], map[], map["n" := NodeRow(ManualQuarantined, 0)])
  const TRIED := Tables([], map[], map["n" := NodeRow(Probation, 0)])
  const QUARANTINE := Transact(SetQuarantine(NODE, true, 0), HELD)
  const RESET := Transact(SetQuarantine(NODE, false, 0), TRIED)
  const HELLO := Session(0, true, map[], 1, 0, 0, Healthy, 0, {}, {})
  const PLACE := Reserve(Request(map[], {}), {})

  function Start(tables: Tables): World { World(tables, [StateOf(tables, NODE)], None, 0, map[], map[], {}, {}) }

  /** A run that ends by reserving the node while the store holds it quarantined. */
  ghost predicate ReservesQuarantined(worlds: seq<World>, acts: seq<Action>) {
    && IsCacheRun(worlds, NODE, acts) && acts != [] && acts[|acts| - 1] == PLACE
    && Quarantined(StateOf(worlds[|acts| - 1].tables, NODE))
  }

  /** It does so with no view on its way, and keeps the other two rules. */
  ghost predicate ShowsNeedOf(rule: Rule, worlds: seq<World>, acts: seq<Action>) {
    && ReservesQuarantined(worlds, acts) && worlds[|acts| - 1].views == map[]
    && forall other :: other != rule ==> Keeps(worlds, acts, other)
  }

  lemma AdministratorSteps()
    ensures Step(FREE, SetQuarantine(NODE, true, 0), HELD) && Writes(FREE, SetQuarantine(NODE, true, 0), HELD, NODE)
    ensures Step(HELD, SetQuarantine(NODE, false, 0), TRIED) && Writes(HELD, SetQuarantine(NODE, false, 0), TRIED, NODE)
    ensures Step(TRIED, SetQuarantine(NODE, true, 0), HELD) && Writes(TRIED, SetQuarantine(NODE, true, 0), HELD, NODE)
    ensures StateOf(FREE, NODE) == Healthy && StateOf(HELD, NODE) == ManualQuarantined && StateOf(TRIED, NODE) == Probation
  {
    assert HELD.nodes == FREE.nodes[NODE := NodeRow(ManualQuarantined, 0)];
    assert TRIED.nodes == HELD.nodes[NODE := NodeRow(Probation, 0)];
    assert HELD.nodes == TRIED.nodes[NODE := NodeRow(ManualQuarantined, 0)];
  }

  /** A registration reads the node healthy; the quarantine is stored and its view applied to no session; the session is published. */
  lemma EarlyViewReserves() returns (worlds: seq<World>, acts: seq<Action>)
    ensures ShowsNeedOf(NotEarly, worlds, acts)
  {
    AdministratorSteps();
    var w0 := Start(FREE);
    var w1 := Apply(w0, NODE, Read(0));
    var w2 := Apply(w1, NODE, QUARANTINE);
    var w3 := Apply(w2, NODE, Deliver(1));
    var w4 := Apply(w3, NODE, Publish(0, HELLO));
    assert Eligible(NODE, w4.session.value, Request(map[], {}), {});
    var w5 := Apply(w4, NODE, PLACE);
    acts := [Read(0), QUARANTINE, Deliver(1), Publish(0, HELLO), PLACE];
    worlds := [w0, w1, w2, w3, w4, w5];
  }

  /** The request that stored the quarantine is dropped before it applies the view: nothing is left to correct the session. */
  lemma LostViewReserves() returns (worlds: seq<World>, acts: seq<Action>)
    ensures ShowsNeedOf(NotLost, worlds, acts)
  {
    AdministratorSteps();
    var w0 := Start(FREE);
    var w1 := Apply(w0, NODE, Read(0));
    var w2 := Apply(w1, NODE, Publish(0, HELLO));
    var w3 := Apply(w2, NODE, QUARANTINE);
    var w4 := Apply(w3, NODE, Lose(1));
    assert Eligible(NODE, w4.session.value, Request(map[], {}), {});
    var w5 := Apply(w4, NODE, PLACE);
    acts := [Read(0), Publish(0, HELLO), QUARANTINE, Lose(1), PLACE];
    worlds := [w0, w1, w2, w3, w4, w5];
  }

  /** A chain of steps, one longer. */
  lemma ChainExtends(step: (World, Action, World) -> bool, worlds: seq<World>, acts: seq<Action>, act: Action, w: World)
    requires |worlds| == |acts| + 1 && step(worlds[|acts|], act, w)
    requires forall i :: 0 <= i < |acts| ==> step(worlds[i], acts[i], worlds[i + 1])
    ensures var worlds', acts' := worlds + [w], acts + [act];
            forall i :: 0 <= i < |acts'| ==> step(worlds'[i], acts'[i], worlds'[i + 1])
  {
    var worlds', acts' := worlds + [w], acts + [act];
    forall i | 0 <= i < |acts'| ensures step(worlds'[i], acts'[i], worlds'[i + 1]) {
      if i < |acts| {
        assert worlds'[i] == worlds[i] && worlds'[i + 1] == worlds[i + 1] && acts'[i] == acts[i];
      }
    }
  }

  ghost function OneStep(): (World, Action, World) -> bool {
    (w, act, w') => Enabled(w, NODE, act) && w' == Apply(w, NODE, act)
  }

  lemma ExtendRun(worlds: seq<World>, acts: seq<Action>, act: Action, w: World)
    requires IsCacheRun(worlds, NODE, acts) && Enabled(worlds[|acts|], NODE, act) && w == Apply(worlds[|acts|], NODE, act)
    ensures IsCacheRun(worlds + [w], NODE, acts + [act])
  {
    ChainExtends(OneStep(), worlds, acts, act, w);
    var worlds', acts' := worlds + [w], acts + [act];
    assert worlds'[0] == worlds[0];
    forall i | 0 <= i < |acts'| ensures Enabled(worlds'[i], NODE, acts'[i]) && worlds'[i + 1] == Apply(worlds'[i], NODE, acts'[i]) {
      assert OneStep()(worlds'[i], acts'[i], worlds'[i + 1]);
    }
  }

  lemma ExtendKeeps(worlds: seq<World>, acts: seq<Action>, act: Action, w: World, rule: Rule)
    requires |worlds| == |acts| + 1 && Keeps(worlds, acts, rule) && Follows(worlds[|acts|], act, rule)
    ensures Keeps(worlds + [w], acts + [act], rule)
  {
    var worlds', acts' := worlds + [w], acts + [act];
    forall i | 0 <= i < |acts'| ensures Follows(worlds'[i], acts'[i], rule) {
      if i < |acts| {
        assert worlds'[i] == worlds[i] && acts'[i] == acts[i];
        assert Follows(worlds[i], acts[i], rule);
      }
    }
  }

  /** One more step of a run. */
  lemma Extend(worlds: seq<World>, acts: seq<Action>, act: Action) returns (worlds': seq<World>, acts': seq<Action>)
    requires IsCacheRun(worlds, NODE, acts) && Enabled(worlds[|acts|], NODE, act)
    ensures worlds' == worlds + [Apply(worlds[|acts|], NODE, act)] && acts' == acts + [act]
    ensures IsCacheRun(worlds', NODE, acts')
    ensures forall rule :: Keeps(worlds, acts, rule) && Follows(worlds[|acts|], act, rule) ==> Keeps(worlds', acts', rule)
  {
    var w := Apply(worlds[|acts|], NODE, act);
    worlds', acts' := worlds + [w], acts + [act];
    ExtendRun(worlds, acts, act, w);
    forall rule | Keeps(worlds, acts, rule) && Follows(worlds[|acts|], act, rule) ensures Keeps(worlds', acts', rule) {
      ExtendKeeps(worlds, acts, act, w, rule);
    }
  }

  /** A session of a quarantined node, with the views of a reset and of a second quarantine on their way. */
  function TwoViews(): World {
    World(HELD, [ManualQuarantined, Probation, ManualQuarantined], Some(HELLO.(health := ManualQuarantined)), 0, map[],
          map[1 := Probation, 2 := ManualQuarantined], {}, {})
  }

  lemma ResetAndQuarantine() returns (worlds: seq<World>, acts: seq<Action>)
    ensures IsCacheRun(worlds, NODE, acts) && worlds[|acts|] == TwoViews() && Orderly(worlds, acts)
  {
    AdministratorSteps();
    var w0 := Start(HELD);
    var w1 := Apply(w0, NODE, Read(0));
    var w2 := Apply(w1, NODE, Publish(0, HELLO));
    var w3 := Apply(w2, NODE, RESET);
    var w4 := Apply(w3, NODE, QUARANTINE);
    acts := [Read(0), Publish(0, HELLO), RESET, QUARANTINE];
    worlds := [w0, w1, w2, w3, w4];
    assert w4.views == TwoViews().views;
  }

  lemma SecondViewFirst()
    ensures var w := TwoViews();
            && Enabled(w, NODE, Deliver(2))
            && var w' := Apply(w, NODE, Deliver(2));
            && Enabled(w', NODE, Deliver(1))
            && var w'' := Apply(w', NODE, Deliver(1));
            && Enabled(w'', NODE, PLACE) && w''.views == map[] && Quarantined(StateOf(w''.tables, NODE))
  {
    AdministratorSteps();
    var w' := Apply(TwoViews(), NODE, Deliver(2));
    var w'' := Apply(w', NODE, Deliver(1));
    assert Eligible(NODE, w''.session.value, Request(map[], {}), {});
  }

  /** A quarantined node is reset and quarantined again, and the two views are applied the other way round. */
  lemma DisorderedViewsReserve() returns (worlds: seq<World>, acts: seq<Action>)
    ensures ShowsNeedOf(InOrder, worlds, acts)
  {
    worlds, acts := ResetAndQuarantine();
    SecondViewFirst();
    worlds, acts := Extend(worlds, acts, Deliver(2));
    worlds, acts := Extend(worlds, acts, Deliver(1));
    worlds, acts := Extend(worlds, acts, PLACE);
  }

  /** All rules kept: the node is reserved between the stored quarantine and the application of its view. */
  lemma OutstandingViewReserves() returns (worlds: seq<World>, acts: seq<Action>)
    ensures ReservesQuarantined(worlds, acts) && Orderly(worlds, acts)
  {
    AdministratorSteps();
    var w0 := Start(FREE);
    var w1 := Apply(w0, NODE, Read(0));
    var w2 := Apply(w1, NODE, Publish(0, HELLO));
    var w3 := Apply(w2, NODE, QUARANTINE);
    assert Eligible(NODE, w3.session.value, Request(map[], {}), {});
    var w4 := Apply(w3, NODE, PLACE);
    acts := [Read(0), Publish(0, HELLO), QUARANTINE, PLACE];
    worlds := [w0, w1, w2, w3, w4];
  }
}
