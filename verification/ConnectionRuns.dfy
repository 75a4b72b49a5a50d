/**
Over every interleaving of an agent's connections: messages act only through the
current connection, the gate is never duplicated, and placement sees only
settings the agent has acknowledged.
 */
module ConnectionRuns {
  import opened Common
  import opened HealthTables
  import opened Placement
  import opened Connections

  predicate Holds(pc: Pc) {
    pc.Registering? || pc.Handling? || pc.Acking? || pc.Pruning? || pc.Leaving?
  }

  predicate Published(pc: Pc) {
    pc.Streaming? || pc.Waiting? || pc.Handling? || pc.Acking? || pc.Closing?
  }

  ghost predicate ConnOk(w: World, c: ConnId) {
    && (c in w.conns ==>
          var conn := w.conns[c];
          && c < w.nextConn && conn.gate < w.nextGate
          && (conn.pc != Leaving ==> w.registered == Some(conn.gate))
          && (Holds(conn.pc) <==> conn.gate in w.held && w.held[conn.gate] == c)
          && (conn.pc.Handling? || conn.pc.Acking? ==> Current(w) == Some(c)))
    && (Current(w) == Some(c) ==> c in w.conns && Published(w.conns[c].pc))
  }

  ghost predicate GateOk(w: World, g: GateId) {
    && (w.registered == Some(g) ==> g < w.nextGate)
    && (g in w.held ==> g < w.nextGate && w.held[g] in w.conns && w.conns[w.held[g]].gate == g)
  }

  ghost predicate EffectsOk(w: World) {
    forall i :: 0 <= i < |w.effects| ==> w.effects[i].current == Some(w.effects[i].actor)
  }

  ghost predicate Good(w: World) {
    EffectsOk(w) && (forall g :: GateOk(w, g)) && (forall c :: ConnOk(w, c))
  }

  /** Where the gate has two references, its only connection is the one that asks. */
  lemma LoneHolder(w: World, c: ConnId, g: GateId)
    requires w.registered == Some(g) && StrongCount(w, g) == 2 && c in HoldersOf(w, g)
    ensures HoldersOf(w, g) == {c}
  {
    SubsetSize({c}, HoldersOf(w, g));
  }

  predicate HasActor(act: Action) { !(act.Open? || act.Update? || act.Touch? || act.Restart?) }

  predicate Acting(act: Action) { act.Receive? || act.Enter? || act.Act? || act.Ack? || act.ApplyAck? || act.Done? }

  lemma ActingKeepsConn(w: World, act: Action, c: ConnId)
    requires Enabled(w, act) && Acting(act) && ConnOk(w, c) && ConnOk(w, act.c)
    ensures ConnOk(Apply(w, act), c)
  {
  }

  lemma PruneKeepsConn(w: World, p: ConnId, c: ConnId)
    requires Enabled(w, Prune(p)) && ConnOk(w, c) && ConnOk(w, p)
    ensures ConnOk(Apply(w, Prune(p)), c)
  {
    var g := w.conns[p].gate;
    if w.registered == Some(g) && StrongCount(w, g) == 2 {
      assert p in HoldersOf(w, g);
      LoneHolder(w, p, g);
      assert c in w.conns && c != p ==> c !in HoldersOf(w, g);
    }
  }

  lemma ComingAndGoingKeepsConn(w: World, act: Action, c: ConnId)
    requires Enabled(w, act) && HasActor(act) && !Acting(act) && !act.Prune? && ConnOk(w, c) && ConnOk(w, act.c)
    ensures ConnOk(Apply(w, act), c)
  {
  }

  lemma OpenKeepsConn(w: World, c: ConnId)
    requires ConnOk(w, c) && GateOk(w, w.nextGate) && (w.registered.Some? ==> GateOk(w, w.registered.value))
    requires ConnOk(w, w.nextConn) && forall g :: g in w.held ==> ConnOk(w, w.held[g]) && GateOk(w, g)
    ensures ConnOk(Apply(w, Open), c)
  {
  }

  lemma RestKeepsConn(w: World, act: Action, c: ConnId)
    requires Enabled(w, act) && !HasActor(act) && !act.Open? && ConnOk(w, c)
    ensures ConnOk(Apply(w, act), c)
  {
  }

  lemma StepKeepsConn(w: World, act: Action, c: ConnId)
    requires Enabled(w, act) && Good(w)
    ensures ConnOk(Apply(w, act), c)
  {
    if HasActor(act) {
      assert ConnOk(w, act.c);
      if Acting(act) {
        ActingKeepsConn(w, act, c);
      } else if act.Prune? {
        PruneKeepsConn(w, act.c, c);
      } else {
        ComingAndGoingKeepsConn(w, act, c);
      }
    } else if act.Open? {
      OpenKeepsConn(w, c);
    } else {
      RestKeepsConn(w, act, c);
    }
  }

  lemma ActorKeepsGate(w: World, act: Action, g: GateId)
    requires Enabled(w, act) && HasActor(act) && GateOk(w, g) && ConnOk(w, act.c)
    requires g in w.held ==> ConnOk(w, w.held[g])
    ensures GateOk(Apply(w, act), g)
  {
  }

  lemma StepKeepsGate(w: World, act: Action, g: GateId)
    requires Enabled(w, act) && GateOk(w, g) && (HasActor(act) ==> ConnOk(w, act.c))
    requires w.registered.Some? ==> GateOk(w, w.registered.value)
    requires g in w.held ==> ConnOk(w, w.held[g])
    ensures GateOk(Apply(w, act), g)
  {
    if HasActor(act) {
      ActorKeepsGate(w, act, g);
    }
  }

  lemma StepKeepsEffects(w: World, act: Action)
    requires Enabled(w, act) && EffectsOk(w) && (HasActor(act) ==> ConnOk(w, act.c))
    ensures EffectsOk(Apply(w, act))
  {
  }

  lemma StepKeepsGood(w: World, act: Action)
    requires Good(w) && Enabled(w, act)
    ensures Good(Apply(w, act))
  {
    assert HasActor(act) ==> ConnOk(w, act.c);
    assert w.registered.Some? ==> GateOk(w, w.registered.value);
    StepKeepsEffects(w, act);
    forall g ensures GateOk(Apply(w, act), g) {
      assert g in w.held ==> ConnOk(w, w.held[g]);
      StepKeepsGate(w, act, g);
    }
    forall c ensures ConnOk(Apply(w, act), c) {
      StepKeepsConn(w, act, c);
    }
  }

  lemma {:induction false} RunStaysGood(worlds: seq<World>, acts: seq<Action>, n: nat)
    requires IsConnectionRun(worlds, acts) && n <= |acts|
    ensures Good(worlds[n])
  {
    if n > 0 {
      RunStaysGood(worlds, acts, n - 1);
      assert worlds[n - 1 + 1] == Apply(worlds[n - 1], acts[n - 1]);
      StepKeepsGood(worlds[n - 1], acts[n - 1]);
    }
  }

  /** Every side effect of a message was made by the connection that was the agent's session at that moment. */
  lemma EffectsComeFromTheCurrentConnection(worlds: seq<World>, acts: seq<Action>, n: nat, i: nat)
    requires IsConnectionRun(worlds, acts) && n <= |acts| && i < |worlds[n].effects|
    ensures worlds[n].effects[i].current == Some(worlds[n].effects[i].actor)
  {
    RunStaysGood(worlds, acts, n);
  }

  /** Connections that can still act share one gate, and only one of them is inside it. */
  lemma OneGatePerAgent(worlds: seq<World>, acts: seq<Action>, n: nat, c: ConnId, d: ConnId)
    requires IsConnectionRun(worlds, acts) && n <= |acts|
    requires c in worlds[n].conns && d in worlds[n].conns
    requires worlds[n].conns[c].pc != Leaving && worlds[n].conns[d].pc != Leaving
    ensures worlds[n].conns[c].gate == worlds[n].conns[d].gate
    ensures Holds(worlds[n].conns[c].pc) && Holds(worlds[n].conns[d].pc) ==> c == d
  {
    RunStaysGood(worlds, acts, n);
    assert ConnOk(worlds[n], c) && ConnOk(worlds[n], d);
  }

  // ----- settings -----

  ghost predicate Proven(d: Documents, revision: nat, settings: Settings) {
    revision in d.acked && revision in d.history && settings == d.history[revision]
  }

  ghost predicate DocumentsOk(d: Documents) {
    && (forall r :: r in d.history <==> 0 < r <= d.latest)
    && (forall r :: r in d.acked ==> r in d.history)
    && (d.applied == 0 || d.applied in d.acked)
  }

  ghost predicate SessionOk(s: Session, d: Documents) {
    SettingsOf(s) == PLACEHOLDER || Proven(d, s.revision, SettingsOf(s))
  }

  ghost predicate PcOk(pc: Pc, d: Documents) {
    && (pc.Registering? ==>
          && pc.desired in d.history && d.history[pc.desired] == pc.document && 0 < pc.desired
          && (pc.applied == 0 || pc.applied in d.acked))
    && (pc.Acking? && pc.outcome.Some? ==> Proven(d, pc.outcome.value.0, pc.outcome.value.1))
  }

  /** Documents are only added, and acknowledgements only accumulate. */
  ghost predicate Extends(d: Documents, d': Documents) {
    && (forall r :: r in d.history ==> r in d'.history && d'.history[r] == d.history[r])
    && d.acked <= d'.acked
  }

  lemma StepDocuments(w: World, act: Action)
    requires Enabled(w, act) && DocumentsOk(w.documents)
    ensures DocumentsOk(Apply(w, act).documents) && Extends(w.documents, Apply(w, act).documents)
  {
  }

  lemma PcStaysOk(pc: Pc, d: Documents, d': Documents)
    requires PcOk(pc, d) && Extends(d, d')
    ensures PcOk(pc, d')
  {
  }

  lemma RegisterKeepsPc(w: World, act: Action, c: ConnId)
    requires Enabled(w, act) && act.Register? && act.c == c && DocumentsOk(w.documents)
    ensures PcOk(Apply(w, act).conns[c].pc, Apply(w, act).documents)
  {
  }

  lemma AckKeepsPc(w: World, act: Action, c: ConnId)
    requires Enabled(w, act) && act.Ack? && act.c == c && DocumentsOk(w.documents)
    ensures PcOk(Apply(w, act).conns[c].pc, Apply(w, act).documents)
  {
  }

  /** Any other step leaves the place of a connection alone or moves it where nothing is remembered. */
  lemma OthersKeepPc(w: World, act: Action, c: ConnId)
    requires Enabled(w, act) && c in Apply(w, act).conns && !((act.Register? || act.Ack?) && act.c == c)
    ensures var pc := Apply(w, act).conns[c].pc;
            (c in w.conns && pc == w.conns[c].pc) || !(pc.Registering? || pc.Acking?)
  {
  }

  lemma StepKeepsPc(w: World, act: Action, c: ConnId)
    requires Enabled(w, act) && DocumentsOk(w.documents) && (c in w.conns ==> PcOk(w.conns[c].pc, w.documents))
    ensures c in Apply(w, act).conns ==> PcOk(Apply(w, act).conns[c].pc, Apply(w, act).documents)
  {
    if c in Apply(w, act).conns {
      if act.Register? && act.c == c {
        RegisterKeepsPc(w, act, c);
      } else if act.Ack? && act.c == c {
        AckKeepsPc(w, act, c);
      } else {
        OthersKeepPc(w, act, c);
        StepDocuments(w, act);
        if c in w.conns {
          PcStaysOk(w.conns[c].pc, w.documents, Apply(w, act).documents);
        }
      }
    }
  }

  lemma StepKeepsSession(w: World, act: Action)
    requires Enabled(w, act) && DocumentsOk(w.documents) && (w.session.Some? ==> SessionOk(w.session.value, w.documents))
    requires HasActor(act) && act.c in w.conns ==> PcOk(w.conns[act.c].pc, w.documents)
    ensures Apply(w, act).session.Some? ==> SessionOk(Apply(w, act).session.value, Apply(w, act).documents)
  {
    StepDocuments(w, act);
  }

  ghost predicate Grounded(w: World) {
    && DocumentsOk(w.documents)
    && (w.session.Some? ==> SessionOk(w.session.value, w.documents))
    && forall c :: c in w.conns ==> PcOk(w.conns[c].pc, w.documents)
  }

  lemma StepKeepsGrounded(w: World, act: Action)
    requires Grounded(w) && Enabled(w, act)
    ensures Grounded(Apply(w, act))
  {
    StepDocuments(w, act);
    StepKeepsSession(w, act);
    forall c | c in Apply(w, act).conns ensures PcOk(Apply(w, act).conns[c].pc, Apply(w, act).documents) {
      StepKeepsPc(w, act, c);
    }
  }

  /**
  In every reachable state the session shows the document of the revision it
  records, and the agent acknowledged that revision, or it is the disabled
  placeholder without capacity.
   */
  lemma {:induction false} SessionsShowAcknowledgedSettings(worlds: seq<World>, acts: seq<Action>, n: nat)
    requires IsConnectionRun(worlds, acts) && n <= |acts|
    ensures Grounded(worlds[n])
  {
    if n > 0 {
      SessionsShowAcknowledgedSettings(worlds, acts, n - 1);
      assert worlds[n - 1 + 1] == Apply(worlds[n - 1], acts[n - 1]);
      StepKeepsGrounded(worlds[n - 1], acts[n - 1]);
    }
  }

  /** Whatever placement may reserve runs under settings the agent acknowledged. */
  lemma PlacementUsesAcknowledgedSettings(worlds: seq<World>, acts: seq<Action>, n: nat,
                                          id: AgentId, request: Request, excluded: set<AgentId>)
    requires IsConnectionRun(worlds, acts) && n <= |acts| && worlds[n].session.Some?
    requires Eligible(id, worlds[n].session.value, request, excluded)
    ensures var s, d := worlds[n].session.value, worlds[n].documents;
            Proven(d, s.revision, SettingsOf(s))
  {
    SessionsShowAcknowledgedSettings(worlds, acts, n);
  }
}
