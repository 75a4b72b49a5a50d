/**
The coordinator's connections of one agent: the gate they share, the session
table entry they replace and remove, and the settings documents it is built
from. Entries of different agents do not touch each other.
 */
module Connections {
  import opened Common
  import opened Placement

  type ConnId = nat
  type GateId = nat

  datatype Settings = Settings(enabled: bool, labels: map<string, string>, capacity: nat)

  const PLACEHOLDER := Settings(false, map[], 0)

  function SettingsOf(s: Session): Settings { Settings(s.enabled, s.labels, s.capacity) }

  /** The store's side: every document ever desired, the revisions the agent ever acknowledged. */
  datatype Documents = Documents(history: map<nat, Settings>, latest: nat, applied: nat, acked: set<nat>)

  /** Where a connection's task is. */
  datatype Pc =
    | Opening
    | Registering(desired: nat, document: Settings, applied: nat)
    | Streaming
    | Waiting
    | Handling
    | Acking(outcome: Option<(nat, Settings)>)
    | Closing
    | Pruning
    | Leaving

  datatype Conn = Conn(gate: GateId, pc: Pc)

  /** A side effect, with the connection that was current when it happened. */
  datatype Effect = Effect(actor: ConnId, current: Option<ConnId>)

  datatype World = World(
    registered: Option<GateId>, nextGate: GateId, nextConn: ConnId, conns: map<ConnId, Conn>, held: map<GateId, ConnId>,
    session: Option<Session>, documents: Documents, effects: seq<Effect>)

  function Current(w: World): Option<ConnId> { if w.session.Some? then Some(w.session.value.connection) else None }

  // ----- settings -----

  /** upsert_agent: the first registration creates revision 1 from what the agent declares. */
  function Upserted(d: Documents, declared: Settings): Documents {
    if d.latest == 0 then d.(history := d.history[1 := declared], latest := 1) else d
  }

  /** update_settings: a new revision; older documents are never changed. */
  function Updated(d: Documents, document: Settings): Documents {
    if d.latest == 0 then d else d.(history := d.history[d.latest + 1 := document], latest := d.latest + 1)
  }

  predicate AckApplies(d: Documents, revision: nat) { 0 < revision == d.latest && d.applied <= revision }

  /** settings_applied: only the desired revision advances, and never backwards. */
  function Acked(d: Documents, revision: nat, accepted: bool): Documents {
    if accepted && AckApplies(d, revision) then d.(applied := revision, acked := d.acked + {revision}) else d
  }

  function AckOutcome(d: Documents, revision: nat, accepted: bool): Option<(nat, Settings)> {
    if accepted && AckApplies(d, revision) && revision in d.history then Some((revision, d.history[revision])) else None
  }

  function ReconnectPlacement(desired: nat, document: Settings, applied: nat, previous: Option<Session>): Settings {
    if previous.Some? && previous.value.revision == applied then SettingsOf(previous.value)
    else if applied == desired then document
    else PLACEHOLDER
  }

  function WithSettings(s: Session, settings: Settings, revision: nat): Session {
    s.(enabled := settings.enabled, labels := settings.labels, capacity := settings.capacity, revision := revision)
  }

  // ----- gates -----

  predicate Free(w: World, g: GateId) { g !in w.held }

  function HoldersOf(w: World, g: GateId): set<ConnId> { set c | c in w.conns && w.conns[c].gate == g }

  /** References to the gate: one per connection, and one in the map. */
  function StrongCount(w: World, g: GateId): nat { |HoldersOf(w, g)| + if w.registered == Some(g) then 1 else 0 }

  function Goto(w: World, c: ConnId, pc: Pc): World
    requires c in w.conns
  {
    w.(conns := w.conns[c := w.conns[c].(pc := pc)])
  }

  function Locked(w: World, c: ConnId): World
    requires c in w.conns
  {
    w.(held := w.held[w.conns[c].gate := c])
  }

  function Unlocked(w: World, c: ConnId): World
    requires c in w.conns
  {
    w.(held := w.held - {w.conns[c].gate})
  }

  function Noted(w: World, c: ConnId): World { w.(effects := w.effects + [Effect(c, Current(w))]) }

  // ----- steps -----

  datatype Action =
    | Open
    | Register(c: ConnId, declared: Settings)
    | Publish(c: ConnId, hello: Session)
    | Abort(c: ConnId)
    | Receive(c: ConnId)
    | Enter(c: ConnId)
    | Act(c: ConnId)
    | Ack(c: ConnId, revision: nat, accepted: bool)
    | ApplyAck(c: ConnId)
    | Done(c: ConnId, ok: bool)
    | Close(c: ConnId)
    | Teardown(c: ConnId)
    | Prune(c: ConnId)
    | Leave(c: ConnId)
    | Update(document: Settings)
    | Touch(touched: Session)
    | Restart

  predicate At(w: World, c: ConnId, pc: Pc) { c in w.conns && w.conns[c].pc == pc }

  predicate Enabled(w: World, act: Action) {
    match act
    case Open => true
    case Register(c, _) => At(w, c, Opening) && Free(w, w.conns[c].gate)
    case Publish(c, hello) => c in w.conns && w.conns[c].pc.Registering? && hello.connection == c
    case Abort(c) => c in w.conns && (w.conns[c].pc.Opening? || w.conns[c].pc.Registering?)
    case Receive(c) => At(w, c, Streaming)
    case Enter(c) => At(w, c, Waiting) && Free(w, w.conns[c].gate)
    case Act(c) => At(w, c, Handling)
    case Ack(c, _, _) => At(w, c, Handling)
    case ApplyAck(c) => c in w.conns && w.conns[c].pc.Acking?
    case Done(c, _) => At(w, c, Handling)
    case Close(c) => At(w, c, Streaming)
    case Teardown(c) => At(w, c, Closing) && Free(w, w.conns[c].gate)
    case Prune(c) => At(w, c, Pruning)
    case Leave(c) => At(w, c, Leaving)
    case Update(_) => true
    case Touch(touched) => w.session.Some? && touched.connection == w.session.value.connection
                           && SettingsOf(touched) == SettingsOf(w.session.value) && touched.revision == w.session.value.revision
    case Restart => true
  }

  function Apply(w: World, act: Action): World
    requires Enabled(w, act)
  {
    match act
    case Open =>
      var gate := if w.registered.Some? then w.registered.value else w.nextGate;
      w.(registered := Some(gate), nextGate := Max(w.nextGate, gate + 1), nextConn := w.nextConn + 1,
         conns := w.conns[w.nextConn := Conn(gate, Opening)])
    case Register(c, declared) =>
      var d := Upserted(w.documents, declared);
      var document := if d.latest in d.history then d.history[d.latest] else PLACEHOLDER;
      Goto(Locked(w, c), c, Registering(d.latest, document, d.applied)).(documents := d)
    case Publish(c, hello) =>
      var pc := w.conns[c].pc;
      var placed := WithSettings(hello, ReconnectPlacement(pc.desired, pc.document, pc.applied, w.session), pc.applied);
      Goto(Unlocked(w, c), c, Streaming).(session := Some(placed))
    case Abort(c) =>
      var w' := if w.conns[c].pc.Registering? then Unlocked(w, c) else w;
      w'.(conns := w.conns - {c})
    case Receive(c) => Goto(w, c, if Current(w) == Some(c) then Waiting else Closing)
    case Enter(c) => if Current(w) == Some(c) then Goto(Locked(w, c), c, Handling) else Goto(w, c, Closing)
    case Act(c) => Noted(w, c)
    case Ack(c, revision, accepted) =>
      Goto(Noted(w, c), c, Acking(AckOutcome(w.documents, revision, accepted)))
        .(documents := Acked(w.documents, revision, accepted))
    case ApplyAck(c) =>
      var outcome := w.conns[c].pc.outcome;
      var w' := Goto(Noted(w, c), c, Handling);
      if outcome.Some? && Current(w) == Some(c)
      then w'.(session := Some(WithSettings(w.session.value, outcome.value.1, outcome.value.0)))
      else w'
    case Done(c, ok) => Goto(Unlocked(w, c), c, if ok then Streaming else Closing)
    case Close(c) => Goto(w, c, Closing)
    case Teardown(c) => Goto(Locked(w, c), c, Pruning).(session := if Current(w) == Some(c) then None else w.session)
    case Prune(c) =>
      var gate := w.conns[c].gate;
      var removable := w.registered == Some(gate) && StrongCount(w, gate) == 2;
      Goto(w, c, Leaving).(registered := if removable then None else w.registered)
    case Leave(c) => Unlocked(w, c).(conns := w.conns - {c})
    case Update(document) => w.(documents := Updated(w.documents, document))
    case Touch(touched) => w.(session := Some(touched))
    case Restart => w.(registered := None, conns := map[], held := map[], session := None)
  }

  predicate Init(w: World) {
    && w.registered == None && w.conns == map[] && w.held == map[] && w.session == None && w.effects == []
    && w.documents == Documents(map[], 0, 0, {})
  }

  ghost predicate IsConnectionRun(worlds: seq<World>, acts: seq<Action>) {
    && |worlds| == |acts| + 1 && Init(worlds[0])
    && forall i :: 0 <= i < |acts| ==> Enabled(worlds[i], acts[i]) && worlds[i + 1] == Apply(worlds[i], acts[i])
  }
}
