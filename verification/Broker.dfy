/**
 * One session of the agent-surface broker (src/server/agentSurfaceBroker.ts)
 * as a step system. Every `await` inside the handling of a host event is a
 * yield point: hellos, socket closes, subscriptions and further host frames
 * may come between the segments.
 */
module Broker {
  import opened Common

  type Socket = nat
  type SurfaceId = string
  type HostSocket = nat
  /** A host connection object, by the order of creation. */
  type HostId = nat
  /** A producer cursor object, by the order of creation. */
  type ProducerId = nat

  datatype Kind = AssistantDelta | ToolOutputDelta | SessionInfo | OtherKind

  /** `bytes` is the length of the event's JSON encoding. */
  datatype Event = Event(seqNo: int, kind: Kind, agentSessionId: string, bytes: nat)

  datatype Producer = Producer(generation: int, provider: string, instance: string)

  datatype Spawn = Spawn(producer: Producer, pid: int)

  /** `bound` remembers the first provider session id the host ever held. */
  datatype Host = Host(ws: HostSocket, spawn: Spawn, producer: ProducerId, providerSession: Option<string>, bound: Option<string>)

  datatype Authorization = Authorization(producer: ProducerId, providerSession: string)

  datatype Subscription = Subscription(surface: SurfaceId, visible: bool)

  /** `index` numbers accepted events; it is not part of the wire frame. */
  datatype Frame =
    | Ready
    | Snapshot(surface: SurfaceId, lastSeq: int, events: seq<Event>)
    | EventFrame(event: Event, index: nat)
    | Exit

  datatype Stage = AwaitingBind | AwaitingCompletion | AwaitingRetirement

  datatype Pipeline = Idle | Busy(host: HostId, event: Event, stage: Stage)

  datatype Queued = Queued(host: HostId, event: Event)

  /** An accepted event, with the number of the spawn it was accepted under. */
  datatype Accepted = Accepted(epoch: nat, host: HostId, event: Event)

  datatype Limits = Limits(ringSize: nat, ringMaxBytes: nat)

  /** The session object, the sockets' outboxes, and two histories: the spawns
      that said hello one after another, and the events accepted so far. */
  datatype Session = Session(
    host: Option<HostId>, hosts: seq<Host>, lastPid: Option<int>,
    producer: Option<ProducerId>, producers: seq<Producer>,
    authorized: Option<Authorization>,
    clients: map<Socket, seq<Subscription>>,
    ring: seq<Event>, ringBytes: nat, lastSeq: int,
    queue: seq<Queued>, pipeline: Pipeline,
    open: set<Socket>, sent: map<Socket, seq<Frame>>,
    spawns: seq<Spawn>, log: seq<Accepted>)

  const NewSession := Session(None, [], None, None, [], None, map[], [], 0, 0, [], Idle, {}, map[], [], [])

  // ---- Events and the ring ----

  predicate IsTransient(e: Event) { e.kind == AssistantDelta || e.kind == ToolOutputDelta }

  predicate NamesSession(e: Event) { e.kind == SessionInfo && e.agentSessionId != "" }

  predicate Keeps(limits: Limits, e: Event) { !IsTransient(e) && e.bytes <= limits.ringMaxBytes }

  function TotalBytes(events: seq<Event>): nat {
    if events == [] then 0 else events[0].bytes + TotalBytes(events[1..])
  }

  predicate Fits(limits: Limits, events: seq<Event>) {
    |events| <= limits.ringSize && TotalBytes(events) <= limits.ringMaxBytes
  }

  /** The longest suffix that fits both limits. */
  function LongestFit(limits: Limits, events: seq<Event>): seq<Event> {
    if Fits(limits, events) then events else LongestFit(limits, events[1..])
  }

  function Retain(limits: Limits, s: Session, e: Event): Session {
    if !Keeps(limits, e) then s.(lastSeq := e.seqNo) else
      var ring := LongestFit(limits, s.ring + [e]);
      s.(lastSeq := e.seqNo, ring := ring, ringBytes := TotalBytes(ring))
  }

  // ---- Sockets ----

  /** What one socket is sent, if it is still open. */
  function Deliver(s: Session, ws: Socket, frames: seq<Frame>): seq<Frame>
    requires ws in s.sent
  {
    if ws in s.open then s.sent[ws] + frames else s.sent[ws]
  }

  /** The same frame rule applied to every subscribed socket. */
  function Broadcast(s: Session, frames: seq<Subscription> -> seq<Frame>): Session {
    s.(sent := map ws | ws in s.sent :: if ws in s.clients then Deliver(s, ws, frames(s.clients[ws])) else s.sent[ws])
  }

  function SnapshotFor(s: Session, surface: SurfaceId): Frame { Snapshot(surface, s.lastSeq, s.ring) }

  function Snapshots(s: Session, subs: seq<Subscription>): seq<Frame> {
    if subs == [] then [] else [SnapshotFor(s, subs[0].surface)] + Snapshots(s, subs[1..])
  }

  predicate SomeVisible(subs: seq<Subscription>) {
    exists i :: 0 <= i < |subs| && subs[i].visible
  }

  /** At most one frame per socket: transient events need a visible surface. */
  function EventFrames(e: Event, index: nat, subs: seq<Subscription>): seq<Frame> {
    if subs != [] && (!IsTransient(e) || SomeVisible(subs)) then [EventFrame(e, index)] else []
  }

  function FanOut(s: Session, e: Event, index: nat): Session {
    Broadcast(s, subs => EventFrames(e, index, subs))
  }

  // ---- The host connection ----

  function Epoch(s: Session): nat { if s.spawns == [] then 0 else |s.spawns| - 1 }

  /** What the durable store says when a hello asks for the binding. */
  datatype Binding = Unavailable | Bound(provider: string, providerSession: Option<string>)

  predicate ChangedSpawn(s: Session, spawn: Spawn)
    requires s.producer.Some? ==> s.producer.value < |s.producers|
  {
    s.producer.Some? && (s.producers[s.producer.value] != spawn.producer || s.lastPid != Some(spawn.pid))
  }

  /** A different spawn empties the ring and tells every surface so. */
  function ResetForSpawn(s: Session): Session {
    var cleared := s.(ring := [], ringBytes := 0, lastSeq := 0, authorized := None);
    Broadcast(cleared, subs => Snapshots(cleared, subs))
  }

  /** The producer object is reused exactly when generation, provider and instance are unchanged. */
  function TakeProducer(s: Session, p: Producer): Session
    requires s.producer.Some? ==> s.producer.value < |s.producers|
  {
    if s.producer.Some? && s.producers[s.producer.value] == p then s
    else s.(producer := Some(|s.producers|), producers := s.producers + [p])
  }

  /** An identity authorized for this very producer object, else the durable binding. */
  function KnownIdentity(s: Session, provider: string, binding: Binding): Option<string> {
    if s.authorized.Some? && s.producer == Some(s.authorized.value.producer) then Some(s.authorized.value.providerSession)
    else if binding.Bound? && binding.provider == provider then binding.providerSession
    else None
  }

  /** The pid and, for another spawn than the last, a fresh ring. */
  function EnterEpoch(s: Session, spawn: Spawn): Session
    requires s.producer.Some? ==> s.producer.value < |s.producers|
  {
    var changed := ChangedSpawn(s, spawn);
    var s1 := if changed then ResetForSpawn(s) else s;
    s1.(lastPid := Some(spawn.pid), spawns := if changed || s.producer.None? then s.spawns + [spawn] else s.spawns)
  }

  function Hello(s: Session, ws: HostSocket, spawn: Spawn, binding: Binding): Session
    requires s.producer.Some? ==> s.producer.value < |s.producers|
  {
    var s2 := TakeProducer(EnterEpoch(s, spawn), spawn.producer);
    var id := KnownIdentity(s2, spawn.producer.provider, binding);
    s2.(authorized := if id.Some? then Some(Authorization(s2.producer.value, id.value)) else s2.authorized,
        host := Some(|s.hosts|),
        hosts := s.hosts + [Host(ws, spawn, s2.producer.value, id, id)])
  }

  /** A frame of a host that is not the current one is ignored. */
  function HostFrame(s: Session, host: HostId, e: Event): Session {
    if s.host != Some(host) then s else s.(queue := s.queue + [Queued(host, e)])
  }

  function SetProviderSession(s: Session, host: HostId, id: Option<string>): Session
    requires host < |s.hosts|
  {
    var h := s.hosts[host];
    s.(hosts := s.hosts[host := h.(providerSession := id, bound := if h.bound.None? then id else h.bound)])
  }

  function Reject(s: Session, host: HostId): Session
    requires host < |s.hosts|
  {
    var s1 := if s.authorized.Some? && s.authorized.value.producer == s.hosts[host].producer
              then s.(authorized := None) else s;
    var s2 := SetProviderSession(s1, host, None);
    if s.host == Some(host) then s2.(host := None) else s2
  }

  /** Retention, then delivery; the event is now accepted. */
  function Commit(limits: Limits, s: Session, host: HostId, e: Event): Session {
    var kept := Retain(limits, s, e);
    FanOut(kept, e, |s.log|).(log := s.log + [Accepted(Epoch(s), host, e)])
  }

  /** The first segment of an event, up to its first await. */
  function BeginEvent(limits: Limits, s: Session, host: HostId, e: Event): Session
    requires host < |s.hosts|
  {
    var known := s.hosts[host].providerSession;
    if s.host != Some(host) || e.seqNo <= s.lastSeq then s
    else if e.kind == SessionInfo && !NamesSession(e) && known.Some? then s
    else if NamesSession(e) then
      if known.Some? && known.value != e.agentSessionId
      then Reject(s, host).(pipeline := Busy(host, e, AwaitingRetirement))
      else s.(pipeline := Busy(host, e, AwaitingBind))
    else Commit(limits, s, host, e)
  }

  /** The queue hands over one event at a time. */
  function NextEvent(limits: Limits, s: Session): Session
    requires forall i :: 0 <= i < |s.queue| ==> s.queue[i].host < |s.hosts|
  {
    if s.pipeline != Idle || s.queue == [] then s
    else BeginEvent(limits, s.(queue := s.queue[1..]), s.queue[0].host, s.queue[0].event)
  }

  /** The durable bind settled: accepted, or refused (a throw counts as refused). */
  function BindSettled(s: Session, accepted: bool): Session
    requires s.pipeline.Busy? ==> s.pipeline.host < |s.hosts|
  {
    if !(s.pipeline.Busy? && s.pipeline.stage == AwaitingBind) then s
    else if !accepted then Reject(s, s.pipeline.host).(pipeline := s.pipeline.(stage := AwaitingRetirement))
    else if s.host != Some(s.pipeline.host) then s.(pipeline := Idle)
    else s.(pipeline := s.pipeline.(stage := AwaitingCompletion))
  }

  /** The launch authorization settled. */
  function CompletionSettled(limits: Limits, s: Session, accepted: bool): Session
    requires s.pipeline.Busy? ==> s.pipeline.host < |s.hosts|
  {
    if !(s.pipeline.Busy? && s.pipeline.stage == AwaitingCompletion) then s
    else
      var host, e := s.pipeline.host, s.pipeline.event;
      if !accepted then Reject(s, host).(pipeline := s.pipeline.(stage := AwaitingRetirement))
      else if s.host != Some(host) then s.(pipeline := Idle)
      else
        var authorized := SetProviderSession(s, host, Some(e.agentSessionId))
          .(authorized := Some(Authorization(s.hosts[host].producer, e.agentSessionId)), pipeline := Idle);
        Commit(limits, authorized, host, e)
  }

  function RetirementSettled(s: Session): Session {
    if s.pipeline.Busy? && s.pipeline.stage == AwaitingRetirement then s.(pipeline := Idle) else s
  }

  /** The host's transport closed. */
  function HostGone(s: Session, ws: HostSocket): Session
    requires s.host.Some? ==> s.host.value < |s.hosts|
  {
    if s.host.Some? && s.hosts[s.host.value].ws == ws
    then Broadcast(s.(host := None), subs => [Exit])
    else s
  }

  // ---- Browser surfaces ----

  function SetSubscription(subs: seq<Subscription>, surface: SurfaceId, visible: bool): seq<Subscription> {
    if subs == [] then [Subscription(surface, visible)]
    else if subs[0].surface == surface then [Subscription(surface, visible)] + subs[1..]
    else [subs[0]] + SetSubscription(subs[1..], surface, visible)
  }

  function DropSubscription(subs: seq<Subscription>, surface: SurfaceId): seq<Subscription> {
    if subs == [] then []
    else if subs[0].surface == surface then subs[1..]
    else [subs[0]] + DropSubscription(subs[1..], surface)
  }

  predicate Subscribed(s: Session, ws: Socket, surface: SurfaceId) {
    ws in s.clients && exists i :: 0 <= i < |s.clients[ws]| && s.clients[ws][i].surface == surface
  }

  function SendSnapshot(s: Session, ws: Socket, surface: SurfaceId): Session {
    if ws in s.sent then s.(sent := s.sent[ws := Deliver(s, ws, [SnapshotFor(s, surface)])]) else s
  }

  function Connect(s: Session, ws: Socket): Session {
    if ws in s.sent then s else s.(open := s.open + {ws}, sent := s.sent[ws := [Ready]])
  }

  /** Only a connected browser can subscribe. */
  function Subscribe(s: Session, ws: Socket, surface: SurfaceId, visible: bool): Session {
    if ws !in s.sent then s else
      var subs := if ws in s.clients then s.clients[ws] else [];
      var s1 := s.(clients := s.clients[ws := SetSubscription(subs, surface, visible)]);
      if visible then SendSnapshot(s1, ws, surface) else s1
  }

  function SetVisibility(s: Session, ws: Socket, surface: SurfaceId, visible: bool): Session {
    if !Subscribed(s, ws, surface) then s else
      var s1 := s.(clients := s.clients[ws := SetSubscription(s.clients[ws], surface, visible)]);
      if visible then SendSnapshot(s1, ws, surface) else s1
  }

  function Unsubscribe(s: Session, ws: Socket, surface: SurfaceId): Session {
    if ws !in s.clients then s else
      var rest := DropSubscription(s.clients[ws], surface);
      s.(clients := if rest == [] then s.clients - {ws} else s.clients[ws := rest])
  }

  function CloseSocket(s: Session, ws: Socket): Session { s.(open := s.open - {ws}) }

  function RemoveClient(s: Session, ws: Socket): Session { s.(clients := s.clients - {ws}) }

  // ---- One step of the system ----

  datatype Action =
    | HelloFrom(ws: HostSocket, spawn: Spawn, binding: Binding)
    | FrameFrom(host: HostId, event: Event)
    | TakeNext
    | Bind(accepted: bool)
    | Complete(accepted: bool)
    | Retired
    | Gone(ws: HostSocket)
    | ConnectSocket(socket: Socket)
    | SubscribeSurface(socket: Socket, surface: SurfaceId, visible: bool)
    | ShowSurface(socket: Socket, surface: SurfaceId, visible: bool)
    | UnsubscribeSurface(socket: Socket, surface: SurfaceId)
    | SocketClosed(socket: Socket)
    | ClientRemoved(socket: Socket)

  /** Object references of the session point to objects that exist. */
  predicate WellFormed(s: Session) {
    && (s.host.Some? ==> s.host.value < |s.hosts|)
    && (s.producer.Some? ==> s.producer.value < |s.producers|)
    && (s.pipeline.Busy? ==> s.pipeline.host < |s.hosts|)
    && (forall i :: 0 <= i < |s.queue| ==> s.queue[i].host < |s.hosts|)
  }

  function Step(limits: Limits, s: Session, action: Action): Session
    requires WellFormed(s)
  {
    match action
    case HelloFrom(ws, spawn, binding) => Hello(s, ws, spawn, binding)
    case FrameFrom(host, event) => HostFrame(s, host, event)
    case TakeNext => NextEvent(limits, s)
    case Bind(accepted) => BindSettled(s, accepted)
    case Complete(accepted) => CompletionSettled(limits, s, accepted)
    case Retired => RetirementSettled(s)
    case Gone(ws) => HostGone(s, ws)
    case ConnectSocket(ws) => Connect(s, ws)
    case SubscribeSurface(ws, surface, visible) => Subscribe(s, ws, surface, visible)
    case ShowSurface(ws, surface, visible) => SetVisibility(s, ws, surface, visible)
    case UnsubscribeSurface(ws, surface) => Unsubscribe(s, ws, surface)
    case SocketClosed(ws) => CloseSocket(s, ws)
    case ClientRemoved(ws) => RemoveClient(s, ws)
  }
}
