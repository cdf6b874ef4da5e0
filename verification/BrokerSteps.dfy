/**
 * What each step of the broker does, told by the session's fields alone:
 * exactly which event is accepted, when, and what every socket is then sent.
 */
module BrokerSteps {
  import opened Common
  import opened Broker
  import opened BrokerTheorems

  // ---- What a step may send ----

  /** Every socket that is open and has one of this session's surfaces is sent
      `frames` of its subscriptions; the others are sent nothing. */
  ghost predicate EachIsSent(s: Session, n: Session, frames: seq<Subscription> -> seq<Frame>) {
    && n.sent.Keys == s.sent.Keys
    && forall ws :: ws in s.sent ==>
         n.sent[ws] == if ws in s.open && ws in s.clients then s.sent[ws] + frames(s.clients[ws]) else s.sent[ws]
  }

  /** Only `ws`, if it is open, is sent something: one snapshot of the ring. */
  ghost predicate SnapshotSent(s: Session, n: Session, ws: Socket, surface: SurfaceId) {
    && n.sent.Keys == s.sent.Keys
    && forall w :: w in s.sent ==>
         n.sent[w] == if w == ws && w in s.open then s.sent[w] + [Snapshot(surface, s.lastSeq, s.ring)] else s.sent[w]
  }

  // ---- Accepting an event ----

  /** `e` of `host` joins the accepted events, and nothing but the ring and the outboxes moves with it. */
  ghost predicate Accepts(s: Session, n: Session, host: HostId, e: Event) {
    && s.spawns != [] && n.log == s.log + [Accepted(|s.spawns| - 1, host, e)] && n.lastSeq == e.seqNo
    && n == s.(lastSeq := n.lastSeq, ring := n.ring, ringBytes := n.ringBytes, sent := n.sent, log := n.log)
  }

  /** A delta, or an event larger than the whole ring may be, is not replayed;
      any other is appended, and of the result the longest fitting suffix stays. */
  ghost predicate Retained(limits: Limits, before: seq<Event>, e: Event, ring: seq<Event>) {
    if e.kind.AssistantDelta? || e.kind.ToolOutputDelta? || e.bytes > limits.ringMaxBytes then ring == before else
      var all := before + [e];
      && |ring| <= |all| && ring == all[|all| - |ring|..]
      && |ring| <= limits.ringSize && TotalBytes(ring) <= limits.ringMaxBytes
      && forall k :: 0 <= k < |all| - |ring| ==> |all| - k > limits.ringSize || TotalBytes(all[k..]) > limits.ringMaxBytes
  }

  /** A socket gets the event once; a delta only if one of its surfaces is visible. */
  ghost predicate Fanned(s: Session, n: Session, e: Event) {
    && n.sent.Keys == s.sent.Keys
    && forall ws :: ws in s.sent ==>
         var wanted := ws in s.open && ws in s.clients && s.clients[ws] != []
           && ((e.kind.AssistantDelta? || e.kind.ToolOutputDelta?) ==> exists i :: 0 <= i < |s.clients[ws]| && s.clients[ws][i].visible);
         n.sent[ws] == if wanted then s.sent[ws] + [EventFrame(e, |s.log|)] else s.sent[ws]
  }

  lemma CommitAccepts(limits: Limits, s: Session, host: HostId, e: Event)
    requires s.spawns != []
    ensures
      var n := Commit(limits, s, host, e);
      Accepts(s, n, host, e) && Retained(limits, s.ring, e, n.ring) && Fanned(s, n, e)
  {
    LongestFitMeaning(limits, s.ring + [e]);
    hide LongestFit, TotalBytes;
  }

  /** The rejected host loses its identity, the authorization made for its
      producer, and its place; everything else stays. */
  ghost predicate Rejects(s: Session, n: Session, host: HostId)
    requires host < |s.hosts|
  {
    && n.hosts == s.hosts[host := s.hosts[host].(providerSession := None)]
    && n.host == (if s.host == Some(host) then None else s.host)
    && n.authorized == (if s.authorized.Some? && s.authorized.value.producer == s.hosts[host].producer then None else s.authorized)
    && n == s.(hosts := n.hosts, host := n.host, authorized := n.authorized, pipeline := n.pipeline, queue := n.queue)
  }

  lemma RejectRejects(s: Session, host: HostId)
    requires host < |s.hosts|
    ensures var n := Reject(s, host); Rejects(s, n, host) && n.pipeline == s.pipeline && n.queue == s.queue
  {
    var h := s.hosts[host];
    assert h.(providerSession := None, bound := if h.bound.None? then None else h.bound) == h.(providerSession := None);
  }

  lemma InvFacts(limits: Limits, s: Session)
    requires Inv(limits, s)
    ensures WellFormed(s) && SocketsAgree(s) && (s.host.Some? ==> s.spawns != [])
    ensures s.queue != [] ==> s.queue[0].host < |s.hosts|
  {
  }

  /** The first segment of an event, when nothing else is pending. */
  lemma BeginOutcome(limits: Limits, s: Session, host: HostId, e: Event)
    requires host < |s.hosts| && s.pipeline == Idle && (s.host.Some? ==> s.spawns != [])
    ensures
      var n, known := BeginEvent(limits, s, host, e), s.hosts[host].providerSession;
      var current, info, named := s.host == Some(host) && e.seqNo > s.lastSeq, e.kind.SessionInfo?, e.agentSessionId != "";
      && (current && (info ==> !named && known.None?) ==>
            Accepts(s, n, host, e) && Retained(limits, s.ring, e, n.ring) && Fanned(s, n, e))
      && (current && info && named && (known.None? || known.value == e.agentSessionId) ==>
            n == s.(pipeline := Busy(host, e, AwaitingBind)))
      && (current && info && named && known.Some? && known.value != e.agentSessionId ==>
            Rejects(s, n, host) && n.pipeline == Busy(host, e, AwaitingRetirement) && n.queue == s.queue)
      && (!current || (info && !named && known.Some?) ==> n == s)
  {
    if s.host == Some(host) {
      CommitAccepts(limits, s, host, e);
      RejectRejects(s, host);
    }
    hide Commit, Reject, Accepts, Retained, Fanned;
  }

  /**
   * The queue's head is accepted exactly when its host is current, its number
   * is above `lastSeq`, and it is neither a session-info without an id from an
   * identified host nor one that names a session. One that names a session
   * waits for the durable bind, or rejects a host that has another identity.
   */
  lemma TakeNextIff(limits: Limits, s: Session)
    requires Inv(limits, s) && s.pipeline == Idle && s.queue != []
    ensures s.queue[0].host < |s.hosts| && WellFormed(s)
    ensures
      var n, host, e := Step(limits, s, TakeNext), s.queue[0].host, s.queue[0].event;
      var q, known := s.(queue := s.queue[1..]), s.hosts[host].providerSession;
      var current, info, named := s.host == Some(host) && e.seqNo > s.lastSeq, e.kind.SessionInfo?, e.agentSessionId != "";
      && n.queue == s.queue[1..]
      && (n.log != s.log <==> current && (info ==> !named && known.None?))
      && (n.log != s.log ==> Accepts(q, n, host, e) && Retained(limits, s.ring, e, n.ring) && Fanned(s, n, e))
      && (n.pipeline == Busy(host, e, AwaitingBind) <==> current && info && named && (known.None? || known.value == e.agentSessionId))
      && (n.pipeline == Busy(host, e, AwaitingBind) ==> n == q.(pipeline := n.pipeline))
      && (n.pipeline == Busy(host, e, AwaitingRetirement) <==> current && info && named && known.Some? && known.value != e.agentSessionId)
      && (n.pipeline == Busy(host, e, AwaitingRetirement) ==> Rejects(s, n, host))
      && (n.log == s.log && n.pipeline == Idle ==> n == q)
  {
    InvFacts(limits, s);
    hide Inv, WellFormed, BeginEvent, Rejects, Accepts, Retained, Fanned;
    BeginOutcome(limits, s.(queue := s.queue[1..]), s.queue[0].host, s.queue[0].event);
  }

  /** While an event is pending, or nothing is queued, the queue hands over nothing. */
  lemma TakeNextWaits(limits: Limits, s: Session)
    requires WellFormed(s) && (s.pipeline.Busy? || s.queue == [])
    ensures Step(limits, s, TakeNext) == s
  {
  }

  /** A frame of the current host is queued behind all earlier ones; any other is dropped. */
  lemma FrameIsQueued(limits: Limits, s: Session, host: HostId, e: Event)
    requires WellFormed(s)
    ensures
      Step(limits, s, FrameFrom(host, e))
      == if s.host == Some(host) then s.(queue := s.queue + [Queued(host, e)]) else s
  {
  }

  /** The durable bind: accepted for the host that is still current, it lets the
      authorization be completed; for another host it ends the event; refused, it rejects the host. */
  lemma BindOutcome(limits: Limits, s: Session, accepted: bool)
    requires WellFormed(s) && s.pipeline.Busy? && s.pipeline.stage.AwaitingBind?
    ensures
      var n, host, e := Step(limits, s, Bind(accepted)), s.pipeline.host, s.pipeline.event;
      && (accepted && s.host == Some(host) ==> n == s.(pipeline := Busy(host, e, AwaitingCompletion)))
      && (accepted && s.host != Some(host) ==> n == s.(pipeline := Idle))
      && (!accepted ==> Rejects(s, n, host) && n.pipeline == Busy(host, e, AwaitingRetirement) && n.queue == s.queue)
  {
    RejectRejects(s, s.pipeline.host);
    hide Reject;
  }

  /** Host and session with the id of the pending event, which is no longer pending. */
  function Carrying(s: Session, host: HostId, id: string): Session
    requires host < |s.hosts|
  {
    var h := s.hosts[host];
    var carried := h.(providerSession := Some(id), bound := if h.bound.None? then Some(id) else h.bound);
    s.(hosts := s.hosts[host := carried], authorized := Some(Authorization(h.producer, id)), pipeline := Idle)
  }

  lemma CompletedAccepts(limits: Limits, s: Session, host: HostId, e: Event)
    requires host < |s.hosts| && s.spawns != [] && s.host == Some(host) && s.pipeline == Busy(host, e, AwaitingCompletion)
    ensures
      var n := CompletionSettled(limits, s, true);
      Accepts(Carrying(s, host, e.agentSessionId), n, host, e) && Retained(limits, s.ring, e, n.ring) && Fanned(s, n, e)
  {
    var s1 := Carrying(s, host, e.agentSessionId);
    CommitAccepts(limits, s1, host, e);
    assert CompletionSettled(limits, s, true) == Commit(limits, s1, host, e);
    hide Commit, Retained, Accepts;
  }

  /** The authorization: completed for the host that is still current, host and
      session carry the id and the event is accepted; else as for the bind. */
  lemma CompletionOutcome(limits: Limits, s: Session, accepted: bool)
    requires Inv(limits, s) && s.pipeline.Busy? && s.pipeline.stage.AwaitingCompletion?
    ensures WellFormed(s)
    ensures
      var n, host, e := Step(limits, s, Complete(accepted)), s.pipeline.host, s.pipeline.event;
      && (accepted && s.host == Some(host) ==>
            Accepts(Carrying(s, host, e.agentSessionId), n, host, e) && Retained(limits, s.ring, e, n.ring) && Fanned(s, n, e))
      && (accepted && s.host != Some(host) ==> n == s.(pipeline := Idle))
      && (!accepted ==> Rejects(s, n, host) && n.pipeline == Busy(host, e, AwaitingRetirement) && n.queue == s.queue)
  {
    InvFacts(limits, s);
    var host, e := s.pipeline.host, s.pipeline.event;
    RejectRejects(s, host);
    if s.host == Some(host) { CompletedAccepts(limits, s, host, e); }
    hide Inv, Reject, Commit, Accepts, Retained, Fanned, Carrying;
  }

  /** Settlements of another stage than the pending one do nothing. */
  lemma OtherStages(limits: Limits, s: Session, accepted: bool)
    requires WellFormed(s)
    ensures !(s.pipeline.Busy? && s.pipeline.stage.AwaitingBind?) ==> Step(limits, s, Bind(accepted)) == s
    ensures !(s.pipeline.Busy? && s.pipeline.stage.AwaitingCompletion?) ==> Step(limits, s, Complete(accepted)) == s
    ensures Step(limits, s, Retired) == if s.pipeline.Busy? && s.pipeline.stage.AwaitingRetirement? then s.(pipeline := Idle) else s
  {
  }

  // ---- An event that names a session, over a run ----

  /** Anything but the settlements of the pending event. */
  predicate Quiet(a: Action) { !a.Bind? && !a.Complete? && !a.Retired? }

  /** While an event is pending nothing else is accepted, and no host object
      moves; a host that is not current never becomes current again. */
  ghost predicate OnlyWaits(s: Session, n: Session) {
    && n.pipeline == s.pipeline && n.log == s.log
    && |s.hosts| <= |n.hosts| && n.hosts[..|s.hosts|] == s.hosts
    && forall h :: 0 <= h < |s.hosts| && n.host == Some(h) ==> s.host == Some(h)
  }

  lemma QuietStep(limits: Limits, s: Session, a: Action)
    requires WellFormed(s) && s.pipeline.Busy? && Quiet(a)
    ensures OnlyWaits(s, Step(limits, s, a))
  {
    hide EnterEpoch, TakeProducer, KnownIdentity, SetSubscription, DropSubscription, SendSnapshot, Broadcast;
    match a
    case HelloFrom(ws, spawn, binding) =>
      HelloWaits(s, ws, spawn, binding);
    case Gone(ws) => GoneWaits(s, ws);
    case SubscribeSurface(ws, surface, visible) => SurfaceWaits(s, ws, surface, visible);
    case ShowSurface(ws, surface, visible) => SurfaceWaits(s, ws, surface, visible);
    case _ =>
  }

  lemma HelloWaits(s: Session, ws: HostSocket, spawn: Spawn, binding: Binding)
    requires WellFormed(s)
    ensures OnlyWaits(s, Hello(s, ws, spawn, binding))
  {
    HelloObjects(s, ws, spawn, binding);
    HelloShape(s, ws, spawn, binding);
    hide Hello, ChangedSpawn;
  }

  lemma GoneWaits(s: Session, ws: HostSocket)
    requires WellFormed(s)
    ensures OnlyWaits(s, HostGone(s, ws))
  {
  }

  lemma SurfaceWaits(s: Session, ws: Socket, surface: SurfaceId, visible: bool)
    ensures OnlyWaits(s, Subscribe(s, ws, surface, visible)) && OnlyWaits(s, SetVisibility(s, ws, surface, visible))
  {
    hide SetSubscription;
  }

  lemma {:induction false} QuietRun(limits: Limits, s: Session, quiet: seq<Action>)
    requires Inv(limits, s) && s.pipeline.Busy? && forall i :: 0 <= i < |quiet| ==> Quiet(quiet[i])
    ensures OnlyWaits(s, RunAll(limits, s, quiet))
    decreases |quiet|
  {
    hide Inv, Step, Quiet;
    if quiet != [] {
      StepInv(limits, s, quiet[0]);
      var n := Step(limits, s, quiet[0]);
      QuietStep(limits, s, quiet[0]);
      QuietRun(limits, n, quiet[1..]);
      var m := RunAll(limits, n, quiet[1..]);
      assert m.hosts[..|s.hosts|] == m.hosts[..|n.hosts|][..|s.hosts|];
    }
  }

  /** The queue's head names a session its host may carry, and is new. */
  ghost predicate NamingHead(s: Session) {
    && s.pipeline == Idle && s.queue != [] && s.host == Some(s.queue[0].host) && s.queue[0].host < |s.hosts|
    && var e, known := s.queue[0].event, s.hosts[s.queue[0].host].providerSession;
       e.seqNo > s.lastSeq && e.kind.SessionInfo? && e.agentSessionId != "" && (known.None? || known == Some(e.agentSessionId))
  }

  /** Up to the durable bind, with any other traffic in between. */
  lemma NamingEventBound(limits: Limits, s: Session, first: seq<Action>)
    requires Inv(limits, s) && NamingHead(s) && forall i :: 0 <= i < |first| ==> Quiet(first[i])
    ensures
      var host, e := s.queue[0].host, s.queue[0].event;
      var n := RunAll(limits, RunAll(limits, s, [TakeNext] + first), [Bind(true)]);
      && Inv(limits, n) && n.log == s.log && host < |n.hosts| && n.hosts[host] == s.hosts[host]
      && n.pipeline == if n.host == Some(host) then Busy(host, e, AwaitingCompletion) else Idle
  {
    InvFacts(limits, s);
    hide Inv, WellFormed, Step, Quiet, Fanned, Retained, Accepts, Rejects;
    var taken := Step(limits, s, TakeNext);
    TakeNextIff(limits, s);
    StepInv(limits, s, TakeNext);
    RunOne(limits, s, TakeNext);
    RunConcat(limits, s, [TakeNext], first);
    var waited := RunAll(limits, taken, first);
    QuietRun(limits, taken, first);
    RunInv(limits, taken, first);
    StepInv(limits, waited, Bind(true));
    BindOutcome(limits, waited, true);
    RunOne(limits, waited, Bind(true));
    assert waited.hosts[s.queue[0].host] == waited.hosts[..|taken.hosts|][s.queue[0].host];
  }

  /** From the bind to the completed authorization. */
  lemma NamingEventCompleted(limits: Limits, s: Session, second: seq<Action>)
    requires Inv(limits, s) && s.pipeline.Busy? && s.pipeline.stage.AwaitingCompletion? && s.pipeline.host < |s.hosts|
    requires forall i :: 0 <= i < |second| ==> Quiet(second[i])
    ensures
      var host, e := s.pipeline.host, s.pipeline.event;
      var m := RunAll(limits, s, second);
      var n := RunAll(limits, m, [Complete(true)]);
      && m.log == s.log && n.pipeline == Idle
      && (n.log != m.log <==> m.host == Some(host))
      && (m.host == Some(host) ==>
            && m.spawns != [] && n.log == s.log + [Accepted(|m.spawns| - 1, host, e)] && n.lastSeq == e.seqNo
            && n.host == Some(host) && host < |n.hosts| && n.hosts[host].providerSession == Some(e.agentSessionId)
            && n.authorized == Some(Authorization(s.hosts[host].producer, e.agentSessionId))
            && Fanned(m, n, e) && Retained(limits, m.ring, e, n.ring))
  {
    hide Inv, WellFormed, Step, Quiet, Fanned, Retained;
    QuietRun(limits, s, second);
    RunInv(limits, s, second);
    var m := RunAll(limits, s, second);
    CompletionOutcome(limits, m, true);
    RunOne(limits, m, Complete(true));
    assert m.hosts[s.pipeline.host] == m.hosts[..|s.hosts|][s.pipeline.host];
  }

  /**
   * The whole life of an event that names a session its host may carry: taken
   * from the queue, bound and completed, with any other traffic in between, it
   * is accepted exactly when its host is still current at the end; host and
   * session then carry the id. Nothing else is accepted meanwhile.
   */
  lemma NamingEventIff(limits: Limits, s: Session, first: seq<Action>, second: seq<Action>)
    requires Inv(limits, s) && NamingHead(s)
    requires (forall i :: 0 <= i < |first| ==> Quiet(first[i])) && (forall i :: 0 <= i < |second| ==> Quiet(second[i]))
    ensures
      var host, e := s.queue[0].host, s.queue[0].event;
      var bound := RunAll(limits, RunAll(limits, s, [TakeNext] + first), [Bind(true)]);
      var m := RunAll(limits, bound, second);
      var n := RunAll(limits, m, [Complete(true)]);
      && bound.log == s.log
      && (bound.host != Some(host) ==> bound.pipeline == Idle)
      && (bound.host == Some(host) ==>
            && m.log == s.log && n.pipeline == Idle
            && (n.log != m.log <==> m.host == Some(host))
            && (m.host == Some(host) ==>
                  && m.spawns != [] && n.log == s.log + [Accepted(|m.spawns| - 1, host, e)] && n.lastSeq == e.seqNo
                  && n.host == Some(host) && host < |n.hosts| && n.hosts[host].providerSession == Some(e.agentSessionId)
                  && n.authorized == Some(Authorization(s.hosts[host].producer, e.agentSessionId))
                  && Fanned(m, n, e) && Retained(limits, m.ring, e, n.ring)))
  {
    NamingEventBound(limits, s, first);
    hide *;
    var bound := RunAll(limits, RunAll(limits, s, [TakeNext] + first), [Bind(true)]);
    if bound.host == Some(s.queue[0].host) { NamingEventCompleted(limits, bound, second); }
  }

  lemma RunOne(limits: Limits, s: Session, a: Action)
    requires WellFormed(s)
    ensures RunAll(limits, s, [a]) == Step(limits, s, a)
  {
    assert [a][1..] == [];
  }

  // ---- A queue of ordinary events ----

  /** All queued events are ordinary ones of the current host, numbered upwards from `lastSeq`. */
  ghost predicate OrdinaryQueue(s: Session) {
    && (forall i :: 0 <= i < |s.queue| ==>
          s.host == Some(s.queue[i].host) && !s.queue[i].event.kind.SessionInfo? && s.queue[i].event.seqNo > s.lastSeq)
    && forall i, j :: 0 <= i < j < |s.queue| ==> s.queue[i].event.seqNo < s.queue[j].event.seqNo
  }

  /** Such a queue is accepted whole, in order, one event a step. */
  lemma {:induction false} QueueDrains(limits: Limits, s: Session)
    requires Inv(limits, s) && s.pipeline == Idle && OrdinaryQueue(s)
    ensures
      var n := RunAll(limits, s, seq(|s.queue|, i => TakeNext));
      && n.queue == [] && |n.log| == |s.log| + |s.queue| && n.log[..|s.log|] == s.log
      && (forall i :: 0 <= i < |s.queue| ==>
            s.spawns != [] && n.log[|s.log| + i] == Accepted(|s.spawns| - 1, s.queue[i].host, s.queue[i].event))
    decreases |s.queue|
  {
    hide Inv, WellFormed, Step, Retained, Fanned;
    var steps := seq(|s.queue|, i => TakeNext);
    if s.queue != [] {
      TakeNextIff(limits, s);
      StepInv(limits, s, TakeNext);
      var n := Step(limits, s, TakeNext);
      assert steps[1..] == seq(|n.queue|, i => TakeNext);
      assert n.log == s.log + [Accepted(|s.spawns| - 1, s.queue[0].host, s.queue[0].event)];
      QueueDrains(limits, n);
      var m := RunAll(limits, n, steps[1..]);
      assert m.log[..|s.log|] == m.log[..|n.log|][..|s.log|] && m.log[|s.log|] == m.log[..|n.log|][|s.log|];
      forall i | 0 <= i < |s.queue| ensures m.log[|s.log| + i] == Accepted(|s.spawns| - 1, s.queue[i].host, s.queue[i].event) {
        if i > 0 { assert s.queue[i] == n.queue[i - 1]; }
      }
    }
  }

  // ---- The host connection ----

  /** Whether a hello starts another epoch: another generation, provider, instance or pid than the last one. */
  ghost predicate OtherSpawn(s: Session, spawn: Spawn)
    requires WellFormed(s)
  {
    s.producer.Some?
    && var p := s.producers[s.producer.value];
       !(p.generation == spawn.producer.generation && p.provider == spawn.producer.provider && p.instance == spawn.producer.instance
         && s.lastPid == Some(spawn.pid))
  }

  lemma OtherSpawnIff(s: Session, spawn: Spawn)
    requires WellFormed(s)
    ensures OtherSpawn(s, spawn) <==> ChangedSpawn(s, spawn)
  {
  }

  lemma {:induction false} SnapshotsExact(s: Session, subs: seq<Subscription>)
    ensures |Snapshots(s, subs)| == |subs|
    ensures forall i :: 0 <= i < |subs| ==> Snapshots(s, subs)[i] == Snapshot(subs[i].surface, s.lastSeq, s.ring)
    decreases |subs|
  {
    if subs != [] { SnapshotsExact(s, subs[1..]); }
  }

  /** An empty snapshot for each surface, in the order of the subscriptions. */
  function EmptySnapshots(subs: seq<Subscription>): seq<Frame> {
    seq(|subs|, i requires 0 <= i < |subs| => Snapshot(subs[i].surface, 0, []))
  }

  /**
   * A hello: another spawn empties the ring, drops the authorization and sends
   * every subscribed surface an empty snapshot; otherwise ring and outboxes
   * stay. The producer object is reused exactly when it is the same producer.
   * The new host carries the id authorized for that very object, else the one
   * the durable store has for its provider, which then becomes authorized.
   */
  lemma HelloOutcome(limits: Limits, s: Session, ws: HostSocket, spawn: Spawn, binding: Binding)
    requires WellFormed(s)
    ensures
      var n := Step(limits, s, HelloFrom(ws, spawn, binding));
      var same := s.producer.Some? && s.producers[s.producer.value] == spawn.producer;
      var other := OtherSpawn(s, spawn);
      && (if other then n.ring == [] && n.ringBytes == 0 && n.lastSeq == 0 && EachIsSent(s, n, EmptySnapshots)
          else n.ring == s.ring && n.ringBytes == s.ringBytes && n.lastSeq == s.lastSeq && n.sent == s.sent)
      && n.producer == (if same then s.producer else Some(|s.producers|))
      && n.producers == (if same then s.producers else s.producers + [spawn.producer])
      && n.host == Some(|s.hosts|) && n.lastPid == Some(spawn.pid)
      && n.spawns == (if other || s.producer.None? then s.spawns + [spawn] else s.spawns)
      && var reused := !other && s.authorized.Some? && n.producer == Some(s.authorized.value.producer);
         var id := if reused then Some(s.authorized.value.providerSession)
                   else if binding.Bound? && binding.provider == spawn.producer.provider then binding.providerSession else None;
         && n.hosts == s.hosts + [Host(ws, spawn, n.producer.value, id, id)]
         && n.authorized == (if id.Some? then Some(Authorization(n.producer.value, id.value)) else if other then None else s.authorized)
         && n.clients == s.clients && n.open == s.open && n.queue == s.queue && n.pipeline == s.pipeline && n.log == s.log
  {
    OtherSpawnIff(s, spawn);
    if ChangedSpawn(s, spawn) { ResetSends(s); }
    hide Broadcast, Snapshots;
  }

  lemma ResetSends(s: Session)
    ensures EachIsSent(s, ResetForSpawn(s), EmptySnapshots)
  {
    var cleared := s.(ring := [], ringBytes := 0, lastSeq := 0, authorized := None);
    forall ws | ws in s.sent && ws in s.clients ensures Snapshots(cleared, s.clients[ws]) == EmptySnapshots(s.clients[ws]) {
      SnapshotsExact(cleared, s.clients[ws]);
    }
  }

  /** The current host's close clears it and tells every open subscribed socket once; another socket's close does nothing. */
  lemma GoneOutcome(limits: Limits, s: Session, ws: HostSocket)
    requires WellFormed(s)
    ensures
      var n := Step(limits, s, Gone(ws));
      if s.host.Some? && s.hosts[s.host.value].ws == ws
      then n == s.(host := None, sent := n.sent) && EachIsSent(s, n, _ => [Exit])
      else n == s
  {
  }

  // ---- Browser surfaces ----

  /** A socket holds at least one subscription, and at most one for each surface. */
  ghost predicate OneEach(subs: seq<Subscription>) {
    subs != [] && forall i, j :: 0 <= i < j < |subs| ==> subs[i].surface != subs[j].surface
  }

  ghost predicate SurfacesOnce(s: Session) { forall ws :: ws in s.clients ==> OneEach(s.clients[ws]) }

  /** The subscription of `surface` is the one given; those of other surfaces stay. */
  ghost predicate Resubscribed(before: seq<Subscription>, after: seq<Subscription>, surface: SurfaceId, visible: bool) {
    forall sub :: sub in after <==> sub == Subscription(surface, visible) || (sub in before && sub.surface != surface)
  }

  lemma {:induction false} SetSubscriptionExact(subs: seq<Subscription>, surface: SurfaceId, visible: bool)
    requires subs == [] || OneEach(subs)
    ensures var r := SetSubscription(subs, surface, visible); OneEach(r) && Resubscribed(subs, r, surface, visible)
    decreases |subs|
  {
    if subs == [] { return; }
    var rest := subs[1..];
    assert forall sub :: sub in subs <==> sub == subs[0] || sub in rest;
    if subs[0].surface == surface {
      var r := [Subscription(surface, visible)] + rest;
      assert forall sub :: sub in r <==> sub == Subscription(surface, visible) || sub in rest;
    } else {
      SetSubscriptionExact(rest, surface, visible);
      var set_ := SetSubscription(rest, surface, visible);
      var r := [subs[0]] + set_;
      assert forall sub :: sub in r <==> sub == subs[0] || sub in set_;
      forall j | 0 < j < |r| ensures r[0].surface != r[j].surface { assert r[j] == set_[j - 1] && r[j] in set_; }
    }
  }

  lemma {:induction false} DropSubscriptionExact(subs: seq<Subscription>, surface: SurfaceId)
    requires subs == [] || OneEach(subs)
    ensures var r := DropSubscription(subs, surface); r == [] || OneEach(r)
    ensures forall sub :: sub in DropSubscription(subs, surface) <==> sub in subs && sub.surface != surface
    decreases |subs|
  {
    if subs == [] { return; }
    var rest := subs[1..];
    assert forall sub :: sub in subs <==> sub == subs[0] || sub in rest;
    if subs[0].surface != surface {
      DropSubscriptionExact(rest, surface);
      var dropped := DropSubscription(rest, surface);
      var r := [subs[0]] + dropped;
      assert forall sub :: sub in r <==> sub == subs[0] || sub in dropped;
      forall j | 0 < j < |r| ensures r[0].surface != r[j].surface { assert r[j] == dropped[j - 1] && r[j] in dropped; }
    }
  }

  /** The subscriptions of one socket, none if it has no entry. */
  function SubsOf(s: Session, ws: Socket): seq<Subscription> { if ws in s.clients then s.clients[ws] else [] }

  /** Every other socket keeps its subscriptions. */
  ghost predicate OthersKeep(s: Session, n: Session, ws: Socket) {
    forall w :: w != ws ==> (w in n.clients <==> w in s.clients) && (w in s.clients ==> n.clients[w] == s.clients[w])
  }

  /** The one subscription is set, and if it is visible the socket gets one snapshot of the ring. */
  ghost predicate SurfaceSet(s: Session, n: Session, ws: Socket, surface: SurfaceId, visible: bool) {
    && n == s.(clients := n.clients, sent := n.sent) && OthersKeep(s, n, ws)
    && ws in n.clients && Resubscribed(SubsOf(s, ws), n.clients[ws], surface, visible)
    && (if visible then SnapshotSent(s, n, ws, surface) else n.sent == s.sent)
  }

  lemma SetSends(s: Session, ws: Socket, surface: SurfaceId, visible: bool)
    requires ws in s.sent && SurfacesOnce(s)
    ensures
      var s1 := s.(clients := s.clients[ws := SetSubscription(SubsOf(s, ws), surface, visible)]);
      SurfaceSet(s, if visible then SendSnapshot(s1, ws, surface) else s1, ws, surface, visible)
  {
    SetSubscriptionExact(SubsOf(s, ws), surface, visible);
    hide SetSubscription, Resubscribed, OneEach;
  }

  /** Subscribing sets the one subscription; only a connected socket can. */
  lemma SubscribeOutcome(limits: Limits, s: Session, ws: Socket, surface: SurfaceId, visible: bool)
    requires WellFormed(s) && SurfacesOnce(s)
    ensures
      var n := Step(limits, s, SubscribeSurface(ws, surface, visible));
      if ws in s.sent then SurfaceSet(s, n, ws, surface, visible) else n == s
  {
    if ws in s.sent { SetSends(s, ws, surface, visible); }
    hide SetSubscription, SurfaceSet, SendSnapshot, SurfacesOnce;
  }

  /** Changing the visibility sets the subscription of a surface that has one, and does nothing otherwise. */
  lemma ShowOutcome(limits: Limits, s: Session, ws: Socket, surface: SurfaceId, visible: bool)
    requires WellFormed(s) && SocketsAgree(s) && SurfacesOnce(s)
    ensures
      var n := Step(limits, s, ShowSurface(ws, surface, visible));
      if exists sub :: sub in SubsOf(s, ws) && sub.surface == surface then SurfaceSet(s, n, ws, surface, visible) else n == s
  {
    if ws in s.sent { SetSends(s, ws, surface, visible); }
    hide SetSubscription, SurfaceSet, SendSnapshot, SurfacesOnce;
    if Subscribed(s, ws, surface) {
      var i :| 0 <= i < |s.clients[ws]| && s.clients[ws][i].surface == surface;
      assert s.clients[ws][i] in SubsOf(s, ws);
    }
  }

  /** Unsubscribing removes that one subscription and nothing else. */
  lemma UnsubscribeOutcome(limits: Limits, s: Session, ws: Socket, surface: SurfaceId)
    requires WellFormed(s) && SurfacesOnce(s)
    ensures
      var n := Step(limits, s, UnsubscribeSurface(ws, surface));
      && n == s.(clients := n.clients) && OthersKeep(s, n, ws)
      && forall sub :: sub in SubsOf(n, ws) <==> sub in SubsOf(s, ws) && sub.surface != surface
  {
    DropSubscriptionExact(SubsOf(s, ws), surface);
    hide DropSubscription, OneEach;
  }

  /** A new socket is greeted once; a closing one is sent nothing more; a removed client loses its subscriptions. */
  lemma SocketOutcome(limits: Limits, s: Session, ws: Socket)
    requires WellFormed(s)
    ensures
      var n := Step(limits, s, ConnectSocket(ws));
      n == if ws in s.sent then s else s.(open := s.open + {ws}, sent := s.sent[ws := [Ready]])
    ensures Step(limits, s, SocketClosed(ws)) == s.(open := s.open - {ws})
    ensures Step(limits, s, ClientRemoved(ws)) == s.(clients := map w | w in s.clients && w != ws :: s.clients[w])
  {
    assert s.clients - {ws} == map w | w in s.clients && w != ws :: s.clients[w];
  }

  lemma SameClients(limits: Limits, s: Session, a: Action)
    requires WellFormed(s)
    requires !a.SubscribeSurface? && !a.ShowSurface? && !a.UnsubscribeSurface? && !a.ClientRemoved?
    ensures Step(limits, s, a).clients == s.clients
  {
    hide Hello, Commit, Reject, NextEvent, BindSettled, CompletionSettled, EventFrames;
    match a
    case HelloFrom(ws, spawn, binding) =>
      HelloOutcome(limits, s, ws, spawn, binding);
      hide OtherSpawn, EachIsSent, Step;
    case TakeNext => NextClients(limits, s);
    case Bind(accepted) => SettledClients(limits, s, accepted);
    case Complete(accepted) => SettledClients(limits, s, accepted);
    case _ =>
  }

  lemma NextClients(limits: Limits, s: Session)
    requires WellFormed(s)
    ensures NextEvent(limits, s).clients == s.clients
  {
    if s.pipeline == Idle && s.queue != [] {
      RejectRejects(s.(queue := s.queue[1..]), s.queue[0].host);
      CommitShape(limits, s.(queue := s.queue[1..]), s.queue[0].host, s.queue[0].event);
    }
    hide Reject, Commit;
  }

  lemma SettledClients(limits: Limits, s: Session, accepted: bool)
    requires WellFormed(s)
    ensures BindSettled(s, accepted).clients == s.clients && CompletionSettled(limits, s, accepted).clients == s.clients
  {
    if s.pipeline.Busy? {
      RejectRejects(s, s.pipeline.host);
      CommitShape(limits, Authorized(s), s.pipeline.host, s.pipeline.event);
    }
    hide Reject, Commit;
  }

  /** Every step keeps at most one subscription for each surface of a socket. */
  lemma SurfacesStayOnce(limits: Limits, s: Session, a: Action)
    requires WellFormed(s) && SurfacesOnce(s)
    ensures SurfacesOnce(Step(limits, s, a))
  {
    hide OneEach, SetSubscription, DropSubscription, Deliver, Resubscribed, Subscribed, SnapshotFor;
    match a
    case SubscribeSurface(ws, surface, visible) => SetSubscriptionExact(SubsOf(s, ws), surface, visible);
    case ShowSurface(ws, surface, visible) =>
      if Subscribed(s, ws, surface) { SubscribedOnce(s, ws, surface, visible); }
    case UnsubscribeSurface(ws, surface) => DropSubscriptionExact(SubsOf(s, ws), surface);
    case ClientRemoved(ws) =>
    case _ =>
      SameClients(limits, s, a);
      hide Step;
  }

  /** After every run each socket has at most one subscription for a surface. */
  lemma {:induction false} SurfacesAlwaysOnce(limits: Limits, s: Session, actions: seq<Action>)
    requires Inv(limits, s) && SurfacesOnce(s)
    ensures SurfacesOnce(RunAll(limits, s, actions))
    decreases |actions|
  {
    hide Inv, WellFormed, Step, SurfacesOnce;
    if actions != [] {
      StepInv(limits, s, actions[0]);
      SurfacesStayOnce(limits, s, actions[0]);
      SurfacesAlwaysOnce(limits, Step(limits, s, actions[0]), actions[1..]);
    }
  }

  lemma SubscribedOnce(s: Session, ws: Socket, surface: SurfaceId, visible: bool)
    requires SurfacesOnce(s) && Subscribed(s, ws, surface)
    ensures ws in s.clients && OneEach(SetSubscription(s.clients[ws], surface, visible))
  {
    SetSubscriptionExact(s.clients[ws], surface, visible);
  }
}
