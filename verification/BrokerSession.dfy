/** The session object of the broker and its handlers, one method per segment between awaits. */
module BrokerSession {
  import opened Common
  import opened Broker
  import opened BrokerTheorems

  class AgentSurfaceSession {
    const limits: Limits
    var host: Option<HostId>
    var hosts: seq<Host>
    var lastHostPid: Option<int>
    var producer: Option<ProducerId>
    var producers: seq<Producer>
    var authorized: Option<Authorization>
    var clients: map<Socket, seq<Subscription>>
    var ring: seq<Event>
    var ringBytes: nat
    var lastSeq: int
    var queue: seq<Queued>
    var pipeline: Pipeline
    var open: set<Socket>
    var sent: map<Socket, seq<Frame>>
    ghost var spawns: seq<Spawn>
    ghost var log: seq<Accepted>
    var accepted: nat

    ghost function State(): Session
      reads this
    {
      Session(host, hosts, lastHostPid, producer, producers, authorized, clients, ring, ringBytes, lastSeq,
              queue, pipeline, open, sent, spawns, log)
    }

    ghost predicate Valid()
      reads this
    {
      WellFormed(State()) && clients.Keys <= sent.Keys && ringBytes == TotalBytes(ring) && accepted == |log|
    }

    constructor (limits: Limits)
      ensures Valid() && State() == NewSession && this.limits == limits
    {
      this.limits := limits;
      host, hosts, lastHostPid, producer, producers, authorized := None, [], None, None, [], None;
      clients, ring, ringBytes, lastSeq, queue, pipeline := map[], [], 0, 0, [], Idle;
      open, sent, spawns, log, accepted := {}, map[], [], [], 0;
    }

    // ---- Sending ----

    /** A frame for a socket that is not open is dropped. */
    method Send(ws: Socket, frame: Frame)
      requires ws in sent
      modifies this`sent
      ensures sent == old(sent)[ws := Deliver(old(State()), ws, [frame])]
    {
      if ws in open { sent := sent[ws := sent[ws] + [frame]]; }
    }

    method SendSnapshotTo(ws: Socket, surface: SurfaceId)
      requires ws in sent
      modifies this`sent
      ensures State() == SendSnapshot(old(State()), ws, surface)
    {
      Send(ws, Snapshot(surface, lastSeq, ring));
    }

    /** One socket's surfaces, one snapshot each. */
    method SendSnapshots(ws: Socket, subs: seq<Subscription>)
      requires ws in sent
      modifies this`sent
      ensures sent == old(sent)[ws := Deliver(old(State()), ws, Snapshots(old(State()), subs))]
    {
      ghost var s := State();
      assert sent[ws] + [] == sent[ws];
      for i := 0 to |subs|
        invariant sent.Keys == s.sent.Keys && forall w :: w in s.sent && w != ws ==> sent[w] == s.sent[w]
        invariant ws !in open ==> sent[ws] == s.sent[ws]
        invariant ws in open ==> sent[ws] + Snapshots(s, subs[i..]) == s.sent[ws] + Snapshots(s, subs)
      {
        assert subs[i..][0] == subs[i] && subs[i..][1..] == subs[i + 1..];
        ghost var before := sent[ws];
        SendSnapshotTo(ws, subs[i].surface);
        assert before + ([SnapshotFor(s, subs[i].surface)] + Snapshots(s, subs[i + 1..]))
            == before + [SnapshotFor(s, subs[i].surface)] + Snapshots(s, subs[i + 1..]);
      }
      assert sent[ws] + Snapshots(s, []) == sent[ws];
      assert sent == s.sent[ws := Deliver(s, ws, Snapshots(s, subs))];
    }

    method SnapshotEverySurface()
      requires clients.Keys <= sent.Keys
      modifies this`sent
      ensures State() == Broadcast(old(State()), subs => Snapshots(old(State()), subs))
    {
      hide Snapshots;
      ghost var s := State();
      var rest := clients.Keys;
      while rest != {}
        invariant rest <= clients.Keys && sent.Keys == s.sent.Keys
        invariant forall ws :: ws in s.sent ==>
                    sent[ws] == (if ws in clients && ws !in rest then Deliver(s, ws, Snapshots(s, clients[ws])) else s.sent[ws])
        decreases rest
      {
        var ws :| ws in rest;
        rest := rest - {ws};
        SameSnapshots(s, State(), clients[ws]);
        SendSnapshots(ws, clients[ws]);
      }
    }

    method WantsEvent(subs: seq<Subscription>, event: Event) returns (shouldSend: bool)
      ensures shouldSend <==> subs != [] && (!IsTransient(event) || SomeVisible(subs))
    {
      var transient := IsTransient(event);
      shouldSend := false;
      for i := 0 to |subs|
        invariant shouldSend <==> (!transient && i > 0) || exists k :: 0 <= k < i && subs[k].visible
      {
        if !transient || subs[i].visible { shouldSend := true; }
      }
    }

    method FanEventToSurfaces(event: Event, ghost index: nat)
      requires clients.Keys <= sent.Keys && index == accepted
      modifies this`sent
      ensures State() == FanOut(old(State()), event, index)
    {
      ghost var s := State();
      var rest := clients.Keys;
      while rest != {}
        invariant rest <= clients.Keys && sent.Keys == s.sent.Keys
        invariant forall ws :: ws in s.sent ==>
                    sent[ws] == (if ws in clients && ws !in rest
                                 then Deliver(s, ws, EventFrames(event, index, clients[ws])) else s.sent[ws])
        decreases rest
      {
        var ws :| ws in rest;
        rest := rest - {ws};
        var shouldSend := WantsEvent(clients[ws], event);
        if shouldSend {
          Send(ws, EventFrame(event, accepted));
        } else {
          assert s.sent[ws] + [] == s.sent[ws];
        }
      }
    }

    method BroadcastExit()
      requires clients.Keys <= sent.Keys
      modifies this`sent
      ensures State() == Broadcast(old(State()), subs => [Exit])
    {
      ghost var s := State();
      var rest := clients.Keys;
      while rest != {}
        invariant rest <= clients.Keys && sent.Keys == s.sent.Keys
        invariant forall ws :: ws in s.sent ==>
                    sent[ws] == (if ws in clients && ws !in rest then Deliver(s, ws, [Exit]) else s.sent[ws])
        decreases rest
      {
        var ws :| ws in rest;
        rest := rest - {ws};
        Send(ws, Exit);
      }
    }

    // ---- The host connection ----

    method ResetRing()
      requires Valid()
      modifies this`ring, this`ringBytes, this`lastSeq, this`authorized, this`sent
      ensures Valid() && State() == ResetForSpawn(old(State()))
      ensures spawns == old(spawns)
    {
      ring, ringBytes, lastSeq, authorized := [], 0, 0, None;
      SnapshotEverySurface();
    }

    method AdoptProducer(p: Producer)
      requires Valid()
      modifies this`producer, this`producers
      ensures Valid() && State() == TakeProducer(old(State()), p)
      ensures producer.Some? && producer.value < |producers|
    {
      if producer.None? || producers[producer.value] != p {
        producer := Some(|producers|);
        producers := producers + [p];
      }
    }

    method ResolveIdentity(provider: string, binding: Binding) returns (id: Option<string>)
      ensures id == KnownIdentity(State(), provider, binding)
    {
      id := None;
      if authorized.Some? && producer == Some(authorized.value.producer) {
        id := Some(authorized.value.providerSession);
      } else if binding.Bound? && binding.provider == provider {
        id := binding.providerSession;
      }
    }

    method BeginEpoch(spawn: Spawn)
      requires Valid()
      modifies this`ring, this`ringBytes, this`lastSeq, this`authorized, this`sent, this`lastHostPid, this`spawns
      ensures Valid() && State() == EnterEpoch(old(State()), spawn)
    {
      hide TotalBytes;
      var changed := producer.Some? && (producers[producer.value] != spawn.producer || lastHostPid != Some(spawn.pid));
      if changed { ResetRing(); }
      lastHostPid := Some(spawn.pid);
      if changed || producer.None? { spawns := spawns + [spawn]; }
    }

    method HandleHostHello(ws: HostSocket, spawn: Spawn, binding: Binding)
      requires Valid()
      modifies this
      ensures Valid() && State() == Hello(old(State()), ws, spawn, binding)
    {
      hide TotalBytes, EnterEpoch, TakeProducer, KnownIdentity;
      BeginEpoch(spawn);
      AdoptProducer(spawn.producer);
      var id := ResolveIdentity(spawn.producer.provider, binding);
      if id.Some? { authorized := Some(Authorization(producer.value, id.value)); }
      host := Some(|hosts|);
      hosts := hosts + [Host(ws, spawn, producer.value, id, id)];
    }

    method HandleHostFrame(from: HostId, event: Event)
      requires Valid()
      modifies this`queue
      ensures Valid() && State() == HostFrame(old(State()), from, event)
    {
      if host == Some(from) { queue := queue + [Queued(from, event)]; }
    }

    method RetainHostEvent(event: Event)
      requires Valid()
      modifies this`ring, this`ringBytes, this`lastSeq
      ensures Valid() && State() == Retain(limits, old(State()), event)
    {
      lastSeq := event.seqNo;
      if IsTransient(event) || event.bytes > limits.ringMaxBytes { return; }
      TotalBytesSnoc(ring, event);
      ring := ring + [event];
      ringBytes := ringBytes + event.bytes;
      ghost var pushed := ring;
      while |ring| > limits.ringSize || ringBytes > limits.ringMaxBytes
        invariant ringBytes == TotalBytes(ring) && LongestFit(limits, ring) == LongestFit(limits, pushed)
        invariant lastSeq == event.seqNo
        decreases |ring|
      {
        ringBytes := ringBytes - ring[0].bytes;
        ring := ring[1..];
      }
      assert LongestFit(limits, ring) == ring == LongestFit(limits, old(ring) + [event]);
    }

    method Accept(from: HostId, event: Event)
      requires Valid() && from < |hosts|
      modifies this
      ensures Valid() && State() == Commit(limits, old(State()), from, event)
    {
      ghost var s := State();
      RetainHostEvent(event);
      FanEventToSurfaces(event, accepted);
      log := log + [Accepted(Epoch(s), from, event)];
      accepted := accepted + 1;
    }

    method RejectProviderIdentity(from: HostId)
      requires Valid() && from < |hosts|
      modifies this`authorized, this`hosts, this`host
      ensures Valid() && State() == Reject(old(State()), from)
    {
      if authorized.Some? && authorized.value.producer == hosts[from].producer { authorized := None; }
      hosts := hosts[from := hosts[from].(providerSession := None)];
      if host == Some(from) { host := None; }
    }

    /** Takes the next queued event up to its first await. */
    method HandleHostEvent()
      requires Valid()
      modifies this
      ensures Valid() && State() == NextEvent(limits, old(State()))
    {
      if pipeline != Idle || queue == [] { return; }
      var from, event := queue[0].host, queue[0].event;
      queue := queue[1..];
      if host != Some(from) || event.seqNo <= lastSeq { return; }
      var known := hosts[from].providerSession;
      if event.kind == SessionInfo && event.agentSessionId == "" && known.Some? { return; }
      if event.kind == SessionInfo && event.agentSessionId != "" {
        if known.Some? && known.value != event.agentSessionId {
          RejectProviderIdentity(from);
          pipeline := Busy(from, event, AwaitingRetirement);
        } else {
          pipeline := Busy(from, event, AwaitingBind);
        }
        return;
      }
      Accept(from, event);
    }

    /** Resumes after `await bindProviderSession`. */
    method ResumeAfterBind(ok: bool)
      requires Valid()
      modifies this
      ensures Valid() && State() == BindSettled(old(State()), ok)
    {
      if pipeline.Idle? || pipeline.stage != AwaitingBind { return; }
      if !ok {
        RejectProviderIdentity(pipeline.host);
        pipeline := pipeline.(stage := AwaitingRetirement);
      } else if host != Some(pipeline.host) {
        pipeline := Idle;
      } else {
        pipeline := pipeline.(stage := AwaitingCompletion);
      }
    }

    /** Resumes after `await completeLaunchAuthorization`. */
    method ResumeAfterCompletion(ok: bool)
      requires Valid()
      modifies this
      ensures Valid() && State() == CompletionSettled(limits, old(State()), ok)
    {
      if pipeline.Idle? || pipeline.stage != AwaitingCompletion { return; }
      var from, event := pipeline.host, pipeline.event;
      if !ok {
        RejectProviderIdentity(from);
        pipeline := pipeline.(stage := AwaitingRetirement);
        return;
      }
      pipeline := Idle;
      if host != Some(from) { return; }
      var h := hosts[from];
      hosts := hosts[from := h.(providerSession := Some(event.agentSessionId),
                                bound := if h.bound.None? then Some(event.agentSessionId) else h.bound)];
      authorized := Some(Authorization(h.producer, event.agentSessionId));
      Accept(from, event);
    }

    method ResumeAfterRetirement()
      requires Valid()
      modifies this`pipeline
      ensures Valid() && State() == RetirementSettled(old(State()))
    {
      if pipeline.Busy? && pipeline.stage == AwaitingRetirement { pipeline := Idle; }
    }

    method HandleHostGone(ws: HostSocket)
      requires Valid()
      modifies this
      ensures Valid() && State() == HostGone(old(State()), ws)
    {
      if host.Some? && hosts[host.value].ws == ws {
        host := None;
        BroadcastExit();
      }
    }

    // ---- Browser surfaces ----

    method AddBrowserClient(ws: Socket)
      requires Valid()
      modifies this`open, this`sent
      ensures Valid() && State() == Connect(old(State()), ws)
    {
      if ws !in sent {
        open := open + {ws};
        sent := sent[ws := [Ready]];
      }
    }

    method BrowserSubscribe(ws: Socket, surface: SurfaceId, visible: bool)
      requires Valid()
      modifies this`clients, this`sent
      ensures Valid() && State() == Subscribe(old(State()), ws, surface, visible)
    {
      if ws !in sent { return; }
      var subs := if ws in clients then clients[ws] else [];
      clients := clients[ws := SetSubscription(subs, surface, visible)];
      if visible { SendSnapshotTo(ws, surface); }
    }

    /** Refused, with nothing changed, for a surface that is not subscribed. */
    method BrowserSetVisibility(ws: Socket, surface: SurfaceId, visible: bool) returns (ok: bool)
      requires Valid()
      modifies this`clients, this`sent
      ensures Valid() && State() == SetVisibility(old(State()), ws, surface, visible)
      ensures ok <==> Subscribed(old(State()), ws, surface)
    {
      ok := ws in clients && exists i :: 0 <= i < |clients[ws]| && clients[ws][i].surface == surface;
      if !ok { return; }
      clients := clients[ws := SetSubscription(clients[ws], surface, visible)];
      if visible { SendSnapshotTo(ws, surface); }
    }

    method UnsubscribeResolved(ws: Socket, surface: SurfaceId)
      requires Valid()
      modifies this`clients
      ensures Valid() && State() == Unsubscribe(old(State()), ws, surface)
    {
      if ws !in clients { return; }
      var rest := DropSubscription(clients[ws], surface);
      if rest == [] { clients := clients - {ws}; } else { clients := clients[ws := rest]; }
    }

    method RemoveBrowserClient(ws: Socket)
      requires Valid()
      modifies this`clients
      ensures Valid() && State() == RemoveClient(old(State()), ws)
    {
      clients := clients - {ws};
    }
  }

  lemma {:induction false} SameSnapshots(s: Session, n: Session, subs: seq<Subscription>)
    requires s.ring == n.ring && s.lastSeq == n.lastSeq
    ensures Snapshots(s, subs) == Snapshots(n, subs)
    decreases |subs|
  {
    if subs != [] { SameSnapshots(s, n, subs[1..]); }
  }
}
