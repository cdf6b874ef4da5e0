/** What every interleaving of host and browser traffic keeps. */
module BrokerTheorems {
  import opened Common
  import opened Broker

  // ---- The longest fitting suffix ----

  lemma {:induction false} TotalBytesSnoc(events: seq<Event>, e: Event)
    ensures TotalBytes(events + [e]) == TotalBytes(events) + e.bytes
    decreases |events|
  {
    if events == [] {
      assert events + [e] == [e] && [e][1..] == [];
    } else {
      assert (events + [e])[0] == events[0] && (events + [e])[1..] == events[1..] + [e];
      TotalBytesSnoc(events[1..], e);
    }
  }

  /** Cutting early and appending later is the same as cutting once. */
  lemma {:induction false} LongestFitSnoc(limits: Limits, events: seq<Event>, e: Event)
    ensures LongestFit(limits, LongestFit(limits, events) + [e]) == LongestFit(limits, events + [e])
    decreases |events|
  {
    if !Fits(limits, events) {
      TotalBytesSnoc(events, e);
      assert !Fits(limits, events + [e]);
      assert (events + [e])[1..] == events[1..] + [e];
      LongestFitSnoc(limits, events[1..], e);
    }
  }

  /** It is a suffix that fits, and no longer suffix does. */
  lemma {:induction false} LongestFitMeaning(limits: Limits, events: seq<Event>)
    ensures
      var ring := LongestFit(limits, events);
      && |ring| <= |events| && ring == events[|events| - |ring|..] && Fits(limits, ring)
      && forall k :: 0 <= k < |events| - |ring| ==> !Fits(limits, events[k..])
    decreases |events|
  {
    if Fits(limits, events) {
      assert events[0..] == events;
    } else {
      LongestFitMeaning(limits, events[1..]);
      var ring := LongestFit(limits, events);
      forall k | 0 <= k < |events| - |ring| ensures !Fits(limits, events[k..]) {
        if k > 0 { assert events[k..] == events[1..][k - 1..]; } else { assert events[0..] == events; }
      }
    }
  }

  // ---- The accepted events of the current spawn ----

  /** The events accepted under one epoch, in order. */
  function EventsOf(log: seq<Accepted>, epoch: nat): seq<Event> {
    if log == [] then []
    else
      var earlier := EventsOf(log[..|log| - 1], epoch);
      var last := log[|log| - 1];
      if last.epoch == epoch then earlier + [last.event] else earlier
  }

  function KeptOf(limits: Limits, events: seq<Event>): seq<Event> {
    if events == [] then []
    else
      var earlier := KeptOf(limits, events[..|events| - 1]);
      var last := events[|events| - 1];
      if Keeps(limits, last) then earlier + [last] else earlier
  }

  lemma EventsOfSnoc(log: seq<Accepted>, entry: Accepted, epoch: nat)
    ensures EventsOf(log + [entry], epoch) == EventsOf(log, epoch) + (if entry.epoch == epoch then [entry.event] else [])
  {
    assert (log + [entry])[..|log|] == log;
  }

  lemma {:induction false} NoEventsYet(log: seq<Accepted>, epoch: nat)
    requires forall i :: 0 <= i < |log| ==> log[i].epoch < epoch
    ensures EventsOf(log, epoch) == []
    decreases |log|
  {
    if log != [] { NoEventsYet(log[..|log| - 1], epoch); }
  }

  // ---- Invariants ----

  /** Every host carries the producer of its spawn, and the current host is of the current spawn. */
  ghost predicate SpawnsAgree(s: Session)
    requires WellFormed(s)
  {
    && (forall h :: 0 <= h < |s.hosts| ==>
          s.hosts[h].producer < |s.producers| && s.producers[s.hosts[h].producer] == s.hosts[h].spawn.producer)
    && (s.producer.Some? <==> s.spawns != [])
    && (s.producer.Some? ==>
          s.producers[s.producer.value] == s.spawns[Epoch(s)].producer && s.lastPid == Some(s.spawns[Epoch(s)].pid))
    && (s.host.Some? ==> s.spawns != [] && s.hosts[s.host.value].spawn == s.spawns[Epoch(s)])
  }

  /** Each accepted event came from a host of the spawn it was accepted under. */
  ghost predicate LogAgrees(s: Session) {
    forall i :: 0 <= i < |s.log| ==>
      && s.log[i].epoch < |s.spawns| && s.log[i].host < |s.hosts|
      && s.hosts[s.log[i].host].spawn == s.spawns[s.log[i].epoch]
  }

  ghost predicate Increasing(events: seq<Event>) {
    forall i, j :: 0 <= i < j < |events| ==> events[i].seqNo < events[j].seqNo
  }

  /** The ring is the longest fitting suffix of what the current spawn had
      accepted and kept; sequence numbers rise to `lastSeq`. */
  ghost predicate RingExact(limits: Limits, s: Session) {
    var current := EventsOf(s.log, Epoch(s));
    && s.ring == LongestFit(limits, KeptOf(limits, current))
    && s.ringBytes == TotalBytes(s.ring)
    && Increasing(current)
    && (forall i :: 0 <= i < |current| ==> 0 < current[i].seqNo <= s.lastSeq)
    && (s.lastSeq == if current == [] then 0 else current[|current| - 1].seqNo)
  }

  /** A host that lost its provider session is no longer current. */
  ghost predicate IdentitiesAgree(s: Session) {
    forall h :: 0 <= h < |s.hosts| ==>
      && (s.hosts[h].providerSession.Some? ==> s.hosts[h].bound == s.hosts[h].providerSession)
      && (s.hosts[h].bound.Some? && s.hosts[h].providerSession.None? ==> s.host != Some(h))
  }

  /** While its host stays current, a pending event stays new and agrees with the host's identity. */
  ghost predicate PipelineAgrees(s: Session) {
    s.pipeline.Busy? && s.pipeline.stage != AwaitingRetirement && s.host == Some(s.pipeline.host) && s.pipeline.host < |s.hosts| ==>
      && s.lastSeq < s.pipeline.event.seqNo && NamesSession(s.pipeline.event)
      && (s.hosts[s.pipeline.host].providerSession.None?
          || s.hosts[s.pipeline.host].providerSession == Some(s.pipeline.event.agentSessionId))
  }

  ghost predicate SocketsAgree(s: Session) {
    s.open <= s.sent.Keys && s.clients.Keys <= s.sent.Keys
  }

  /** The last snapshot of a surface, followed by the kept events framed after it. */
  function ViewOf(limits: Limits, frames: seq<Frame>, surface: SurfaceId): Option<seq<Event>> {
    if frames == [] then None
    else
      var earlier := ViewOf(limits, frames[..|frames| - 1], surface);
      match frames[|frames| - 1]
      case Snapshot(of, _, events) => if of == surface then Some(events) else earlier
      case EventFrame(e, _) => if Keeps(limits, e) && earlier.Some? then Some(earlier.value + [e]) else earlier
      case _ => earlier
  }

  ghost predicate Visible(s: Session, ws: Socket, surface: SurfaceId) {
    ws in s.clients && exists i :: 0 <= i < |s.clients[ws]| && s.clients[ws][i] == Subscription(surface, true)
  }

  ghost predicate ViewAgrees(limits: Limits, s: Session, ws: Socket, surface: SurfaceId)
    requires ws in s.sent
  {
    var view := ViewOf(limits, s.sent[ws], surface);
    view.Some? && LongestFit(limits, view.value) == s.ring
  }

  ghost predicate ViewsAgree(limits: Limits, s: Session) {
    forall ws, surface :: ws in s.open && ws in s.sent && Visible(s, ws, surface) ==> ViewAgrees(limits, s, ws, surface)
  }

  /** The events framed on a socket are accepted ones, in order, none twice. */
  ghost predicate OnceEach(s: Session, frames: seq<Frame>) {
    && (forall i :: 0 <= i < |frames| && frames[i].EventFrame? ==>
          frames[i].index < |s.log| && s.log[frames[i].index].event == frames[i].event)
    && (forall i, j :: 0 <= i < j < |frames| && frames[i].EventFrame? && frames[j].EventFrame? ==> frames[i].index < frames[j].index)
  }

  ghost predicate FramesAgree(s: Session) {
    forall ws :: ws in s.sent ==> OnceEach(s, s.sent[ws])
  }

  ghost predicate Inv(limits: Limits, s: Session) {
    && WellFormed(s) && SpawnsAgree(s) && LogAgrees(s) && RingExact(limits, s)
    && IdentitiesAgree(s) && PipelineAgrees(s)
    && SocketsAgree(s) && ViewsAgree(limits, s) && FramesAgree(s)
  }

  lemma InitInv(limits: Limits)
    ensures Inv(limits, NewSession)
  {
  }

  // ---- Frames sent ----

  /** After a snapshot for every surface of a socket, each of its surfaces shows the ring. */
  lemma {:induction false} SnapshotsView(limits: Limits, s: Session, frames: seq<Frame>, subs: seq<Subscription>, surface: SurfaceId)
    ensures
      var view := ViewOf(limits, frames + Snapshots(s, subs), surface);
      if exists i :: 0 <= i < |subs| && subs[i].surface == surface then view == Some(s.ring) else view == ViewOf(limits, frames, surface)
    decreases |subs|
  {
    if subs == [] {
      assert frames + Snapshots(s, subs) == frames;
    } else {
      var first := SnapshotFor(s, subs[0].surface);
      assert frames + Snapshots(s, subs) == frames + [first] + Snapshots(s, subs[1..]);
      SnapshotsView(limits, s, frames + [first], subs[1..], surface);
      if i :| 0 <= i < |subs| && subs[i].surface == surface {
        if i > 0 { assert subs[1..][i - 1].surface == surface; }
      }
    }
  }

  lemma OnceSnoc(s: Session, frames: seq<Frame>, f: Frame)
    requires OnceEach(s, frames)
    requires f.EventFrame? ==> f.index == |s.log| - 1 && f.index >= 0 && s.log[f.index].event == f.event
    requires f.EventFrame? ==> forall i :: 0 <= i < |frames| && frames[i].EventFrame? ==> frames[i].index < f.index
    ensures OnceEach(s, frames + [f])
  {
  }

  lemma {:induction false} OnceSnapshots(s: Session, of: Session, frames: seq<Frame>, subs: seq<Subscription>)
    requires OnceEach(s, frames)
    ensures OnceEach(s, frames + Snapshots(of, subs))
    decreases |subs|
  {
    if subs == [] {
      assert frames + Snapshots(of, subs) == frames;
    } else {
      var first := SnapshotFor(of, subs[0].surface);
      OnceSnoc(s, frames, first);
      assert frames + Snapshots(of, subs) == frames + [first] + Snapshots(of, subs[1..]);
      OnceSnapshots(s, of, frames + [first], subs[1..]);
    }
  }

  // ---- Accepting an event ----

  lemma CommitRing(limits: Limits, s: Session, host: HostId, e: Event)
    requires RingExact(limits, s) && e.seqNo > s.lastSeq
    ensures RingExact(limits, Commit(limits, s, host, e))
  {
    var n := Commit(limits, s, host, e);
    var current := EventsOf(s.log, Epoch(s));
    EventsOfSnoc(s.log, Accepted(Epoch(s), host, e), Epoch(s));
    LongestFitSnoc(limits, KeptOf(limits, current), e);
    assert EventsOf(n.log, Epoch(n)) == current + [e];
  }

  lemma CommitViews(limits: Limits, s: Session, host: HostId, e: Event)
    requires RingExact(limits, s) && SocketsAgree(s) && ViewsAgree(limits, s)
    ensures SocketsAgree(Commit(limits, s, host, e)) && ViewsAgree(limits, Commit(limits, s, host, e))
  {
    var n := Commit(limits, s, host, e);
    forall ws, surface | ws in n.open && ws in n.sent && Visible(n, ws, surface)
      ensures ViewAgrees(limits, n, ws, surface)
    {
      assert Visible(s, ws, surface) && ViewAgrees(limits, s, ws, surface);
      var frames := EventFrames(e, |s.log|, s.clients[ws]);
      assert n.sent[ws] == s.sent[ws] + frames;
      if frames == [] {
        assert s.sent[ws] + frames == s.sent[ws];
      } else {
        LongestFitSnoc(limits, ViewOf(limits, s.sent[ws], surface).value, e);
      }
    }
  }

  lemma CommitFrames(limits: Limits, s: Session, host: HostId, e: Event)
    requires FramesAgree(s)
    ensures FramesAgree(Commit(limits, s, host, e))
  {
  }

  lemma CommitShape(limits: Limits, s: Session, host: HostId, e: Event)
    ensures
      var n := Commit(limits, s, host, e);
      && n == s.(lastSeq := e.seqNo, ring := n.ring, ringBytes := n.ringBytes, sent := n.sent, log := n.log)
      && n.log == s.log + [Accepted(Epoch(s), host, e)]
  {
  }

  /** Accepting an event of the current host keeps everything. */
  lemma CommitInv(limits: Limits, s: Session, host: HostId, e: Event)
    requires Inv(limits, s) && s.host == Some(host) && e.seqNo > s.lastSeq && s.pipeline == Idle
    ensures Inv(limits, Commit(limits, s, host, e))
  {
    CommitRing(limits, s, host, e);
    CommitViews(limits, s, host, e);
    CommitFrames(limits, s, host, e);
    CommitShape(limits, s, host, e);
    hide Commit, RingExact, ViewsAgree, FramesAgree, SocketsAgree;
  }

  // ---- Hellos ----

  /** What a hello does to ring, log and spawns. */
  lemma HelloShape(s: Session, ws: HostSocket, spawn: Spawn, binding: Binding)
    requires WellFormed(s)
    ensures
      var n := Hello(s, ws, spawn, binding);
      && n.log == s.log
      && n.spawns == (if ChangedSpawn(s, spawn) || s.producer.None? then s.spawns + [spawn] else s.spawns)
      && (if ChangedSpawn(s, spawn) then n.ring == [] && n.ringBytes == 0 && n.lastSeq == 0
          else n.ring == s.ring && n.ringBytes == s.ringBytes && n.lastSeq == s.lastSeq)
  {
  }

  lemma HelloRing(limits: Limits, s: Session, ws: HostSocket, spawn: Spawn, binding: Binding)
    requires WellFormed(s) && SpawnsAgree(s) && LogAgrees(s) && RingExact(limits, s)
    ensures RingExact(limits, Hello(s, ws, spawn, binding))
  {
    HelloShape(s, ws, spawn, binding);
    hide Hello;
    var n := Hello(s, ws, spawn, binding);
    if ChangedSpawn(s, spawn) || s.producer.None? {
      assert forall i :: 0 <= i < |s.log| ==> s.log[i].epoch < Epoch(n);
      NoEventsYet(s.log, Epoch(n));
    }
  }

  lemma HelloViews(limits: Limits, s: Session, ws: HostSocket, spawn: Spawn, binding: Binding)
    requires WellFormed(s) && SocketsAgree(s) && ViewsAgree(limits, s)
    ensures SocketsAgree(Hello(s, ws, spawn, binding)) && ViewsAgree(limits, Hello(s, ws, spawn, binding))
  {
    var n := Hello(s, ws, spawn, binding);
    if ChangedSpawn(s, spawn) {
      var cleared := s.(ring := [], ringBytes := 0, lastSeq := 0, authorized := None);
      forall w, surface | w in n.open && w in n.sent && Visible(n, w, surface)
        ensures ViewAgrees(limits, n, w, surface)
      {
        SnapshotsView(limits, cleared, s.sent[w], s.clients[w], surface);
        assert n.sent[w] == s.sent[w] + Snapshots(cleared, s.clients[w]);
      }
    } else {
      forall w, surface | w in n.open && w in n.sent && Visible(n, w, surface)
        ensures ViewAgrees(limits, n, w, surface)
      {
        assert Visible(s, w, surface) && ViewAgrees(limits, s, w, surface);
      }
    }
  }

  lemma HelloFrames(s: Session, ws: HostSocket, spawn: Spawn, binding: Binding)
    requires WellFormed(s) && FramesAgree(s)
    ensures FramesAgree(Hello(s, ws, spawn, binding))
  {
    var n := Hello(s, ws, spawn, binding);
    var cleared := s.(ring := [], ringBytes := 0, lastSeq := 0, authorized := None);
    forall w | w in n.sent ensures OnceEach(n, n.sent[w]) {
      assert OnceEach(s, s.sent[w]);
      assert OnceEach(n, s.sent[w]);
      if w in s.clients { OnceSnapshots(n, cleared, s.sent[w], s.clients[w]); }
    }
  }

  /** What a hello does to the objects of the host side. */
  lemma HelloObjects(s: Session, ws: HostSocket, spawn: Spawn, binding: Binding)
    requires WellFormed(s)
    ensures
      var n := Hello(s, ws, spawn, binding);
      && n.queue == s.queue && n.pipeline == s.pipeline && n.lastPid == Some(spawn.pid)
      && |n.hosts| == |s.hosts| + 1 && n.hosts[..|s.hosts|] == s.hosts && n.host == Some(|s.hosts|)
      && n.producer.Some? && n.producer.value < |n.producers| && n.producers[n.producer.value] == spawn.producer
      && |s.producers| <= |n.producers| && n.producers[..|s.producers|] == s.producers
      && var h := n.hosts[|s.hosts|]; h.spawn == spawn && Some(h.producer) == n.producer && h.bound == h.providerSession
  {
    hide KnownIdentity;
  }

  lemma HelloSpawn(s: Session, ws: HostSocket, spawn: Spawn, binding: Binding)
    requires WellFormed(s) && SpawnsAgree(s)
    ensures var n := Hello(s, ws, spawn, binding); n.spawns != [] && n.spawns[Epoch(n)] == spawn
  {
    HelloShape(s, ws, spawn, binding);
    hide Hello;
  }

  lemma HelloSpawns(s: Session, ws: HostSocket, spawn: Spawn, binding: Binding)
    requires WellFormed(s) && SpawnsAgree(s)
    ensures WellFormed(Hello(s, ws, spawn, binding)) && SpawnsAgree(Hello(s, ws, spawn, binding))
  {
    HelloObjects(s, ws, spawn, binding);
    HelloSpawn(s, ws, spawn, binding);
    hide Hello, Epoch;
    var n := Hello(s, ws, spawn, binding);
    assert forall h :: 0 <= h < |s.hosts| ==> n.hosts[h] == n.hosts[..|s.hosts|][h] == s.hosts[h];
    assert forall p :: 0 <= p < |s.producers| ==> n.producers[p] == n.producers[..|s.producers|][p] == s.producers[p];
  }

  lemma HelloHosts(s: Session, ws: HostSocket, spawn: Spawn, binding: Binding)
    requires WellFormed(s) && LogAgrees(s) && IdentitiesAgree(s)
    ensures
      var n := Hello(s, ws, spawn, binding);
      LogAgrees(n) && IdentitiesAgree(n) && (WellFormed(n) ==> PipelineAgrees(n))
  {
  }

  lemma HelloInv(limits: Limits, s: Session, ws: HostSocket, spawn: Spawn, binding: Binding)
    requires Inv(limits, s)
    ensures Inv(limits, Hello(s, ws, spawn, binding))
  {
    HelloRing(limits, s, ws, spawn, binding);
    HelloViews(limits, s, ws, spawn, binding);
    HelloFrames(s, ws, spawn, binding);
    HelloSpawns(s, ws, spawn, binding);
    HelloHosts(s, ws, spawn, binding);
    hide Hello, RingExact, ViewsAgree, FramesAgree, LogAgrees, IdentitiesAgree;
  }

  // ---- The segments of an event ----

  /** Steps that touch neither ring, log, spawns nor sockets keep what is about them. */
  ghost predicate SameTraffic(s: Session, n: Session) {
    && n.ring == s.ring && n.ringBytes == s.ringBytes && n.lastSeq == s.lastSeq
    && n.log == s.log && n.spawns == s.spawns && n.clients == s.clients && n.open == s.open && n.sent == s.sent
  }

  lemma SameTrafficKeeps(limits: Limits, s: Session, n: Session)
    requires SameTraffic(s, n) && RingExact(limits, s) && SocketsAgree(s) && ViewsAgree(limits, s) && FramesAgree(s)
    ensures RingExact(limits, n) && SocketsAgree(n) && ViewsAgree(limits, n) && FramesAgree(n)
  {
    forall ws, surface | ws in n.open && ws in n.sent && Visible(n, ws, surface)
      ensures ViewAgrees(limits, n, ws, surface)
    {
      assert Visible(s, ws, surface) && ViewAgrees(limits, s, ws, surface);
    }
    forall ws | ws in n.sent ensures OnceEach(n, n.sent[ws]) { assert OnceEach(s, s.sent[ws]); }
  }

  /** What a rejection leaves of the objects of the host side. */
  lemma RejectObjects(s: Session, host: HostId)
    requires host < |s.hosts|
    ensures
      var n := Reject(s, host);
      && n == s.(hosts := n.hosts, host := n.host, authorized := n.authorized)
      && |n.hosts| == |s.hosts| && (n.host == s.host || n.host == None) && n.host != Some(host)
      && (forall h :: 0 <= h < |s.hosts| && h != host ==> n.hosts[h] == s.hosts[h])
      && n.hosts[host] == s.hosts[host].(providerSession := None, bound := s.hosts[host].bound)
  {
  }

  lemma RejectHosts(s: Session, host: HostId)
    requires WellFormed(s) && SpawnsAgree(s) && LogAgrees(s) && IdentitiesAgree(s) && host < |s.hosts|
    ensures
      var n := Reject(s, host);
      WellFormed(n) && SpawnsAgree(n) && LogAgrees(n) && IdentitiesAgree(n)
  {
    RejectObjects(s, host);
    hide Reject;
    var n := Reject(s, host);
    assert forall h :: 0 <= h < |s.hosts| ==> n.hosts[h].spawn == s.hosts[h].spawn && n.hosts[h].producer == s.hosts[h].producer;
  }

  lemma RejectInv(limits: Limits, s: Session, host: HostId, pipeline: Pipeline)
    requires Inv(limits, s) && host < |s.hosts|
    requires pipeline.Busy? && pipeline.host == host && pipeline.stage == AwaitingRetirement
    ensures Inv(limits, Reject(s, host).(pipeline := pipeline))
  {
    RejectHosts(s, host);
    RejectTraffic(s, host, pipeline);
    hide Reject;
    SameTrafficKeeps(limits, s, Reject(s, host).(pipeline := pipeline));
  }

  lemma RejectTraffic(s: Session, host: HostId, pipeline: Pipeline)
    requires host < |s.hosts|
    ensures SameTraffic(s, Reject(s, host).(pipeline := pipeline))
    ensures |Reject(s, host).hosts| == |s.hosts|
  {
  }

  lemma PipelineInv(limits: Limits, s: Session, pipeline: Pipeline)
    requires Inv(limits, s) && (pipeline.Busy? ==> pipeline.host < |s.hosts|)
    requires PipelineAgrees(s.(pipeline := pipeline))
    ensures Inv(limits, s.(pipeline := pipeline))
  {
    SameTrafficKeeps(limits, s, s.(pipeline := pipeline));
    hide RingExact, ViewsAgree, SocketsAgree, FramesAgree;
  }

  lemma NextEventInv(limits: Limits, s: Session)
    requires Inv(limits, s)
    ensures Inv(limits, NextEvent(limits, s))
  {
    if s.pipeline != Idle || s.queue == [] { return; }
    var q, host, e := s.(queue := s.queue[1..]), s.queue[0].host, s.queue[0].event;
    SameTrafficKeeps(limits, s, q);
    assert Inv(limits, q);
    var known := s.hosts[host].providerSession;
    if s.host != Some(host) || e.seqNo <= s.lastSeq || (e.kind == SessionInfo && !NamesSession(e) && known.Some?) {
    } else if !NamesSession(e) {
      CommitInv(limits, q, host, e);
    } else if known.Some? && known.value != e.agentSessionId {
      RejectInv(limits, q, host, Busy(host, e, AwaitingRetirement));
    } else {
      PipelineInv(limits, q, Busy(host, e, AwaitingBind));
    }
  }

  lemma BindInv(limits: Limits, s: Session, accepted: bool)
    requires Inv(limits, s)
    ensures Inv(limits, BindSettled(s, accepted))
  {
    if !(s.pipeline.Busy? && s.pipeline.stage == AwaitingBind) { return; }
    if !accepted {
      RejectInv(limits, s, s.pipeline.host, s.pipeline.(stage := AwaitingRetirement));
    } else if s.host != Some(s.pipeline.host) {
      PipelineInv(limits, s, Idle);
    } else {
      PipelineInv(limits, s, s.pipeline.(stage := AwaitingCompletion));
    }
  }

  lemma CompletionInv(limits: Limits, s: Session, accepted: bool)
    requires Inv(limits, s)
    ensures Inv(limits, CompletionSettled(limits, s, accepted))
  {
    if !(s.pipeline.Busy? && s.pipeline.stage == AwaitingCompletion) { return; }
    var host, e := s.pipeline.host, s.pipeline.event;
    if !accepted {
      RejectInv(limits, s, host, s.pipeline.(stage := AwaitingRetirement));
    } else if s.host != Some(host) {
      PipelineInv(limits, s, Idle);
    } else {
      AuthorizeInv(limits, s);
      CommitInv(limits, Authorized(s), host, e);
    }
  }

  /** The session just before a completed identity event is accepted. */
  function Authorized(s: Session): Session
    requires s.pipeline.Busy? && s.pipeline.host < |s.hosts|
  {
    var host, id := s.pipeline.host, s.pipeline.event.agentSessionId;
    SetProviderSession(s, host, Some(id)).(authorized := Some(Authorization(s.hosts[host].producer, id)), pipeline := Idle)
  }

  lemma AuthorizeInv(limits: Limits, s: Session)
    requires Inv(limits, s) && s.pipeline.Busy? && s.pipeline.stage == AwaitingCompletion && s.host == Some(s.pipeline.host)
    ensures Inv(limits, Authorized(s))
  {
    SameTrafficKeeps(limits, s, Authorized(s));
  }

  // ---- Closing sockets and browser traffic ----

  lemma GoneInv(limits: Limits, s: Session, ws: HostSocket)
    requires Inv(limits, s)
    ensures Inv(limits, HostGone(s, ws))
  {
    var n := HostGone(s, ws);
    if s.host.None? || s.hosts[s.host.value].ws != ws { return; }
    ExitViews(limits, s, n);
    ExitFrames(s, n);
  }

  lemma ExitViews(limits: Limits, s: Session, n: Session)
    requires SocketsAgree(s) && ViewsAgree(limits, s) && n == Broadcast(s.(host := None), subs => [Exit])
    ensures ViewsAgree(limits, n)
  {
    forall w, surface | w in n.open && w in n.sent && Visible(n, w, surface)
      ensures ViewAgrees(limits, n, w, surface)
    {
      assert Visible(s, w, surface) && ViewAgrees(limits, s, w, surface);
      assert n.sent[w] == s.sent[w] + [Exit];
    }
  }

  lemma ExitFrames(s: Session, n: Session)
    requires FramesAgree(s) && n == Broadcast(s.(host := None), subs => [Exit])
    ensures FramesAgree(n)
  {
  }

  /** Steps of the browser side leave the host side alone. */
  ghost predicate SameHostSide(s: Session, n: Session) {
    n == s.(clients := n.clients, open := n.open, sent := n.sent)
  }

  lemma SameHostSideKeeps(limits: Limits, s: Session, n: Session)
    requires Inv(limits, s) && SameHostSide(s, n) && SocketsAgree(n) && ViewsAgree(limits, n) && FramesAgree(n)
    ensures Inv(limits, n)
  {
  }

  lemma {:induction false} SetMeaning(subs: seq<Subscription>, surface: SurfaceId, visible: bool, sub: Subscription)
    requires sub in SetSubscription(subs, surface, visible)
    ensures sub == Subscription(surface, visible) || sub in subs
    decreases |subs|
  {
    if subs != [] && subs[0].surface != surface && sub != subs[0] {
      SetMeaning(subs[1..], surface, visible, sub);
    }
  }

  /** Replacing one subscription, with a snapshot when it becomes visible. */
  lemma ResubscribeInv(limits: Limits, s: Session, ws: Socket, surface: SurfaceId, visible: bool, subs: seq<Subscription>)
    requires Inv(limits, s) && ws in s.sent
    requires subs == if ws in s.clients then s.clients[ws] else []
    ensures
      var s1 := s.(clients := s.clients[ws := SetSubscription(subs, surface, visible)]);
      Inv(limits, if visible then SendSnapshot(s1, ws, surface) else s1)
  {
    var s1 := s.(clients := s.clients[ws := SetSubscription(subs, surface, visible)]);
    var n := if visible then SendSnapshot(s1, ws, surface) else s1;
    var frame := SnapshotFor(s1, surface);
    forall w, f | w in n.open && w in n.sent && Visible(n, w, f) ensures ViewAgrees(limits, n, w, f) {
      if w == ws {
        SetMeaning(subs, surface, visible, Subscription(f, true));
        if f == surface && visible {
          RingFits(limits, s);
        } else {
          assert Visible(s, ws, f) by { SubscriptionAt(subs, Subscription(f, true)); }
          assert ViewAgrees(limits, s, ws, f);
        }
      } else {
        assert Visible(s, w, f) && ViewAgrees(limits, s, w, f);
      }
    }
    forall w | w in n.sent ensures OnceEach(n, n.sent[w]) {
      assert OnceEach(s, s.sent[w]);
      assert OnceEach(n, s.sent[w]);
      if w == ws { OnceSnoc(n, s.sent[w], frame); }
    }
    SameHostSideKeeps(limits, s, n);
  }

  lemma SubscriptionAt(subs: seq<Subscription>, sub: Subscription)
    requires sub in subs
    ensures exists i :: 0 <= i < |subs| && subs[i] == sub
  {
  }

  lemma RingFits(limits: Limits, s: Session)
    requires RingExact(limits, s)
    ensures LongestFit(limits, s.ring) == s.ring
  {
    LongestFitMeaning(limits, KeptOf(limits, EventsOf(s.log, Epoch(s))));
  }

  lemma {:induction false} DropMeaning(subs: seq<Subscription>, surface: SurfaceId, sub: Subscription)
    requires sub in DropSubscription(subs, surface)
    ensures sub in subs
    decreases |subs|
  {
    if subs != [] && subs[0].surface != surface && sub != subs[0] { DropMeaning(subs[1..], surface, sub); }
  }

  /** Fewer subscriptions or fewer open sockets only leave fewer views to agree. */
  lemma FewerViews(limits: Limits, s: Session, n: Session)
    requires Inv(limits, s) && SameHostSide(s, n) && n.sent == s.sent && n.open <= s.open && n.clients.Keys <= s.clients.Keys
    requires forall ws, surface :: Visible(n, ws, surface) ==> Visible(s, ws, surface)
    ensures Inv(limits, n)
  {
  }

  lemma UnsubscribeInv(limits: Limits, s: Session, ws: Socket, surface: SurfaceId)
    requires Inv(limits, s)
    ensures Inv(limits, Unsubscribe(s, ws, surface))
  {
    var n := Unsubscribe(s, ws, surface);
    forall w, f | Visible(n, w, f) ensures Visible(s, w, f) {
      if w == ws {
        var sub := Subscription(f, true);
        DropMeaning(s.clients[ws], surface, sub);
        SubscriptionAt(s.clients[ws], sub);
      }
    }
    FewerViews(limits, s, n);
  }

  lemma ConnectInv(limits: Limits, s: Session, ws: Socket)
    requires Inv(limits, s)
    ensures Inv(limits, Connect(s, ws))
  {
    if ws in s.sent { return; }
    var n := Connect(s, ws);
    forall w, f | w in n.open && w in n.sent && Visible(n, w, f) ensures ViewAgrees(limits, n, w, f) {
      assert w != ws && Visible(s, w, f) && ViewAgrees(limits, s, w, f);
    }
    forall w | w in n.sent ensures OnceEach(n, n.sent[w]) {
      if w != ws { assert OnceEach(s, s.sent[w]); }
    }
    SameHostSideKeeps(limits, s, n);
  }

  lemma QueueInv(limits: Limits, s: Session, host: HostId, event: Event)
    requires Inv(limits, s)
    ensures Inv(limits, HostFrame(s, host, event))
  {
    SameTrafficKeeps(limits, s, HostFrame(s, host, event));
    hide RingExact, ViewsAgree, SocketsAgree, FramesAgree;
  }

  lemma RetiredInv(limits: Limits, s: Session)
    requires Inv(limits, s)
    ensures Inv(limits, RetirementSettled(s))
  {
    if RetirementSettled(s) != s { PipelineInv(limits, s, Idle); }
    hide RingExact, ViewsAgree, SocketsAgree, FramesAgree, SpawnsAgree, LogAgrees, IdentitiesAgree;
  }

  lemma SurfaceInv(limits: Limits, s: Session, ws: Socket, surface: SurfaceId, visible: bool)
    requires Inv(limits, s)
    ensures Inv(limits, Subscribe(s, ws, surface, visible)) && Inv(limits, SetVisibility(s, ws, surface, visible))
  {
    hide Inv, SendSnapshot, SetSubscription;
    assert SocketsAgree(s) by { InvSockets(limits, s); }
    if ws in s.sent { ResubscribeInv(limits, s, ws, surface, visible, if ws in s.clients then s.clients[ws] else []); }
    if Subscribed(s, ws, surface) { ResubscribeInv(limits, s, ws, surface, visible, s.clients[ws]); }
  }

  lemma InvSockets(limits: Limits, s: Session)
    requires Inv(limits, s)
    ensures SocketsAgree(s) && WellFormed(s)
  {
  }

  lemma ClosingInv(limits: Limits, s: Session, ws: Socket)
    requires Inv(limits, s)
    ensures Inv(limits, CloseSocket(s, ws)) && Inv(limits, RemoveClient(s, ws))
  {
    FewerViews(limits, s, CloseSocket(s, ws));
    FewerViews(limits, s, RemoveClient(s, ws));
  }

  lemma BrowserStepInv(limits: Limits, s: Session, action: Action)
    requires Inv(limits, s) && WellFormed(s)
    requires action.ConnectSocket? || action.SubscribeSurface? || action.ShowSurface? || action.UnsubscribeSurface?
          || action.SocketClosed? || action.ClientRemoved?
    ensures Inv(limits, Step(limits, s, action))
  {
    hide Inv, WellFormed, Connect, Subscribe, SetVisibility, Unsubscribe, CloseSocket, RemoveClient;
    match action
    case ConnectSocket(ws) => ConnectInv(limits, s, ws);
    case SubscribeSurface(ws, surface, visible) => SurfaceInv(limits, s, ws, surface, visible);
    case ShowSurface(ws, surface, visible) => SurfaceInv(limits, s, ws, surface, visible);
    case UnsubscribeSurface(ws, surface) => UnsubscribeInv(limits, s, ws, surface);
    case SocketClosed(ws) => ClosingInv(limits, s, ws);
    case ClientRemoved(ws) => ClosingInv(limits, s, ws);
  }

  /** Every step of every interleaving keeps the invariant. */
  lemma StepInv(limits: Limits, s: Session, action: Action)
    requires Inv(limits, s)
    ensures WellFormed(s) && Inv(limits, Step(limits, s, action))
  {
    InvSockets(limits, s);
    hide Inv, WellFormed, SocketsAgree, Hello, HostFrame, NextEvent, BindSettled, CompletionSettled, RetirementSettled, HostGone;
    match action
    case HelloFrom(ws, spawn, binding) => HelloInv(limits, s, ws, spawn, binding);
    case FrameFrom(host, event) => QueueInv(limits, s, host, event);
    case TakeNext => NextEventInv(limits, s);
    case Bind(accepted) => BindInv(limits, s, accepted);
    case Complete(accepted) => CompletionInv(limits, s, accepted);
    case Retired => RetiredInv(limits, s);
    case Gone(ws) => GoneInv(limits, s, ws);
    case _ => BrowserStepInv(limits, s, action);
  }

  // ---- Whole runs ----

  function RunAll(limits: Limits, s: Session, actions: seq<Action>): Session
    decreases |actions|
  {
    if actions == [] || !WellFormed(s) then s else RunAll(limits, Step(limits, s, actions[0]), actions[1..])
  }

  lemma {:induction false} RunInv(limits: Limits, s: Session, actions: seq<Action>)
    requires Inv(limits, s)
    ensures Inv(limits, RunAll(limits, s, actions))
    decreases |actions|
  {
    hide Inv, Step;
    if actions != [] {
      StepInv(limits, s, actions[0]);
      RunInv(limits, Step(limits, s, actions[0]), actions[1..]);
    }
  }

  /** The session after a run of a new session. */
  function After(limits: Limits, actions: seq<Action>): Session { RunAll(limits, NewSession, actions) }

  lemma AfterInv(limits: Limits, actions: seq<Action>)
    ensures Inv(limits, After(limits, actions))
  {
    InitInv(limits);
    hide Inv;
    RunInv(limits, NewSession, actions);
  }

  lemma {:induction false} LogOfEpoch(log: seq<Accepted>, epoch: nat, e: Event)
    requires e in EventsOf(log, epoch)
    ensures exists i :: 0 <= i < |log| && log[i].event == e && log[i].epoch == epoch
    decreases |log|
  {
    var init := log[..|log| - 1];
    if e in EventsOf(init, epoch) {
      LogOfEpoch(init, epoch, e);
      var i :| 0 <= i < |init| && init[i].event == e && init[i].epoch == epoch;
      assert log[i].event == e;
    }
  }

  lemma {:induction false} KeptIsAccepted(limits: Limits, events: seq<Event>, e: Event)
    requires e in KeptOf(limits, events)
    ensures e in events && Keeps(limits, e)
    decreases |events|
  {
    if e in KeptOf(limits, events[..|events| - 1]) { KeptIsAccepted(limits, events[..|events| - 1], e); }
  }

  /** The event was accepted from a host of the given spawn. */
  ghost predicate FromSpawn(s: Session, e: Event, spawn: Spawn) {
    exists i :: 0 <= i < |s.log| && s.log[i].event == e && s.log[i].host < |s.hosts| && s.hosts[s.log[i].host].spawn == spawn
  }

  /**
   * No cross-spawn mixing: after every run, every event of the ring was
   * accepted from a host of one spawn, whose producer and pid are those of the
   * last hello; and the current host is of that spawn.
   */
  lemma NoCrossSpawnMixing(limits: Limits, actions: seq<Action>)
    ensures
      var s := After(limits, actions);
      && WellFormed(s)
      && (s.producer.None? || s.lastPid.None? ==> s.ring == [] && s.host == None)
      && (s.producer.Some? && s.lastPid.Some? ==>
            var spawn := Spawn(s.producers[s.producer.value], s.lastPid.value);
            && (s.host.Some? ==> s.hosts[s.host.value].spawn == spawn)
            && forall k :: 0 <= k < |s.ring| ==> FromSpawn(s, s.ring[k], spawn))
  {
    AfterInv(limits, actions);
    var s := After(limits, actions);
    var current := EventsOf(s.log, Epoch(s));
    var kept := KeptOf(limits, current);
    LongestFitMeaning(limits, kept);
    if s.spawns == [] {
      assert s.log == [];
    } else {
      forall k | 0 <= k < |s.ring| ensures FromSpawn(s, s.ring[k], s.spawns[Epoch(s)]) {
        assert s.ring[k] in kept;
        KeptIsAccepted(limits, current, s.ring[k]);
        LogOfEpoch(s.log, Epoch(s), s.ring[k]);
      }
    }
  }

  lemma {:induction false} KeptIncreasing(limits: Limits, events: seq<Event>)
    requires Increasing(events)
    ensures Increasing(KeptOf(limits, events))
    decreases |events|
  {
    if events != [] {
      var init := events[..|events| - 1];
      KeptIncreasing(limits, init);
      var kept := KeptOf(limits, init);
      forall i | 0 <= i < |kept| ensures kept[i].seqNo < events[|events| - 1].seqNo {
        KeptIsAccepted(limits, init, kept[i]);
        var j :| 0 <= j < |init| && init[j] == kept[i];
        assert events[j] == kept[i];
      }
    }
  }

  /**
   * The ring is the longest suffix of the current spawn's accepted,
   * non-transient, non-oversized events that fits both limits; its sequence
   * numbers rise strictly up to `lastSeq`, and `ringBytes` is its size.
   */
  lemma RingIsLongestSuffix(limits: Limits, actions: seq<Action>)
    ensures
      var s := After(limits, actions);
      var kept := KeptOf(limits, EventsOf(s.log, Epoch(s)));
      && |s.ring| <= |kept| && s.ring == kept[|kept| - |s.ring|..]
      && Fits(limits, s.ring) && (forall k :: 0 <= k < |kept| - |s.ring| ==> !Fits(limits, kept[k..]))
      && s.ringBytes == TotalBytes(s.ring)
      && Increasing(s.ring) && (forall i :: 0 <= i < |s.ring| ==> 0 < s.ring[i].seqNo <= s.lastSeq)
  {
    AfterInv(limits, actions);
    var s := After(limits, actions);
    var current := EventsOf(s.log, Epoch(s));
    var kept := KeptOf(limits, current);
    LongestFitMeaning(limits, kept);
    KeptIncreasing(limits, current);
    forall i | 0 <= i < |s.ring| ensures 0 < s.ring[i].seqNo <= s.lastSeq {
      assert s.ring[i] in kept;
      KeptIsAccepted(limits, current, s.ring[i]);
      var j :| 0 <= j < |current| && current[j] == s.ring[i];
    }
  }

  /**
   * Late and early viewers agree: on every open socket, the last snapshot of
   * each visible surface followed by the kept events framed since, cut to the
   * longest fitting suffix, is the ring; and no accepted event is framed twice.
   */
  lemma ViewersAgree(limits: Limits, actions: seq<Action>, ws: Socket, surface: SurfaceId)
    requires ws in After(limits, actions).open
    ensures
      var s := After(limits, actions);
      && ws in s.sent
      && (Visible(s, ws, surface) ==>
            var view := ViewOf(limits, s.sent[ws], surface);
            view.Some? && LongestFit(limits, view.value) == s.ring)
      && OnceEach(s, s.sent[ws])
  {
    AfterInv(limits, actions);
    var s := After(limits, actions);
    assert OnceEach(s, s.sent[ws]);
    if Visible(s, ws, surface) { assert ViewAgrees(limits, s, ws, surface); }
  }

  // ---- One step ----

  /** One event was accepted, from the host that was current, and it was new. */
  ghost predicate AcceptsOne(s: Session, n: Session) {
    && |n.log| == |s.log| + 1 && n.log[..|s.log|] == s.log
    && var last := n.log[|s.log|];
       last.epoch == Epoch(s) && s.host == Some(last.host) && s.lastSeq < last.event.seqNo == n.lastSeq
  }

  ghost predicate SameRing(s: Session, n: Session) {
    n.log == s.log && n.ring == s.ring && n.lastSeq == s.lastSeq
  }

  /** Bindings of hosts that exist stay as they are. */
  ghost predicate KeepsBound(s: Session, n: Session) {
    && |s.hosts| <= |n.hosts|
    && forall h :: 0 <= h < |s.hosts| && s.hosts[h].bound.Some? ==> n.hosts[h].bound == s.hosts[h].bound
  }

  lemma BeginEventStep(limits: Limits, s: Session, host: HostId, e: Event)
    requires host < |s.hosts|
    ensures
      var n := BeginEvent(limits, s, host, e);
      (AcceptsOne(s, n) || SameRing(s, n)) && KeepsBound(s, n)
  {
    RejectObjects(s, host);
    CommitShape(limits, s, host, e);
    hide Reject, Commit;
  }

  lemma NextEventStep(limits: Limits, s: Session)
    requires Inv(limits, s)
    ensures
      var n := NextEvent(limits, s);
      (AcceptsOne(s, n) || SameRing(s, n)) && KeepsBound(s, n)
  {
    InvSockets(limits, s);
    if s.pipeline == Idle && s.queue != [] {
      BeginEventStep(limits, s.(queue := s.queue[1..]), s.queue[0].host, s.queue[0].event);
    }
    hide BeginEvent, Inv, SocketsAgree;
  }

  lemma BindStep(limits: Limits, s: Session, accepted: bool)
    requires Inv(limits, s)
    ensures SameRing(s, BindSettled(s, accepted)) && KeepsBound(s, BindSettled(s, accepted))
  {
  }

  lemma CompletionStep(limits: Limits, s: Session, accepted: bool)
    requires Inv(limits, s)
    ensures
      var n := CompletionSettled(limits, s, accepted);
      (AcceptsOne(s, n) || SameRing(s, n)) && KeepsBound(s, n)
  {
    if !(s.pipeline.Busy? && s.pipeline.stage == AwaitingCompletion) { return; }
    RejectObjects(s, s.pipeline.host);
    CommitShape(limits, Authorized(s), s.pipeline.host, s.pipeline.event);
    hide Reject, Commit, Inv;
  }

  lemma HelloStep(limits: Limits, s: Session, ws: HostSocket, spawn: Spawn, binding: Binding)
    requires Inv(limits, s)
    ensures
      var n := Hello(s, ws, spawn, binding);
      && (SameRing(s, n) || (ChangedSpawn(s, spawn) && n.log == s.log && n.ring == [] && n.lastSeq == 0))
      && KeepsBound(s, n)
  {
  }

  lemma BrowserStep(s: Session, action: Action, limits: Limits)
    requires WellFormed(s)
    requires !action.HelloFrom? && !action.TakeNext? && !action.Bind? && !action.Complete?
    ensures SameRing(s, Step(limits, s, action)) && KeepsBound(s, Step(limits, s, action))
  {
  }

  /** An event is accepted only from the host that is current at that step, and
      only when it is new; without one, only a hello of another spawn changes
      the ring. The first provider session id a host held is never replaced. */
  lemma OnlyCurrentHostCommits(limits: Limits, s: Session, action: Action)
    requires Inv(limits, s)
    ensures WellFormed(s)
    ensures
      var n := Step(limits, s, action);
      && (AcceptsOne(s, n) || SameRing(s, n)
          || (action.HelloFrom? && ChangedSpawn(s, action.spawn) && n.log == s.log && n.ring == [] && n.lastSeq == 0))
      && KeepsBound(s, n)
  {
    InvSockets(limits, s);
    hide AcceptsOne, SameRing, KeepsBound, Inv, WellFormed, ChangedSpawn, Hello, NextEvent, BindSettled, CompletionSettled;
    match action
    case HelloFrom(ws, spawn, binding) => HelloStep(limits, s, ws, spawn, binding);
    case TakeNext => NextEventStep(limits, s);
    case Bind(accepted) => BindStep(limits, s, accepted);
    case Complete(accepted) => CompletionStep(limits, s, accepted);
    case _ => BrowserStep(s, action, limits);
  }

  lemma {:induction false} BoundStaysAll(limits: Limits, s: Session, actions: seq<Action>, h: HostId)
    requires Inv(limits, s) && h < |s.hosts| && s.hosts[h].bound.Some?
    ensures h < |RunAll(limits, s, actions).hosts| && RunAll(limits, s, actions).hosts[h].bound == s.hosts[h].bound
    decreases |actions|
  {
    if actions != [] {
      StepInv(limits, s, actions[0]);
      OnlyCurrentHostCommits(limits, s, actions[0]);
      hide Step, Inv, AcceptsOne, SameRing;
      BoundStaysAll(limits, Step(limits, s, actions[0]), actions[1..], h);
    }
  }

  lemma {:induction false} RunConcat(limits: Limits, s: Session, a: seq<Action>, b: seq<Action>)
    requires Inv(limits, s)
    ensures RunAll(limits, s, a + b) == RunAll(limits, RunAll(limits, s, a), b)
    decreases |a|
  {
    hide Step, Inv;
    if a == [] {
      assert a + b == b;
    } else {
      StepInv(limits, s, a[0]);
      assert (a + b)[0] == a[0] && (a + b)[1..] == a[1..] + b;
      RunConcat(limits, Step(limits, s, a[0]), a[1..], b);
    }
  }

  /**
   * A host's provider session id, once set, is never a different one: at any
   * later time of any run it is the same or has been rejected for good.
   */
  lemma ProviderIdentityIsStable(limits: Limits, before: seq<Action>, later: seq<Action>, h: HostId)
    requires h < |After(limits, before).hosts| && After(limits, before).hosts[h].providerSession.Some?
    ensures
      var s, n := After(limits, before), After(limits, before + later);
      && h < |n.hosts|
      && (n.hosts[h].providerSession == s.hosts[h].providerSession
          || (n.hosts[h].providerSession == None && n.host != Some(h)))
  {
    InitInv(limits);
    AfterInv(limits, before);
    RunConcat(limits, NewSession, before, later);
    BoundStaysAll(limits, After(limits, before), later, h);
    AfterInv(limits, before + later);
  }
}
