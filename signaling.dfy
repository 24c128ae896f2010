/** The signaling side of the benchmark client: the router behind the WebSocket's
    `onMessage`, the process-wide maps of peer connections and data channels, and
    the envelopes a peer connection sends for its local description and candidates.
    The peer-connection engine is abstract: the calls that make a connection, set a
    remote description, add a remote candidate or create a data channel are appended
    to a log. */
module Signaling {
  import opened Wrappers
  import Benchmark

  // ---------------------------------------------------------------------------
  // Signaling messages

  /** A parsed JSON value, as far as the router looks into it. */
  datatype Json = JString(str: string) | JObject(fields: map<string, Json>) | JOther

  /** A signaling payload: binary, or text with the result of `json::parse` on it
      (`None` when the text is not JSON and the parser throws). */
  datatype Payload = Binary(bytes: seq<bv8>) | Text(doc: Option<Json>)

  /** `message.find(key)`: a member of an object; any other value has none. */
  function Find(doc: Json, key: string): (r: Option<Json>)
    ensures r.Some? <==> doc.JObject? && key in doc.fields
    ensures r.Some? ==> r.value == doc.fields[key]
  {
    if doc.JObject? && key in doc.fields then Some(doc.fields[key]) else None
  }

  /** `message[key].get<string>()`: a missing member reads as null and, like any
      other non-string, makes `get<string>` throw (`None`). */
  function GetString(doc: Json, key: string): (r: Option<string>)
    ensures r.Some? <==> Find(doc, key).Some? && Find(doc, key).value.JString?
    ensures r.Some? ==> Find(doc, key) == Some(JString(r.value))
  {
    match Find(doc, key)
    case Some(JString(s)) => Some(s)
    case _ => None
  }

  /** A message whose `id` and `type` members were read as strings. */
  datatype Envelope = Envelope(doc: Json, id: string, kind: string)

  datatype Decoded = Skip | Fail(field: string) | Ok(env: Envelope)

  /** The handler's first steps: a binary payload, or a document without `id` or
      without `type`, is skipped; a text that is not JSON, or an `id` or `type`
      that is not a string, throws. */
  function Decode(p: Payload): (d: Decoded)
    ensures p.Binary? ==> d == Skip
    ensures d.Ok? <==> (p.Text? && p.doc.Some? && GetString(p.doc.value, "id").Some?
                        && GetString(p.doc.value, "type").Some?)
    ensures d.Ok? ==> d.env == Envelope(p.doc.value, GetString(p.doc.value, "id").value,
                                        GetString(p.doc.value, "type").value)
    ensures d.Skip? <==> (p.Binary? || (p.doc.Some? && (Find(p.doc.value, "id").None?
                          || (GetString(p.doc.value, "id").Some? && Find(p.doc.value, "type").None?))))
  {
    match p
    case Binary(_) => Skip
    case Text(None) => Fail("json")
    case Text(Some(message)) =>
      match Find(message, "id")
      case None => Skip
      case Some(idValue) =>
        if !idValue.JString? then Fail("id")
        else
          match Find(message, "type")
          case None => Skip
          case Some(typeValue) =>
            if !typeValue.JString? then Fail("type")
            else Ok(Envelope(message, idValue.str, typeValue.str))
  }

  // ---------------------------------------------------------------------------
  // Sessions, the registry and the engine log

  /** A peer connection; `handle` tells apart the connections the engine made. */
  datatype Session = Session(handle: nat, id: string)

  /** The calls made into the peer-connection engine. */
  datatype Action =
    | NewConnection(handle: nat, id: string)
    | SetRemoteDescription(handle: nat, sdp: string, kind: string)
    | AddRemoteCandidate(handle: nat, candidate: string, mid: string)
    | CreateDataChannel(handle: nat, channelLabel: string)

  /** How one signaling message ended. */
  datatype Outcome =
    | Dropped                       // returned early, nothing done
    | Dispatched(session: Session)  // one engine call was made on `session`
    | Unhandled(session: Session)   // session found or created, type not acted on
    | DecodeError(field: string)    // `json::parse` or a `get<string>` threw

  /** `peerConnectionMap`, and the handle the next connection made will get. */
  datatype Registry = Registry(peers: map<string, Session>, nextHandle: nat)

  /** Every entry is filed under its own id, names a connection already made, and
      no two entries share a connection. */
  ghost predicate WellFormed(reg: Registry) {
    && (forall id :: id in reg.peers ==> reg.peers[id].id == id && reg.peers[id].handle < reg.nextHandle)
    && (forall a, b :: a in reg.peers && b in reg.peers && a != b ==> reg.peers[a].handle != reg.peers[b].handle)
  }

  /** `unordered_map::emplace`: inserts only when the key is absent, and never
      overwrites an entry. */
  function Emplace<K, V>(m: map<K, V>, k: K, v: V): (r: map<K, V>)
    ensures r.Keys == m.Keys + {k}
    ensures forall j :: j in m ==> r[j] == m[j]
    ensures k !in m ==> r[k] == v
    ensures |r| == if k in m then |m| else |m| + 1
  {
    if k in m then m else m[k := v]
  }

  datatype Created = Created(registry: Registry, session: Session, actions: seq<Action>)

  /** `createPeerConnection(config, ws, id)`: a new connection is always made and
      returned, but it is filed under `id` only when `id` has no entry yet. */
  function CreatePeer(reg: Registry, id: string): (c: Created)
    ensures c.session == Session(reg.nextHandle, id)
    ensures c.actions == [NewConnection(reg.nextHandle, id)]
    ensures c.registry.nextHandle == reg.nextHandle + 1
    ensures c.registry.peers.Keys == reg.peers.Keys + {id}
    ensures forall k :: k in reg.peers ==> c.registry.peers[k] == reg.peers[k]
    ensures id !in reg.peers ==> c.registry.peers[id] == c.session
    ensures WellFormed(reg) && id in reg.peers ==> c.registry.peers[id] != c.session
    ensures WellFormed(reg) ==> WellFormed(c.registry)
  {
    var pc := Session(reg.nextHandle, id);
    Created(Registry(Emplace(reg.peers, id, pc), reg.nextHandle + 1), pc, [NewConnection(pc.handle, id)])
  }

  // ---------------------------------------------------------------------------
  // The router

  datatype Dispatch = Dispatch(actions: seq<Action>, outcome: Outcome)

  predicate IsDescriptionType(kind: string) {
    kind == "offer" || kind == "answer"
  }

  /** The engine call a message makes on its session `pc`: at most one, always on
      `pc`, chosen by the type; a member that is missing or not a string aborts the
      message before the call. */
  function DispatchTo(pc: Session, e: Envelope): (d: Dispatch)
    ensures |d.actions| <= 1
    ensures d.actions != [] <==> d.outcome == Dispatched(pc)
    ensures (d.actions != [] && d.actions[0].SetRemoteDescription?)
        <==> (IsDescriptionType(e.kind) && GetString(e.doc, "description").Some?)
    ensures d.actions != [] && d.actions[0].SetRemoteDescription? ==>
      d.actions[0] == SetRemoteDescription(pc.handle, GetString(e.doc, "description").value, e.kind)
    ensures (d.actions != [] && d.actions[0].AddRemoteCandidate?)
        <==> (e.kind == "candidate" && GetString(e.doc, "candidate").Some? && GetString(e.doc, "mid").Some?)
    ensures d.actions != [] && d.actions[0].AddRemoteCandidate? ==>
      d.actions[0] == AddRemoteCandidate(pc.handle, GetString(e.doc, "candidate").value,
                                         GetString(e.doc, "mid").value)
    ensures d.outcome == Unhandled(pc) <==> (!IsDescriptionType(e.kind) && e.kind != "candidate")
    ensures d.outcome.DecodeError? <==>
      ((IsDescriptionType(e.kind) && GetString(e.doc, "description").None?)
       || (e.kind == "candidate" && (GetString(e.doc, "candidate").None? || GetString(e.doc, "mid").None?)))
  {
    if IsDescriptionType(e.kind) then
      match GetString(e.doc, "description")
      case None => Dispatch([], DecodeError("description"))
      case Some(sdp) => Dispatch([SetRemoteDescription(pc.handle, sdp, e.kind)], Dispatched(pc))
    else if e.kind == "candidate" then
      match GetString(e.doc, "candidate")
      case None => Dispatch([], DecodeError("candidate"))
      case Some(sdp) =>
        match GetString(e.doc, "mid")
        case None => Dispatch([], DecodeError("mid"))
        case Some(mid) => Dispatch([AddRemoteCandidate(pc.handle, sdp, mid)], Dispatched(pc))
    else Dispatch([], Unhandled(pc))
  }

  /** A message that makes the router create a session: its id is unknown and its
      type is `offer`. */
  predicate Creates(reg: Registry, p: Payload) {
    Decode(p).Ok? && Decode(p).env.id !in reg.peers && Decode(p).env.kind == "offer"
  }

  datatype Step = Step(registry: Registry, actions: seq<Action>, outcome: Outcome)

  /** The whole `ws->onMessage` handler on the registry and the engine log. */
  function Route(reg: Registry, p: Payload): (s: Step)
    ensures WellFormed(reg) ==> WellFormed(s.registry)
    ensures forall k :: k in reg.peers ==> k in s.registry.peers && s.registry.peers[k] == reg.peers[k]
    ensures |s.registry.peers| == |reg.peers| + (if Creates(reg, p) then 1 else 0)
    ensures !Creates(reg, p) ==> s.registry == reg
    ensures !Decode(p).Ok? ==> s.actions == []
    ensures Decode(p).Skip? ==> s.outcome == Dropped
    ensures Decode(p).Fail? ==> s.outcome == DecodeError(Decode(p).field)
    ensures Decode(p).Ok? && Decode(p).env.id !in reg.peers && Decode(p).env.kind != "offer" ==>
      s == Step(reg, [], Dropped)
    ensures Decode(p).Ok? && Decode(p).env.id in reg.peers ==>
      var d := DispatchTo(reg.peers[Decode(p).env.id], Decode(p).env);
      s.actions == d.actions && s.outcome == d.outcome
    ensures Creates(reg, p) ==>
      var pc := Session(reg.nextHandle, Decode(p).env.id);
      var d := DispatchTo(pc, Decode(p).env);
      && s.registry == Registry(reg.peers[pc.id := pc], reg.nextHandle + 1)
      && s.actions == [NewConnection(pc.handle, pc.id)] + d.actions
      && s.outcome == d.outcome
  {
    match Decode(p)
    case Skip => Step(reg, [], Dropped)
    case Fail(field) => Step(reg, [], DecodeError(field))
    case Ok(e) =>
      if e.id in reg.peers then
        var d := DispatchTo(reg.peers[e.id], e);
        Step(reg, d.actions, d.outcome)
      else if e.kind == "offer" then
        var c := CreatePeer(reg, e.id);
        var d := DispatchTo(c.session, e);
        Step(c.registry, c.actions + d.actions, d.outcome)
      else
        Step(reg, [], Dropped)
  }

  /** A second offer from the same id reuses the session the first one created:
      no new entry, and its description goes to the first connection. */
  lemma RepeatedOfferReusesSession(reg: Registry, p: Payload)
    requires WellFormed(reg)
    requires Creates(reg, p)
    ensures var first := Route(reg, p);
            var second := Route(first.registry, p);
            && second.registry == first.registry
            && second.actions == DispatchTo(first.registry.peers[Decode(p).env.id], Decode(p).env).actions
            && first.registry.peers[Decode(p).env.id] == Session(reg.nextHandle, Decode(p).env.id)
  {
  }

  /** The registry after a sequence of messages. */
  function RouteAll(reg: Registry, ps: seq<Payload>): Registry
    decreases |ps|
  {
    if ps == [] then reg else RouteAll(Route(reg, ps[0]).registry, ps[1..])
  }

  /** The id a message offers a session to, if it is a well-formed offer. */
  function OfferId(p: Payload): set<string> {
    if Decode(p).Ok? && Decode(p).env.kind == "offer" then {Decode(p).env.id} else {}
  }

  /** The ids of the offers in a sequence of messages. */
  function OfferIds(ps: seq<Payload>): set<string>
    decreases |ps|
  {
    if ps == [] then {} else OfferId(ps[0]) + OfferIds(ps[1..])
  }

  /** One message adds to the keys exactly the id of an offer. */
  lemma RouteKeys(reg: Registry, p: Payload)
    ensures Route(reg, p).registry.peers.Keys == reg.peers.Keys + OfferId(p)
  {
  }

  /** After any sequence of messages the registry holds exactly the ids it held
      before and the ids that sent an offer: one session per id, however many
      offers it sends. */
  lemma {:induction false} RouteAllKeys(reg: Registry, ps: seq<Payload>)
    ensures RouteAll(reg, ps).peers.Keys == reg.peers.Keys + OfferIds(ps)
    decreases |ps|
  {
    if ps != [] {
      var next := Route(reg, ps[0]).registry;
      RouteAllKeys(next, ps[1..]);
      RouteKeys(reg, ps[0]);
      assert RouteAll(reg, ps) == RouteAll(next, ps[1..]);
      assert OfferIds(ps) == OfferId(ps[0]) + OfferIds(ps[1..]);
    }
  }

  /** An entry, once made, survives every later message unchanged. */
  lemma {:induction false} RouteAllKeepsEntries(reg: Registry, ps: seq<Payload>)
    ensures forall k :: k in reg.peers ==> k in RouteAll(reg, ps).peers && RouteAll(reg, ps).peers[k] == reg.peers[k]
    decreases |ps|
  {
    if ps != [] {
      RouteAllKeepsEntries(Route(reg, ps[0]).registry, ps[1..]);
    }
  }

  // ---------------------------------------------------------------------------
  // Outgoing envelopes

  /** The message `onLocalDescription` sends: `{id, type, description}`. */
  function DescriptionEnvelope(id: string, kind: string, sdp: string): (m: Json)
    ensures GetString(m, "id") == Some(id) && GetString(m, "type") == Some(kind)
    ensures GetString(m, "description") == Some(sdp)
    ensures Find(m, "candidate").None? && Find(m, "mid").None?
  {
    JObject(map["id" := JString(id), "type" := JString(kind), "description" := JString(sdp)])
  }

  /** The message `onLocalCandidate` sends: `{id, type: "candidate", candidate, mid}`. */
  function CandidateEnvelope(id: string, candidate: string, mid: string): (m: Json)
    ensures GetString(m, "id") == Some(id) && GetString(m, "type") == Some("candidate")
    ensures GetString(m, "candidate") == Some(candidate) && GetString(m, "mid") == Some(mid)
    ensures Find(m, "description").None?
  {
    JObject(map["id" := JString(id), "type" := JString("candidate"),
                "candidate" := JString(candidate), "mid" := JString(mid)])
  }

  /** A description envelope, received by a peer that knows the id or is offered
      to, makes exactly one remote-description call with the sent description and
      type, on the session filed under the id. */
  lemma DescriptionEnvelopeRoutes(reg: Registry, id: string, kind: string, sdp: string)
    requires IsDescriptionType(kind)
    requires id in reg.peers || kind == "offer"
    ensures var s := Route(reg, Text(Some(DescriptionEnvelope(id, kind, sdp))));
            && id in s.registry.peers
            && s.outcome == Dispatched(s.registry.peers[id])
            && s.actions == (if id in reg.peers then [] else [NewConnection(reg.nextHandle, id)])
                            + [SetRemoteDescription(s.registry.peers[id].handle, sdp, kind)]
  {
  }

  /** A candidate envelope reaches the known session as one remote-candidate call;
      for an unknown id it is dropped without trace. */
  lemma CandidateEnvelopeRoutes(reg: Registry, id: string, candidate: string, mid: string)
    ensures var s := Route(reg, Text(Some(CandidateEnvelope(id, candidate, mid))));
            && (id in reg.peers ==>
                 s == Step(reg, [AddRemoteCandidate(reg.peers[id].handle, candidate, mid)], Dispatched(reg.peers[id])))
            && (id !in reg.peers ==> s == Step(reg, [], Dropped))
  {
  }

  /** An offer from an unknown id creates exactly one session and sets its remote
      description once, with the offer's description and type `offer`. */
  lemma AnswererScenario()
    ensures var p := Text(Some(JObject(map["id" := JString("AB12"), "type" := JString("offer"),
                                              "description" := JString("<sdp>")])));
            Route(Registry(map[], 0), p)
              == Step(Registry(map["AB12" := Session(0, "AB12")], 1),
                      [NewConnection(0, "AB12"), SetRemoteDescription(0, "<sdp>", "offer")],
                      Dispatched(Session(0, "AB12")))
  {
  }

  // ---------------------------------------------------------------------------
  // The process-wide state

  /** The client's global state: `peerConnectionMap`, `dataChannelMap`, the calls
      made into the engine and the messages sent on the signaling socket. */
  class Client {
    var peers: map<string, Session>
    var channels: map<string, Benchmark.Channel>
    var nextHandle: nat
    var log: seq<Action>
    var outbox: seq<Json>

    function State(): Registry
      reads this
    {
      Registry(peers, nextHandle)
    }

    ghost predicate Valid()
      reads this
    {
      WellFormed(State())
    }

    constructor ()
      ensures Valid()
      ensures peers == map[] && channels == map[] && nextHandle == 0 && log == [] && outbox == []
    {
      peers, channels, nextHandle, log, outbox := map[], map[], 0, [], [];
    }

    /** `createPeerConnection`: makes a connection, files it if `id` is free. */
    method CreatePeerConnection(id: string) returns (pc: Session)
      requires Valid()
      modifies this
      ensures Valid()
      ensures State() == CreatePeer(old(State()), id).registry
      ensures pc == CreatePeer(old(State()), id).session
      ensures log == old(log) + [NewConnection(pc.handle, id)]
      ensures channels == old(channels) && outbox == old(outbox)
    {
      ghost var c := CreatePeer(State(), id);
      pc := Session(nextHandle, id);
      nextHandle := nextHandle + 1;
      log := log + [NewConnection(pc.handle, id)];
      peers := Emplace(peers, id, pc);
      assert State() == c.registry;
    }

    /** `ws->onMessage`. */
    method OnSignalingMessage(p: Payload) returns (outcome: Outcome)
      requires Valid()
      modifies this
      ensures Valid()
      ensures State() == Route(old(State()), p).registry
      ensures log == old(log) + Route(old(State()), p).actions
      ensures outcome == Route(old(State()), p).outcome
      ensures channels == old(channels) && outbox == old(outbox)
    {
      var d := ReadEnvelope(p);
      match d
      case Skip => return Dropped;
      case Fail(field) => return DecodeError(field);
      case Ok(e) =>
        var pc: Session;
        if e.id in peers {
          pc := peers[e.id];
        } else if e.kind == "offer" {
          pc := CreatePeerConnection(e.id);
        } else {
          return Dropped;
        }
        outcome := Deliver(pc, e);
    }

    /** The reading of `id` and `type` at the head of `ws->onMessage`, written as the
        early `return`s (and throwing `get<string>()` calls) of main.cpp:104-117; its
        contract ties it to `Decode`, the definition `Route` uses. */
    static method ReadEnvelope(p: Payload) returns (d: Decoded)
      ensures d == Decode(p)
    {
      if !p.Text? {
        return Skip;
      }
      if p.doc.None? {
        return Fail("json");
      }
      var message := p.doc.value;
      var it := Find(message, "id");
      if it.None? {
        return Skip;
      }
      if !it.value.JString? {
        return Fail("id");
      }
      var id := it.value.str;
      it := Find(message, "type");
      if it.None? {
        return Skip;
      }
      if !it.value.JString? {
        return Fail("type");
      }
      return Ok(Envelope(message, id, it.value.str));
    }

    /** The dispatch on the type once the session is known. */
    method Deliver(pc: Session, e: Envelope) returns (outcome: Outcome)
      requires Valid()
      modifies this
      ensures Valid()
      ensures log == old(log) + DispatchTo(pc, e).actions
      ensures outcome == DispatchTo(pc, e).outcome
      ensures State() == old(State()) && channels == old(channels) && outbox == old(outbox)
    {
      if e.kind == "offer" || e.kind == "answer" {
        var sdp := GetString(e.doc, "description");
        if sdp.None? {
          return DecodeError("description");
        }
        log := log + [SetRemoteDescription(pc.handle, sdp.value, e.kind)];
        outcome := Dispatched(pc);
      } else if e.kind == "candidate" {
        var sdp := GetString(e.doc, "candidate");
        if sdp.None? {
          return DecodeError("candidate");
        }
        var mid := GetString(e.doc, "mid");
        if mid.None? {
          return DecodeError("mid");
        }
        log := log + [AddRemoteCandidate(pc.handle, sdp.value, mid.value)];
        outcome := Dispatched(pc);
      } else {
        outcome := Unhandled(pc);
      }
    }

    /** The offering side after the remote id was accepted: a connection, a data
        channel labelled `benchmark` (the engine's `dc`), and its registration. */
    method OfferTo(id: string, dc: Benchmark.Channel) returns (pc: Session)
      requires Valid()
      modifies this
      ensures Valid()
      ensures State() == CreatePeer(old(State()), id).registry
      ensures pc == CreatePeer(old(State()), id).session
      ensures log == old(log) + [NewConnection(pc.handle, id), CreateDataChannel(pc.handle, "benchmark")]
      ensures channels == Emplace(old(channels), id, dc)
      ensures outbox == old(outbox)
    {
      pc := CreatePeerConnection(id);
      log := log + [CreateDataChannel(pc.handle, "benchmark")];
      channels := Emplace(channels, id, dc);
    }

    /** `pc->onDataChannel` on the answering side: the first burst, without the
        open check, then the registration of the channel. */
    method OnDataChannel(id: string, dc: Benchmark.Channel, counters: Benchmark.Counters) returns (sends: nat)
      requires Valid()
      modifies this, dc, counters
      ensures Valid()
      ensures sends == Benchmark.RunBurst(old(dc.View()), false).sends
      ensures dc.View() == Benchmark.RunBurst(old(dc.View()), false).final
      ensures counters.sentSize == old(counters.sentSize) + Benchmark.MessageSize * sends
      ensures counters.receivedSize == old(counters.receivedSize)
      ensures channels == Emplace(old(channels), id, dc)
      ensures State() == old(State()) && log == old(log) && outbox == old(outbox)
    {
      var failed;
      sends, failed := Benchmark.SendWhileEmpty(dc, counters, false);
      channels := Emplace(channels, id, dc);
    }

    /** `pc->onLocalDescription`: the envelope goes out only while the WebSocket
        is still alive. */
    method OnLocalDescription(id: string, kind: string, sdp: string, socketAlive: bool)
      requires Valid()
      modifies this
      ensures Valid()
      ensures outbox == old(outbox) + (if socketAlive then [DescriptionEnvelope(id, kind, sdp)] else [])
      ensures State() == old(State()) && log == old(log) && channels == old(channels)
    {
      if socketAlive {
        outbox := outbox + [DescriptionEnvelope(id, kind, sdp)];
      }
    }

    /** `pc->onLocalCandidate`, with the same liveness check. */
    method OnLocalCandidate(id: string, candidate: string, mid: string, socketAlive: bool)
      requires Valid()
      modifies this
      ensures Valid()
      ensures outbox == old(outbox) + (if socketAlive then [CandidateEnvelope(id, candidate, mid)] else [])
      ensures State() == old(State()) && log == old(log) && channels == old(channels)
    {
      if socketAlive {
        outbox := outbox + [CandidateEnvelope(id, candidate, mid)];
      }
    }

    /** The cleanup on every exit path: both maps are cleared. */
    method Clear()
      modifies this
      ensures Valid()
      ensures peers == map[] && channels == map[]
      ensures nextHandle == old(nextHandle) && log == old(log) && outbox == old(outbox)
    {
      channels := map[];
      peers := map[];
    }
  }
}
