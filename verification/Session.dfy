/** The whole system: the broker, one process per component, and the socket
    queues between them.  Components use the client library's calls only;
    every interleaving of their steps and the broker's is a run. */
module Session {
  import opened Basics
  import opened Protocol
  import opened Config
  import B = Broker

  /** What a process is blocked on.  `Initialize` and `Register` send one
      packet on the broker socket and block until a packet arrives there. */
  datatype Wait =
    | Idle
    | Initializing(kind: Kind, lbl: Text, mem: seq<Object>)
    | Registering(kind: Kind)

  /** The request a dispatcher is working on, and whether it has accepted. */
  datatype Handling = NoRequest | Handling(kind: Kind, request: Packet, accepted: bool)

  datatype ClientSession = ClientSession(kind: Kind, lbl: Text, end: Object, mem: seq<Object>)

  datatype ServerSession = ServerSession(kind: Kind, name: Text, lbl: Text, end: Object, mem: seq<Object>)

  datatype Proc = Proc(
    alive: bool,
    sock: Object,
    wait: Wait,
    disp: map<Kind, Object>,
    handling: Handling,
    servers: set<ServerSession>,
    clients: set<ClientSession>)

  /** `next` is above the identity of every kernel object created so far. */
  datatype System = System(broker: B.State, queues: map<Object, seq<Packet>>, procs: seq<Proc>, next: nat)

  function Queue(s: System, o: Object): seq<Packet> {
    if o in s.queues then s.queues[o] else []
  }

  function Push(s: System, o: Object, p: Packet): System {
    s.(queues := s.queues[o := Queue(s, o) + [p]])
  }

  function Pop(s: System, o: Object): System
    requires Queue(s, o) != []
  {
    s.(queues := s.queues[o := Queue(s, o)[1..]])
  }

  function SetProc(s: System, i: nat, p: Proc): System
    requires i < |s.procs|
  {
    s.(procs := s.procs[i := p])
  }

  /* ---- Steps ---- */

  datatype Step =
    | Initialize(i: nat, kind: Kind, lbl: Text)        // client: send a request and block
    | Register(i: nat, kind: Kind)                     // dispatcher: send a registration and block
    | Return(i: nat)                                   // a blocked call receives its answer
    | Dispatch(i: nat, kind: Kind)                     // dispatcher: receive a request
    | Accept(i: nat)                                   // Session_Initialize and Session_Accept
    | Finish(i: nat)                                   // the dispatch callback returns
    | Disconnect(i: nat, c: ClientSession)             // client: Finalize
    | Cleanup(i: nat, v: ServerSession)                // server: the peer was closed
    | Die(i: nat)                                      // the process ends
    | Read(fd: int, nums: seq<int>, env: B.Env)        // broker: handle one packet
    | Hangup(i: nat)                                   // broker: a component's socket hung up

  predicate Running(s: System, i: nat) {
    i < |s.procs| && s.procs[i].alive && s.procs[i].wait == Idle
  }

  /** The memory that a client creates for its session, if any. */
  function NewMemory(s: System, kind: Kind): seq<Object> {
    if kind == Memory then [Memfd(s.next)] else []
  }

  predicate ValidRequest(kind: Kind, r: Packet) {
    r.kind == kind && |r.objs| >= (if kind == Memory then 3 else 2)
  }

  /** Is this end still referenced by a client session or by a packet? */
  ghost predicate Referenced(s: System, o: Object) {
    || (exists j, c :: 0 <= j < |s.procs| && c in s.procs[j].clients && c.end == o)
    || (exists q, j :: q in s.queues && 0 <= j < |s.queues[q]| && o in s.queues[q][j].objs)
  }

  /** The descriptors that arrive with a packet get unused numbers. */
  predicate Received(open: map<int, Object>, objs: seq<Object>, nums: seq<int>) {
    && |nums| == |objs| <= 4
    && (forall j :: 0 <= j < |nums| ==> Valid(nums[j]) && nums[j] !in open)
    && (forall j, k :: 0 <= j < k < |nums| ==> nums[j] != nums[k])
  }

  function InstallAll(open: map<int, Object>, objs: seq<Object>, nums: seq<int>): map<int, Object>
    requires |nums| == |objs|
    decreases |objs|
  {
    if objs == [] then open
    else InstallAll(open, objs[1..], nums[1..])[nums[0] := objs[0]]
  }

  /** The four-element array that the broker receives descriptors into. */
  function Padded(nums: seq<int>): seq<int>
    requires |nums| <= 4
  {
    nums + seq(4 - |nums|, _ => -1)
  }

  ghost predicate Enabled(s: System, step: Step) {
    match step
    case Initialize(i, kind, lbl) => Running(s, i) && |lbl| <= MaxText
    case Register(i, kind) => Running(s, i)
    case Return(i) =>
      i < |s.procs| && s.procs[i].alive && s.procs[i].wait != Idle && Queue(s, s.procs[i].sock) != []
    case Dispatch(i, kind) =>
      && Running(s, i) && SessionKind(kind) && s.procs[i].handling == NoRequest
      && kind in s.procs[i].disp && Queue(s, s.procs[i].disp[kind]) != []
    case Accept(i) =>
      && Running(s, i) && s.procs[i].handling.Handling? && !s.procs[i].handling.accepted
      && ValidRequest(s.procs[i].handling.kind, s.procs[i].handling.request)
      && s.procs[i].handling.kind in s.procs[i].disp
      && s.procs[i].disp[s.procs[i].handling.kind].End?
    case Finish(i) =>
      && Running(s, i) && s.procs[i].handling.Handling?
      && s.procs[i].handling.kind in s.procs[i].disp
      && s.procs[i].disp[s.procs[i].handling.kind].End?
    case Disconnect(i, c) => Running(s, i) && c in s.procs[i].clients
    case Cleanup(i, v) =>
      Running(s, i) && v in s.procs[i].servers && v.end.End? && !Referenced(s, Peer(v.end))
    case Die(i) => i < |s.procs| && s.procs[i].alive
    case Read(fd, nums, env) => CanRead(s, fd, nums, env)
    case Hangup(i) => i < |s.broker.components| && Valid(s.broker.components[i].fd)
  }

  /** The broker reads a packet: its descriptors arrive under unused numbers,
      and new kernel objects have identities of their own. */
  ghost predicate CanRead(s: System, fd: int, nums: seq<int>, env: B.Env) {
    && Valid(fd) && fd in s.broker.open && Queue(s, s.broker.open[fd]) != []
    && B.Dest(s.broker.components, fd) < |s.broker.components|
    && Valid(s.broker.components[B.Dest(s.broker.components, fd)].fd)
    && var m := Queue(s, s.broker.open[fd])[0];
    && Received(s.broker.open, m.objs, nums)
    && B.Kernel(InstallAll(s.broker.open, m.objs, nums), env)
    && s.next <= env.pairId && s.next <= env.servId && env.pairId != env.servId
  }

  /** The packet is taken, handled, and the broker's answer delivered. */
  ghost function AfterRead(s: System, fd: int, nums: seq<int>, env: B.Env): System
    requires CanRead(s, fd, nums, env)
  {
    var o := s.broker.open[fd];
    var m := Queue(s, o)[0];
    var st := s.broker.(open := InstallAll(s.broker.open, m.objs, nums));
    var r := B.OnMessage(st, B.Dest(s.broker.components, fd), m.action, m.kind, m.name, m.lbl, Padded(nums), env);
    Deliver(Pop(s, o).(broker := r.st, next := Next(env)), r.sent)
  }

  function Next(env: B.Env): nat {
    (if env.pairId < env.servId then env.servId else env.pairId) + 1
  }

  /** A written packet arrives at the other end of the socket. */
  function Objects(open: map<int, Object>, fds: seq<int>): seq<Object> {
    if fds == [] then []
    else (if fds[0] in open then [open[fds[0]]] else []) + Objects(open, fds[1..])
  }

  function Deliver(s: System, sent: seq<B.Sent>): System
    decreases |sent|
  {
    if sent == [] then s
    else
      var m := sent[0];
      var s1 :=
        if m.fd in s.broker.open && s.broker.open[m.fd].End? then
          Push(s, Peer(s.broker.open[m.fd]), Packet(m.action, m.kind, m.name, m.lbl, Objects(s.broker.open, m.fds)))
        else s;
      Deliver(s1, sent[1..])
  }

  ghost function Exec(s: System, step: Step): System
    requires Enabled(s, step)
  {
    match step
    case Initialize(i, kind, lbl) =>
      var p := s.procs[i];
      var mem := NewMemory(s, kind);
      if !p.sock.End? then s
      else
        Push(SetProc(s, i, p.(wait := Initializing(kind, lbl, mem))).(next := s.next + 1),
             Peer(p.sock), Packet(Request, kind, "", lbl, mem))
    case Register(i, kind) =>
      var p := s.procs[i];
      if !p.sock.End? then s
      else Push(SetProc(s, i, p.(wait := Registering(kind))), Peer(p.sock), Packet(Protocol.Register, kind, "", "", []))
    case Return(i) =>
      var p := s.procs[i];
      var m := Queue(s, p.sock)[0];
      Pop(SetProc(s, i, Returned(p, m)), p.sock)
    case Dispatch(i, kind) =>
      var p := s.procs[i];
      var m := Queue(s, p.disp[kind])[0];
      Pop(SetProc(s, i, p.(handling := Handling(kind, m, false))), p.disp[kind])
    case Accept(i) =>
      var p := s.procs[i];
      var h := p.handling;
      var v := ServerSession(h.kind, h.request.name, h.request.lbl, h.request.objs[1],
                             if h.kind == Memory then [h.request.objs[2]] else []);
      Push(SetProc(s, i, p.(handling := h.(accepted := true), servers := p.servers + {v})),
           Peer(p.disp[h.kind]), Packet(Confirm, h.kind, h.request.name, h.request.lbl, [h.request.objs[0]]))
    case Finish(i) =>
      var p := s.procs[i];
      var h := p.handling;
      var s1 := SetProc(s, i, p.(handling := NoRequest));
      if h.accepted then s1
      else Push(s1, Peer(p.disp[h.kind]), Packet(Reject, h.kind, h.request.name, h.request.lbl, []))
    case Disconnect(i, c) => SetProc(s, i, s.procs[i].(clients := s.procs[i].clients - {c}))
    case Cleanup(i, v) => SetProc(s, i, s.procs[i].(servers := s.procs[i].servers - {v}))
    case Die(i) => SetProc(s, i, s.procs[i].(alive := false, clients := {}))
    case Read(fd, nums, env) => AfterRead(s, fd, nums, env)
    case Hangup(i) => s.(broker := B.OnExit(s.broker, i))
  }

  /** What a blocked call makes of the packet it receives. */
  function Returned(p: Proc, m: Packet): Proc
    requires p.wait != Idle
  {
    match p.wait
    case Initializing(kind, lbl, mem) =>
      if m.kind == kind && SessionKind(kind) && |m.objs| > 0
      then p.(wait := Idle, clients := p.clients + {ClientSession(kind, lbl, m.objs[0], mem)})
      else p.(wait := Idle)
    case Registering(kind) =>
      if m.kind == kind && |m.objs| > 0
      then p.(wait := Idle, disp := p.disp[kind := m.objs[0]])
      else p.(wait := Idle)
  }

  /* ---- Runs ---- */

  /** The system right after startup: the broker holds one end of each started
      component's socket, the component's process the other, all distinct. */
  ghost predicate Start(s: System, cfg: seq<Node>) {
    && |s.procs| == |s.broker.components| == |cfg|
    && s.queues == map[]
    && (forall i :: 0 <= i < |cfg| ==> s.broker.components[i].serv == B.NoServices)
    && (forall i :: 0 <= i < |cfg| ==> Started(s, cfg, i))
    && (forall i, j :: 0 <= i < j < |cfg| && s.procs[i].alive && s.procs[j].alive ==> s.procs[i].sock != s.procs[j].sock)
  }

  ghost predicate Started(s: System, cfg: seq<Node>, i: nat)
    requires i < |s.procs| && i < |s.broker.components| && i < |cfg|
  {
    var p, c := s.procs[i], s.broker.components[i];
    && p.wait == Idle && p.disp == map[] && p.handling == NoRequest && p.servers == {} && p.clients == {}
    && p.sock.End?
    && (p.alive <==> Valid(c.fd))
    && (Valid(c.fd) ==>
          && c.node == At(cfg[i]) && Attribute(cfg[i], "name", MaxText).Found?
          && c.fd in s.broker.open && s.broker.open[c.fd] == Peer(p.sock) && p.sock.second
          && p.sock.pair < s.next)
  }

  /** Component names are unique in the configuration. */
  ghost predicate DistinctNames(cfg: seq<Node>) {
    forall i, j :: 0 <= i < j < |cfg| && Attribute(cfg[i], "name", MaxText).Found?
      ==> Attribute(cfg[i], "name", MaxText) != Attribute(cfg[j], "name", MaxText)
  }

  ghost predicate Run(cfg: seq<Node>, states: seq<System>, steps: seq<Step>) {
    && |states| == |steps| + 1
    && Start(states[0], cfg)
    && forall i :: 0 <= i < |steps| ==> Enabled(states[i], steps[i]) && states[i + 1] == Exec(states[i], steps[i])
  }

  /* ---- Names ---- */

  ghost predicate Named(n: Node) { Attribute(n, "name", MaxText).Found? }

  ghost function NameOf(n: Node): Text
    requires Named(n)
  {
    Attribute(n, "name", MaxText).value
  }

  ghost predicate HasName(cfg: seq<Node>, c: int, name: Text) {
    0 <= c < |cfg| && Attribute(cfg[c], "name", MaxText) == Found(name)
  }

  /** The component with this name. */
  ghost function Owner(cfg: seq<Node>, name: Text): (c: int)
    ensures c != -1 ==> HasName(cfg, c, name)
  {
    if exists c :: HasName(cfg, c, name) then var c :| HasName(cfg, c, name); c else -1
  }

  lemma OwnerIs(cfg: seq<Node>, c: nat, name: Text)
    requires DistinctNames(cfg) && HasName(cfg, c, name)
    ensures Owner(cfg, name) == c
  {
    var o := Owner(cfg, name);
    assert o != -1;
    assert HasName(cfg, o, name);
  }

  /** Component `c`'s configuration sends requests of this kind and label to
      component `d`: the service entry chosen for it names `d` as its server. */
  ghost predicate Configured(cfg: seq<Node>, c: nat, k: Kind, lbl: Text, d: nat) {
    && c < |cfg| && d < |cfg|
    && var serv := ServiceOf(cfg[c], Image(k), lbl);
    && serv.Some?
    && Attribute(serv.value, "server", MaxText).Found?
    && Attribute(cfg[d], "name", MaxText) == Attribute(serv.value, "server", MaxText)
  }

  /** What the broker itself opens for a client: for Rom the file of the resource
      that the chosen service entry names, for Timer a timer. */
  ghost predicate OpenedFor(cfg: seq<Node>, resources: seq<Query>, c: nat, k: Kind, lbl: Text, o: Object) {
    && (k == Rom ==>
          && c < |cfg| && o.File?
          && var serv := ServiceOf(cfg[c], Image(Rom), lbl);
          serv.Some? && ResourceLocation(resources, serv.value) == Some(o.path))
    && (k == Timer ==> o.Timerfd?)
  }
}
