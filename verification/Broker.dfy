/** The session broker's state and its reaction to one packet.

    Everything the kernel decides (which descriptor numbers a call returns, or
    that it fails) is a parameter `Env`, so the reaction is a function. */
module Broker {
  import opened Basics
  import opened Protocol
  import opened Config

  /** The broker's socketpair for one kind of service of one component: the
      broker keeps `broker` and hands `disp` to the component's dispatcher. */
  datatype ServiceEntry = ServiceEntry(broker: int, disp: int)

  const NoEntry := ServiceEntry(-1, -1)

  type ServiceList = m: map<Kind, ServiceEntry> | forall k: Kind :: k in m
    witness map k: Kind | true :: NoEntry

  const NoServices: ServiceList := map k: Kind | true :: NoEntry

  datatype Component = Component(fd: int, node: Query, pid: int, serv: ServiceList)

  const NoComponent := Component(-1, Initial, -1, NoServices)

  /** `open` are the descriptors open in the broker's process. */
  datatype State = State(
    root: Node,
    components: seq<Component>,
    resources: seq<Query>,
    open: map<int, Object>)

  /** A packet on its way: the descriptor it is written to, and the descriptors
      passed along. */
  datatype Sent = Sent(fd: int, action: Action, kind: Kind, name: Text, lbl: Text, fds: seq<int>)

  /** The kernel's answers while one packet is handled.  A socketpair is two
      numbers (both -1 if the call fails) and the identity of the new pair. */
  datatype Env = Env(
    pair: (int, int), pairId: nat,
    serv: (int, int), servId: nat,
    epollOk: bool,
    sealOk: bool,
    file: int,
    timer: int, timerId: nat)

  predicate FreshPair(open: map<int, Object>, p: (int, int)) {
    p == (-1, -1) || (Valid(p.0) && Valid(p.1) && p.0 != p.1 && p.0 !in open && p.1 !in open)
  }

  predicate FreshOne(open: map<int, Object>, fd: int) {
    fd == -1 || (Valid(fd) && fd !in open)
  }

  /** The kernel only hands out descriptor numbers that are not in use. */
  predicate Kernel(open: map<int, Object>, env: Env) {
    && FreshPair(open, env.pair)
    && FreshPair(open, env.serv)
    && FreshOne(open, env.file)
    && FreshOne(open, env.timer)
    && (env.pair != (-1, -1) ==> {env.pair.0, env.pair.1} !! {env.serv.0, env.serv.1})
  }

  function Install(open: map<int, Object>, fd: int, o: Object): map<int, Object> {
    if Valid(fd) then open[fd := o] else open
  }

  function InstallPair(open: map<int, Object>, p: (int, int), id: nat): map<int, Object> {
    Install(Install(open, p.0, End(id, false)), p.1, End(id, true))
  }

  /** Closing an invalid descriptor does nothing. */
  function Close(open: map<int, Object>, fd: int): map<int, Object> {
    if Valid(fd) then open - {fd} else open
  }

  predicate BothValid(p: (int, int)) { Valid(p.0) && Valid(p.1) }

  /* ---- Lookups over the component table ---- */

  predicate LiveNamed(c: Component, name: Text) {
    Valid(c.fd) && c.node.At? && Same(Attribute(c.node.node, "name", MaxText), name)
  }

  function FindComponent(cs: seq<Component>, name: Text, i: nat): (r: nat)
    requires i <= |cs|
    ensures i <= r <= |cs|
    ensures r < |cs| ==> LiveNamed(cs[r], name)
    ensures forall j :: i <= j < r ==> !LiveNamed(cs[j], name)
    decreases |cs| - i
  {
    if i == |cs| || LiveNamed(cs[i], name) then i
    else FindComponent(cs, name, i + 1)
  }

  /** Where a request goes: no service entry, an entry naming a server that is
      not running, an entry that the broker serves itself, or a component. */
  datatype Route = NoService | NoServer | Self(serv: Node) | To(serv: Node, dest: nat)

  function RouteOf(cs: seq<Component>, node: Node, kind: Kind, lbl: Text): (r: Route)
    ensures r.To? ==> r.dest < |cs| && Valid(cs[r.dest].fd)
  {
    match ServiceOf(node, Image(kind), lbl)
    case None => NoService
    case Some(serv) =>
      match Attribute(serv, "server", MaxText)
      case Found(name) =>
        var d := FindComponent(cs, name, 0);
        if d == |cs| then NoServer else To(serv, d)
      case _ => Self(serv)
  }

  /* ---- Table invariants ---- */

  /** `Is_Valid` of the component table. */
  ghost predicate ComponentsValid(cs: seq<Component>) {
    forall i :: 0 <= i < |cs| && Valid(cs[i].fd) ==> cs[i].node.At? && cs[i].node.node.Element?
  }

  /** `Is_Valid` of the resource table. */
  ghost predicate ResourcesValid(rs: seq<Query>) {
    forall i :: 0 <= i < |rs| && rs[i].At? ==> rs[i].node.Element?
  }

  /* ---- Reactions ---- */

  datatype Reaction = Reaction(st: State, sent: seq<Sent>)

  function SetServ(st: State, d: nat, kind: Kind, e: ServiceEntry): State
    requires d < |st.components|
  {
    st.(components := st.components[d := st.components[d].(serv := st.components[d].serv[kind := e])])
  }

  /** `Setup_Service`: make sure component `d` has a socketpair for `kind`. */
  function SetupService(st: State, d: nat, kind: Kind, env: Env): (r: (State, bool))
    requires d < |st.components|
    ensures |r.0.components| == |st.components| && r.0.root == st.root
  {
    var e := st.components[d].serv[kind];
    if Valid(e.broker) && Valid(e.disp) then (st, true)
    else if BothValid(env.serv) && env.epollOk then
      (SetServ(st.(open := InstallPair(st.open, env.serv, env.servId)), d, kind,
               ServiceEntry(env.serv.0, env.serv.1)), true)
    else (SetServ(st, d, kind, NoEntry), false)
  }

  function Rejected(st: State, source: nat, kind: Kind, lbl: Text): Reaction
    requires source < |st.components|
  {
    Reaction(st, [Sent(st.components[source].fd, Reject, kind, "", lbl, [])])
  }

  function Confirmed(st: State, source: nat, kind: Kind, lbl: Text, fd: int): Reaction
    requires source < |st.components|
  {
    Reaction(st, [Sent(st.components[source].fd, Confirm, kind, "", lbl, [fd])])
  }

  /** Hand a session's two ends (and its memory) to the server's dispatcher, or
      close what was opened and reject. */
  function Forward(st: State, source: nat, kind: Kind, name: Text, lbl: Text, d: nat, env: Env, mem: seq<int>): (r: Reaction)
    requires source < |st.components| && d < |st.components|
    ensures |r.st.components| == |st.components| && r.st.root == st.root && r.st.resources == st.resources
  {
    var (st1, ok) := SetupService(st, d, kind, env);
    if ok then
      Reaction(st1.(open := InstallPair(st1.open, env.pair, env.pairId)),
               [Sent(st1.components[d].serv[kind].broker, Request, kind, name, lbl, [env.pair.0, env.pair.1] + mem)])
    else
      Rejected(st1.(open := if mem == [] then st1.open else Close(st1.open, mem[0])), source, kind, lbl)
  }

  /** What is to be done about a request: nothing, reject it (closing its
      memory descriptor, unless -1), open a file or a timer for it, or forward
      it with its memory descriptor if it has one. */
  datatype Plan =
    | Ignore
    | Refuse(close: int)
    | GiveFile(path: Text)
    | GiveTimer
    | Pass(dest: nat, name: Text, mem: seq<int>)

  /** `Process_Request` up to the point where it acts.  `fds` are the
      descriptors that came with the packet.  A memory request brings its
      memory's descriptor along; it is sealed before anything else is opened. */
  function PlanOf(st: State, source: nat, kind: Kind, lbl: Text, fds: seq<int>, env: Env): (p: Plan)
    requires source < |st.components|
    ensures p.Pass? ==> p.dest < |st.components|
  {
    var c := st.components[source];
    if !Valid(c.fd) || !c.node.At? then Ignore
    else
      var route := RouteOf(st.components, c.node.node, kind, lbl);
      var name := Attribute(c.node.node, "name", MaxText);
      if route.NoService? || route.NoServer? || !name.Found? then Refuse(-1)
      else
        match kind
        case Rom =>
          if route.To? then Ignore
          else
            var location := ResourceLocation(st.resources, route.serv);
            if location.Some? && Valid(env.file) then GiveFile(location.value) else Refuse(-1)
        case Timer =>
          if Valid(env.timer) then GiveTimer else Refuse(-1)
        case Memory =>
          if route.Self? || |fds| == 0 || !Valid(fds[0]) then Refuse(-1)
          else if env.sealOk && BothValid(env.pair) then Pass(route.dest, name.value, [fds[0]])
          else Refuse(fds[0])
        case _ =>
          if route.To? && BothValid(env.pair) then Pass(route.dest, name.value, []) else Refuse(-1)
  }

  function Act(st: State, source: nat, kind: Kind, lbl: Text, p: Plan, env: Env): (r: Reaction)
    requires source < |st.components| && (p.Pass? ==> p.dest < |st.components|)
    ensures |r.st.components| == |st.components| && r.st.root == st.root && r.st.resources == st.resources
  {
    match p
    case Ignore => Reaction(st, [])
    case Refuse(fd) => Rejected(st.(open := Close(st.open, fd)), source, kind, lbl)
    case GiveFile(path) => Confirmed(st.(open := Install(st.open, env.file, File(path))), source, kind, lbl, env.file)
    case GiveTimer => Confirmed(st.(open := Install(st.open, env.timer, Timerfd(env.timerId))), source, kind, lbl, env.timer)
    case Pass(d, name, mem) => Forward(st, source, kind, name, lbl, d, env, mem)
  }

  /** `Process_Request`. */
  function OnRequest(st: State, source: nat, kind: Kind, lbl: Text, fds: seq<int>, env: Env): (r: Reaction)
    requires source < |st.components|
    ensures |r.st.components| == |st.components| && r.st.root == st.root && r.st.resources == st.resources
  {
    Act(st, source, kind, lbl, PlanOf(st, source, kind, lbl, fds, env), env)
  }

  /** `Process_Confirm`: pass the client's descriptor on to the component with
      this name. */
  function OnConfirm(st: State, kind: Kind, name: Text, lbl: Text, fds: seq<int>): (r: Reaction)
    ensures |r.st.components| == |st.components| && r.st.root == st.root && r.st.resources == st.resources
  {
    var d := FindComponent(st.components, name, 0);
    if d == |st.components| || kind == Rom || kind == Timer then Reaction(st, [])
    else if |fds| > 0 && fds[0] >= 0 then Confirmed(st, d, kind, lbl, fds[0])
    else Rejected(st, d, kind, lbl)
  }

  function OnReject(st: State, kind: Kind, name: Text, lbl: Text): (r: Reaction)
    ensures |r.st.components| == |st.components| && r.st.root == st.root && r.st.resources == st.resources
  {
    var d := FindComponent(st.components, name, 0);
    if d == |st.components| then Reaction(st, []) else Rejected(st, d, kind, lbl)
  }

  function OnRegister(st: State, source: nat, kind: Kind, env: Env): (r: Reaction)
    requires source < |st.components|
    ensures |r.st.components| == |st.components| && r.st.root == st.root && r.st.resources == st.resources
  {
    var (st1, ok) := SetupService(st, source, kind, env);
    if ok then Confirmed(st1, source, kind, "", st1.components[source].serv[kind].disp)
    else Rejected(st1, source, kind, "")
  }

  /** `Handle_Message`.  Answers whose name and label together exceed 255
      characters are dropped. */
  function OnMessage(st: State, source: nat, action: Action, kind: Kind, name: Text, lbl: Text, fds: seq<int>, env: Env): (r: Reaction)
    requires source < |st.components|
    ensures |r.st.components| == |st.components| && r.st.root == st.root && r.st.resources == st.resources
  {
    match action
    case Request => if |lbl| >= 256 then Reaction(st, []) else OnRequest(st, source, kind, lbl, fds, env)
    case Confirm => if |name| + |lbl| >= 256 then Reaction(st, []) else OnConfirm(st, kind, name, lbl, fds)
    case Reject => if |name| + |lbl| >= 256 then Reaction(st, []) else OnReject(st, kind, name, lbl)
    case Register => OnRegister(st, source, kind, env)
  }

  /** The exit branch of the event loop: forget the component's socket and
      node.  Its service sockets stay. */
  function OnExit(st: State, i: nat): State
    requires i < |st.components|
  {
    st.(open := Close(st.open, st.components[i].fd),
        components := st.components[i := st.components[i].(fd := -1, node := At(st.root), pid := -1)])
  }

  /** Does component `c` own descriptor `fd`?  (`Disp` ends are not read.) */
  predicate Owns(c: Component, fd: int) {
    c.fd == fd || exists k: Kind :: c.serv[k].broker == fd
  }

  /** `Get_Dest`: the first component that owns the descriptor. */
  ghost function Dest(cs: seq<Component>, fd: int): (r: nat)
    ensures r <= |cs|
    ensures r < |cs| ==> Owns(cs[r], fd)
    ensures forall j :: 0 <= j < r ==> !Owns(cs[j], fd)
  {
    DestFrom(cs, fd, 0)
  }

  ghost function DestFrom(cs: seq<Component>, fd: int, i: nat): (r: nat)
    requires i <= |cs|
    ensures i <= r <= |cs|
    ensures r < |cs| ==> Owns(cs[r], fd)
    ensures forall j :: i <= j < r ==> !Owns(cs[j], fd)
    decreases |cs| - i
  {
    if i == |cs| || Owns(cs[i], fd) then i else DestFrom(cs, fd, i + 1)
  }

  datatype Incoming = Incoming(action: Action, kind: Kind, name: Text, lbl: Text)

  /** One turn of the event loop for component `i`: read a packet if there is
      one (`None` does not parse; its descriptors are closed again), then treat
      a hang-up.  `arrived` are the descriptors that came with the packet. */
  function OnTurn(st: State, i: nat, ready: bool, msg: Option<Incoming>, arrived: map<int, Object>, fds: seq<int>, hup: bool, env: Env): Reaction
    requires i < |st.components|
  {
    var r :=
      if ready && msg.Some?
      then OnMessage(st.(open := st.open + arrived), i, msg.value.action, msg.value.kind, msg.value.name, msg.value.lbl, fds, env)
      else Reaction(st, []);
    if hup then Reaction(OnExit(r.st, i), r.sent) else r
  }
}
