/** What the broker's table keeps, and what each packet leads to, whatever the
    components send. */
module BrokerTheorems {
  import opened Basics
  import opened Protocol
  import opened Config
  import opened Broker

  /* ---- The table of descriptors ---- */

  /** A place in the component table that can hold a descriptor. */
  datatype Slot = CompSlot(i: nat) | BrokerSlot(i: nat, k: Kind) | DispSlot(i: nat, k: Kind)

  ghost function FdAt(cs: seq<Component>, s: Slot): int {
    if s.i >= |cs| then -1
    else
      match s
      case CompSlot(i) => cs[i].fd
      case BrokerSlot(i, k) => cs[i].serv[k].broker
      case DispSlot(i, k) => cs[i].serv[k].disp
  }

  ghost predicate EntryOk(e: ServiceEntry) {
    e == NoEntry || (Valid(e.broker) && Valid(e.disp))
  }

  /** All descriptors in the table are open, and no two places share one.  Each
      service entry has both of its ends or none, and they are peers. */
  ghost predicate TableOk(st: State) {
    && Complete(st)
    && ResourcesValid(st.resources)
    && (forall s :: Valid(FdAt(st.components, s)) ==> FdAt(st.components, s) in st.open)
    && (forall a, b :: Valid(FdAt(st.components, a)) && FdAt(st.components, a) == FdAt(st.components, b) ==> a == b)
    && (forall i, k :: 0 <= i < |st.components| && Valid(st.components[i].serv[k].broker) ==>
          PeersAt(st.open, st.components[i].serv[k]))
  }

  /** Running components have a node, and service entries are complete or
      empty. */
  ghost predicate Complete(st: State) {
    && ComponentsValid(st.components)
    && (forall i, k :: 0 <= i < |st.components| ==> EntryOk(st.components[i].serv[k]))
  }

  ghost predicate PeersAt(open: map<int, Object>, e: ServiceEntry) {
    && e.broker in open && e.disp in open && open[e.broker].End?
    && open[e.disp] == Peer(open[e.broker])
  }

  /** Descriptors that came with a packet are open and in no table place. */
  ghost predicate Loose(st: State, fds: seq<int>) {
    forall j :: 0 <= j < |fds| ==> LooseFd(st, fds[j])
  }

  ghost predicate LooseFd(st: State, fd: int) {
    Valid(fd) ==> fd in st.open && forall s :: FdAt(st.components, s) != fd
  }

  lemma MoreOpen(st: State, more: map<int, Object>)
    requires TableOk(st) && forall s :: Valid(FdAt(st.components, s)) ==> FdAt(st.components, s) in more && more[FdAt(st.components, s)] == st.open[FdAt(st.components, s)]
    ensures TableOk(st.(open := more))
  {
    var t := st.(open := more);
    forall i, k | 0 <= i < |t.components| && Valid(t.components[i].serv[k].broker) ensures PeersAt(t.open, t.components[i].serv[k]) {
      assert PeersAt(st.open, st.components[i].serv[k]);
      assert FdAt(st.components, BrokerSlot(i, k)) == st.components[i].serv[k].broker;
      assert FdAt(st.components, DispSlot(i, k)) == st.components[i].serv[k].disp;
    }
  }

  /** Closing a descriptor that the table does not hold. */
  lemma CloseLoose(st: State, fd: int)
    requires TableOk(st) && LooseFd(st, fd)
    ensures TableOk(st.(open := Close(st.open, fd)))
  {
    MoreOpen(st, Close(st.open, fd));
  }

  ghost function Filled(st: State, d: nat, kind: Kind, p: (int, int), id: nat): State
    requires d < |st.components|
  {
    SetServ(st.(open := InstallPair(st.open, p, id)), d, kind, ServiceEntry(p.0, p.1))
  }

  lemma FilledSlot(st: State, d: nat, kind: Kind, p: (int, int), id: nat, s: Slot)
    requires d < |st.components|
    ensures FdAt(Filled(st, d, kind, p, id).components, s)
         == if s == BrokerSlot(d, kind) then p.0 else if s == DispSlot(d, kind) then p.1 else FdAt(st.components, s)
  {
  }

  lemma FilledEntry(st: State, d: nat, kind: Kind, p: (int, int), id: nat, i: nat, k: Kind)
    requires TableOk(st) && d < |st.components| && i < |st.components|
    requires FreshPair(st.open, p) && BothValid(p)
    ensures var t := Filled(st, d, kind, p, id);
            EntryOk(t.components[i].serv[k]) && (Valid(t.components[i].serv[k].broker) ==> PeersAt(t.open, t.components[i].serv[k]))
  {
    var t := Filled(st, d, kind, p, id);
    assert t.open == st.open[p.0 := End(id, false)][p.1 := End(id, true)];
    if i != d || k != kind {
      assert t.components[i].serv[k] == st.components[i].serv[k];
      assert EntryOk(st.components[i].serv[k]);
    }
  }

  /** A fresh socketpair in an empty entry. */
  lemma FillEntry(st: State, d: nat, kind: Kind, p: (int, int), id: nat)
    requires TableOk(st) && d < |st.components| && st.components[d].serv[kind] == NoEntry
    requires FreshPair(st.open, p) && BothValid(p)
    ensures TableOk(Filled(st, d, kind, p, id))
  {
    var t := Filled(st, d, kind, p, id);
    var cs, ct := st.components, t.components;
    assert t.open == st.open[p.0 := End(id, false)][p.1 := End(id, true)];
    forall s ensures Valid(FdAt(ct, s)) ==> FdAt(ct, s) in t.open { FilledSlot(st, d, kind, p, id, s); }
    forall a, b | Valid(FdAt(ct, a)) && FdAt(ct, a) == FdAt(ct, b) ensures a == b {
      FilledSlot(st, d, kind, p, id, a);
      FilledSlot(st, d, kind, p, id, b);
    }
    forall i, k | 0 <= i < |ct| ensures EntryOk(ct[i].serv[k]) && (Valid(ct[i].serv[k].broker) ==> PeersAt(t.open, ct[i].serv[k])) {
      FilledEntry(st, d, kind, p, id, i, k);
    }
  }

  /** `Setup_Service` keeps the table, opens only its own pair, and on success
      leaves a usable entry. */
  lemma SetupKeeps(st: State, d: nat, kind: Kind, env: Env)
    requires TableOk(st) && d < |st.components| && Kernel(st.open, env)
    ensures var (t, ok) := SetupService(st, d, kind, env);
            && TableOk(t) && Extends(st.open, t.open)
            && (ok ==> Valid(t.components[d].serv[kind].broker) && Valid(t.components[d].serv[kind].disp))
            && (!ok ==> t == st)
            && (forall f :: f in t.open && f !in st.open ==> f == env.serv.0 || f == env.serv.1)
  {
    assert EntryOk(st.components[d].serv[kind]);
    if st.components[d].serv[kind] == NoEntry {
      if BothValid(env.serv) && env.epollOk {
        FillEntry(st, d, kind, env.serv, env.servId);
      } else {
        assert st.components[d].serv[kind := NoEntry] == st.components[d].serv;
        assert st.components[d := st.components[d]] == st.components;
      }
    }
  }

  lemma ForwardKeeps(st: State, source: nat, kind: Kind, name: Text, lbl: Text, d: nat, env: Env, mem: seq<int>)
    requires TableOk(st) && source < |st.components| && d < |st.components| && Kernel(st.open, env) && BothValid(env.pair)
    requires |mem| <= 1 && Loose(st, mem)
    ensures TableOk(Forward(st, source, kind, name, lbl, d, env, mem).st)
  {
    SetupKeeps(st, d, kind, env);
    var (st1, ok) := SetupService(st, d, kind, env);
    if ok {
      MoreOpen(st1, InstallPair(st1.open, env.pair, env.pairId));
    } else if mem != [] {
      CloseLoose(st, mem[0]);
    }
  }

  /** The descriptors that a plan closes or forwards are not the table's. */
  ghost predicate PlanOk(st: State, p: Plan) {
    && (p.Refuse? ==> LooseFd(st, p.close))
    && (p.Pass? ==> p.dest < |st.components| && |p.mem| <= 1 && Loose(st, p.mem))
  }

  lemma ActKeeps(st: State, source: nat, kind: Kind, lbl: Text, p: Plan, env: Env)
    requires TableOk(st) && source < |st.components| && Kernel(st.open, env) && PlanOk(st, p)
    requires p.Pass? ==> BothValid(env.pair)
    ensures TableOk(Act(st, source, kind, lbl, p, env).st)
  {
    match p
    case Ignore =>
    case Refuse(fd) => CloseLoose(st, fd);
    case GiveFile(path) => MoreOpen(st, Install(st.open, env.file, File(path)));
    case GiveTimer => MoreOpen(st, Install(st.open, env.timer, Timerfd(env.timerId)));
    case Pass(d, name, mem) => ForwardKeeps(st, source, kind, name, lbl, d, env, mem);
  }

  lemma RequestKeeps(st: State, source: nat, kind: Kind, lbl: Text, fds: seq<int>, env: Env)
    requires TableOk(st) && source < |st.components| && Kernel(st.open, env) && Loose(st, fds)
    ensures TableOk(OnRequest(st, source, kind, lbl, fds, env).st)
  {
    ActKeeps(st, source, kind, lbl, PlanOf(st, source, kind, lbl, fds, env), env);
  }

  /** Any packet from anybody keeps the table. */
  lemma MessageKeeps(st: State, source: nat, action: Action, kind: Kind, name: Text, lbl: Text, fds: seq<int>, env: Env)
    requires TableOk(st) && source < |st.components| && Kernel(st.open, env) && Loose(st, fds)
    ensures TableOk(OnMessage(st, source, action, kind, name, lbl, fds, env).st)
  {
    match action
    case Request => RequestKeeps(st, source, kind, lbl, fds, env);
    case Register => SetupKeeps(st, source, kind, env);
    case Confirm => assert OnConfirm(st, kind, name, lbl, fds).st == st;
    case Reject => assert OnReject(st, kind, name, lbl).st == st;
  }

  /** So does a component's exit. */
  lemma ExitKeeps(st: State, i: nat)
    requires TableOk(st) && i < |st.components| && st.root.Element?
    ensures TableOk(OnExit(st, i))
  {
    var t := OnExit(st, i);
    forall s ensures FdAt(t.components, s) == if s == CompSlot(i) then -1 else FdAt(st.components, s) { }
    assert FdAt(st.components, CompSlot(i)) == st.components[i].fd;
    forall j, k | 0 <= j < |t.components| ensures EntryOk(t.components[j].serv[k]) && (Valid(t.components[j].serv[k].broker) ==> PeersAt(t.open, t.components[j].serv[k])) {
      assert t.components[j].serv[k] == st.components[j].serv[k];
      assert EntryOk(st.components[j].serv[k]);
      assert FdAt(st.components, BrokerSlot(j, k)) == st.components[j].serv[k].broker;
      assert FdAt(st.components, DispSlot(j, k)) == st.components[j].serv[k].disp;
    }
  }

  /** A descriptor has at most one owner, so the first component that
      `Get_Dest` finds is the only one. */
  lemma OwnerUnique(st: State, fd: int, i: nat, j: nat)
    requires TableOk(st) && Valid(fd) && i < |st.components| && j < |st.components|
    requires Owns(st.components[i], fd) && Owns(st.components[j], fd)
    ensures i == j
  {
    var a := SlotOf(st, fd, i);
    var b := SlotOf(st, fd, j);
  }

  lemma SlotOf(st: State, fd: int, i: nat) returns (s: Slot)
    requires i < |st.components| && Owns(st.components[i], fd)
    ensures s.i == i && FdAt(st.components, s) == fd
  {
    if st.components[i].fd == fd {
      s := CompSlot(i);
    } else {
      var k :| st.components[i].serv[k].broker == fd;
      s := BrokerSlot(i, k);
    }
  }

  /* ---- What a packet leads to ---- */

  /** A packet is written to a component's socket, or to the broker's end of a
      service socket. */
  ghost predicate Target(cs: seq<Component>, x: Sent, s: Slot) {
    !s.DispSlot? && Valid(x.fd) && x.fd == FdAt(cs, s) && (x.action == Request <==> s.BrokerSlot?)
  }

  lemma SetupAnswers(st: State, d: nat, kind: Kind, env: Env)
    requires Complete(st) && d < |st.components|
    ensures var (t, ok) := SetupService(st, d, kind, env);
            && (ok ==> Valid(t.components[d].serv[kind].broker) && Valid(t.components[d].serv[kind].disp))
            && (!ok ==> t == st)
            && |t.components| == |st.components|
            && forall i :: 0 <= i < |st.components| ==> t.components[i].fd == st.components[i].fd
  {
    assert EntryOk(st.components[d].serv[kind]);
    if st.components[d].serv[kind] == NoEntry && !(BothValid(env.serv) && env.epollOk) {
      assert st.components[d].serv[kind := NoEntry] == st.components[d].serv;
      assert st.components[d := st.components[d]] == st.components;
    }
  }

  lemma ForwardTarget(st: State, source: nat, kind: Kind, name: Text, lbl: Text, d: nat, env: Env, mem: seq<int>)
    returns (s: Slot)
    requires Complete(st) && source < |st.components| && d < |st.components|
    requires Valid(st.components[source].fd)
    ensures var r := Forward(st, source, kind, name, lbl, d, env, mem);
            |r.sent| == 1 && Target(r.st.components, r.sent[0], s)
  {
    SetupAnswers(st, d, kind, env);
    s := if SetupService(st, d, kind, env).1 then BrokerSlot(d, kind) else CompSlot(source);
  }

  /** Every `Send` has a valid destination. */
  lemma SendsHaveTargets(st: State, source: nat, action: Action, kind: Kind, name: Text, lbl: Text, fds: seq<int>, env: Env)
    returns (s: Slot)
    requires Complete(st) && source < |st.components| && Valid(st.components[source].fd)
    ensures var r := OnMessage(st, source, action, kind, name, lbl, fds, env);
            |r.sent| <= 1 && (r.sent != [] ==> Target(r.st.components, r.sent[0], s))
  {
    s := CompSlot(source);
    match action
    case Confirm => s := CompSlot(FindComponent(st.components, name, 0));
    case Reject => s := CompSlot(FindComponent(st.components, name, 0));
    case Register => SetupAnswers(st, source, kind, env);
    case Request => if |lbl| < 256 { s := RequestTarget(st, source, kind, lbl, fds, env); }
  }

  lemma RequestTarget(st: State, source: nat, kind: Kind, lbl: Text, fds: seq<int>, env: Env) returns (s: Slot)
    requires Complete(st) && source < |st.components| && Valid(st.components[source].fd)
    ensures var r := OnRequest(st, source, kind, lbl, fds, env);
            |r.sent| <= 1 && (r.sent != [] ==> Target(r.st.components, r.sent[0], s))
  {
    s := ActTarget(st, source, kind, lbl, PlanOf(st, source, kind, lbl, fds, env), env);
  }

  lemma ActTarget(st: State, source: nat, kind: Kind, lbl: Text, p: Plan, env: Env) returns (s: Slot)
    requires Complete(st) && source < |st.components| && Valid(st.components[source].fd)
    requires p.Pass? ==> p.dest < |st.components|
    ensures var r := Act(st, source, kind, lbl, p, env);
            |r.sent| <= 1 && (r.sent != [] ==> Target(r.st.components, r.sent[0], s))
  {
    s := CompSlot(source);
    if p.Pass? { s := ForwardTarget(st, source, kind, p.name, lbl, p.dest, env, p.mem); }
  }

  ghost predicate RomToServer(st: State, source: nat, kind: Kind, lbl: Text)
    requires source < |st.components| && st.components[source].node.At?
  {
    var node := st.components[source].node.node;
    kind == Rom && RouteOf(st.components, node, kind, lbl).To? && Attribute(node, "name", MaxText).Found?
  }

  /** A forwarded or rejected session request, as one packet. */
  lemma ForwardAnswers(st: State, source: nat, kind: Kind, name: Text, lbl: Text, d: nat, env: Env, mem: seq<int>)
    requires Complete(st) && source < |st.components| && d < |st.components|
    requires |mem| <= 1
    ensures var r := Forward(st, source, kind, name, lbl, d, env, mem);
            && |r.sent| == 1 && r.sent[0].kind == kind && r.sent[0].lbl == lbl
            && (r.sent[0].action == Reject ==> r.st.components == st.components && r.st.open.Keys <= st.open.Keys)
  {
    SetupAnswers(st, d, kind, env);
  }

  /** A request from a running component is answered by exactly one packet of
      the same kind and label, unless it is a Rom request whose service names a
      component.  A rejection leaves nothing open that was not open before. */
  lemma RequestsAreAnswered(st: State, source: nat, kind: Kind, lbl: Text, fds: seq<int>, env: Env)
    requires Complete(st) && source < |st.components| && Valid(st.components[source].fd)
    requires |lbl| <= MaxText
    ensures var r := OnMessage(st, source, Request, kind, "", lbl, fds, env);
            && (r.sent == [] <==> RomToServer(st, source, kind, lbl))
            && |r.sent| <= 1
            && (r.sent != [] ==>
                  && r.sent[0].kind == kind && r.sent[0].lbl == lbl
                  && (r.sent[0].action == Reject ==> r.st.components == st.components && r.st.open.Keys <= st.open.Keys))
  {
    var p := PlanOf(st, source, kind, lbl, fds, env);
    ActAnswers(st, source, kind, lbl, p, env);
    assert p == Ignore <==> RomToServer(st, source, kind, lbl);
  }

  lemma ActAnswers(st: State, source: nat, kind: Kind, lbl: Text, p: Plan, env: Env)
    requires Complete(st) && source < |st.components|
    requires p.Pass? ==> p.dest < |st.components| && |p.mem| <= 1
    ensures var r := Act(st, source, kind, lbl, p, env);
            && (r.sent == [] <==> p == Ignore)
            && |r.sent| <= 1
            && (r.sent != [] ==>
                  && r.sent[0].kind == kind && r.sent[0].lbl == lbl
                  && (r.sent[0].action == Reject ==> r.st.components == st.components && r.st.open.Keys <= st.open.Keys))
  {
    if p.Pass? { ForwardAnswers(st, source, kind, p.name, lbl, p.dest, env, p.mem); }
  }

  /** `serv` is an entry of component `source`'s own node, for this kind and
      for this label or any. */
  ghost predicate OwnService(st: State, source: nat, kind: Kind, lbl: Text, serv: Node) {
    && source < |st.components| && Valid(st.components[source].fd) && st.components[source].node.At?
    && serv in Children(st.components[source].node.node) && IsService(serv, Image(kind))
    && (Attribute(serv, "label", MaxText) == NotFound || Same(Attribute(serv, "label", MaxText), lbl))
  }

  /** `serv` names component `d`, which is running, as its server. */
  ghost predicate Serves(st: State, serv: Node, d: nat) {
    && d < |st.components| && Valid(st.components[d].fd) && st.components[d].node.At?
    && Attribute(serv, "server", MaxText).Found?
    && Attribute(st.components[d].node.node, "name", MaxText) == Attribute(serv, "server", MaxText)
  }

  lemma PassRoute(st: State, source: nat, kind: Kind, lbl: Text, fds: seq<int>, env: Env) returns (serv: Node)
    requires source < |st.components| && PlanOf(st, source, kind, lbl, fds, env).Pass?
    ensures var p := PlanOf(st, source, kind, lbl, fds, env);
            && SessionKind(kind) && OwnService(st, source, kind, lbl, serv) && Serves(st, serv, p.dest)
            && Attribute(st.components[source].node.node, "name", MaxText) == Found(p.name)
  {
    serv := RouteOf(st.components, st.components[source].node.node, kind, lbl).serv;
  }

  /** Only `Forward` sends requests on. */
  lemma ActForwards(st: State, source: nat, kind: Kind, lbl: Text, p: Plan, env: Env)
    requires source < |st.components| && (p.Pass? ==> p.dest < |st.components|)
    requires Act(st, source, kind, lbl, p, env).sent != [] && Act(st, source, kind, lbl, p, env).sent[0].action == Request
    ensures p.Pass?
    ensures var r := Act(st, source, kind, lbl, p, env);
            && |r.st.components| == |st.components|
            && r.sent[0].fd == r.st.components[p.dest].serv[kind].broker
            && r.sent[0].kind == kind && r.sent[0].lbl == lbl && r.sent[0].name == p.name
  {
  }

  lemma OnlyRequestsForward(st: State, source: nat, action: Action, kind: Kind, name: Text, lbl: Text, fds: seq<int>, env: Env)
    requires source < |st.components|
    requires var r := OnMessage(st, source, action, kind, name, lbl, fds, env);
             r.sent != [] && r.sent[0].action == Request
    ensures action == Request
    ensures OnMessage(st, source, action, kind, name, lbl, fds, env)
         == Act(st, source, kind, lbl, PlanOf(st, source, kind, lbl, fds, env), env)
  {
    match action
    case Request =>
    case Confirm =>
    case Reject =>
    case Register =>
  }

  /** A forwarded request goes to the component that the requester's service
      entry names, under the requester's own name. */
  lemma ForwardedFollowsConfig(st: State, source: nat, action: Action, kind: Kind, name: Text, lbl: Text, fds: seq<int>, env: Env)
    returns (d: nat, serv: Node)
    requires Complete(st) && source < |st.components|
    requires var r := OnMessage(st, source, action, kind, name, lbl, fds, env);
             r.sent != [] && r.sent[0].action == Request
    ensures var r := OnMessage(st, source, action, kind, name, lbl, fds, env);
            && r.sent[0].kind == kind && r.sent[0].lbl == lbl
            && OwnService(st, source, kind, lbl, serv) && Serves(st, serv, d)
            && Attribute(st.components[source].node.node, "name", MaxText) == Found(r.sent[0].name)
            && d < |r.st.components| && r.sent[0].fd == r.st.components[d].serv[kind].broker
  {
    OnlyRequestsForward(st, source, action, kind, name, lbl, fds, env);
    ActForwards(st, source, kind, lbl, PlanOf(st, source, kind, lbl, fds, env), env);
    serv := PassRoute(st, source, kind, lbl, fds, env);
    d := PlanOf(st, source, kind, lbl, fds, env).dest;
  }

  /** A resource entry of type File, with this name and at this location. */
  ghost predicate FileResource(st: State, name: Attr, path: Text) {
    exists i :: 0 <= i < |st.resources| && st.resources[i].At?
      && Attribute(st.resources[i].node, "name", MaxText) == name
      && Attribute(st.resources[i].node, "type", MaxText) == Found("File")
      && Attribute(st.resources[i].node, "location", 4096) == Found(path)
  }

  /** What a Rom or Timer plan rests on. */
  lemma GiveRoute(st: State, source: nat, kind: Kind, lbl: Text, fds: seq<int>, env: Env) returns (serv: Node)
    requires source < |st.components|
    requires PlanOf(st, source, kind, lbl, fds, env).GiveFile? || PlanOf(st, source, kind, lbl, fds, env).GiveTimer?
    ensures var p := PlanOf(st, source, kind, lbl, fds, env);
            && OwnService(st, source, kind, lbl, serv)
            && (if p.GiveFile? then kind == Rom && FileResource(st, Attribute(serv, "resource", 4096), p.path) else kind == Timer)
  {
    var p := PlanOf(st, source, kind, lbl, fds, env);
    serv := RouteOf(st.components, st.components[source].node.node, kind, lbl).serv;
    if p.GiveFile? {
      var name := Attribute(serv, "resource", 4096).value;
      var i := FindResource(st.resources, name, 0);
      assert NamedResource(st.resources[i], name);
    }
  }

  /** A Rom or Timer request is confirmed only for a service entry of that
      kind, and Rom only with the file of a resource of type File. */
  lemma ConfirmedFollowsConfig(st: State, source: nat, kind: Kind, lbl: Text, fds: seq<int>, env: Env) returns (serv: Node)
    requires Complete(st) && source < |st.components| && |lbl| <= MaxText && Kernel(st.open, env)
    requires var r := OnMessage(st, source, Request, kind, "", lbl, fds, env);
             r.sent != [] && r.sent[0].action == Confirm
    ensures var r := OnMessage(st, source, Request, kind, "", lbl, fds, env);
            && (kind == Rom || kind == Timer) && OwnService(st, source, kind, lbl, serv)
            && r.sent[0].fd == st.components[source].fd
            && |r.sent[0].fds| == 1 && r.sent[0].fds[0] in r.st.open
            && (kind == Rom ==>
                  && r.st.open[r.sent[0].fds[0]].File?
                  && FileResource(st, Attribute(serv, "resource", 4096), r.st.open[r.sent[0].fds[0]].path))
  {
    var p := PlanOf(st, source, kind, lbl, fds, env);
    ActConfirms(st, source, kind, lbl, p, env);
    serv := GiveRoute(st, source, kind, lbl, fds, env);
  }

  lemma ActConfirms(st: State, source: nat, kind: Kind, lbl: Text, p: Plan, env: Env)
    requires source < |st.components| && (p.Pass? ==> p.dest < |st.components|)
    requires Act(st, source, kind, lbl, p, env).sent != [] && Act(st, source, kind, lbl, p, env).sent[0].action == Confirm
    requires (p.GiveFile? ==> Valid(env.file)) && (p.GiveTimer? ==> Valid(env.timer))
    ensures p.GiveFile? || p.GiveTimer?
    ensures var r := Act(st, source, kind, lbl, p, env);
            && r.sent[0].fd == st.components[source].fd
            && |r.sent[0].fds| == 1 && r.sent[0].fds[0] in r.st.open
            && (p.GiveFile? ==> r.st.open[r.sent[0].fds[0]] == File(p.path))
  {
  }

  /* ---- Runs of the broker, against arbitrary components ---- */

  /** One turn of the event loop: a packet (its descriptors arrive under fresh
      numbers), a packet that does not parse, or a hang-up. */
  datatype Event =
    | Got(source: nat, action: Action, kind: Kind, name: Text, lbl: Text, arrived: map<int, Object>, fds: seq<int>, env: Env)
    | Garbage
    | Left(i: nat)

  ghost predicate Possible(st: State, e: Event) {
    match e
    case Garbage => true
    case Left(i) => i < |st.components|
    case Got(source, action, kind, name, lbl, arrived, fds, env) =>
      && source < |st.components| && Valid(st.components[source].fd)
      && arrived.Keys !! st.open.Keys
      && (forall j :: 0 <= j < |fds| && Valid(fds[j]) ==> fds[j] in arrived)
      && Kernel(st.open + arrived, env)
  }

  ghost function After(st: State, e: Event): State
    requires Possible(st, e)
  {
    match e
    case Garbage => st
    case Left(i) => OnExit(st, i)
    case Got(source, action, kind, name, lbl, arrived, fds, env) =>
      OnMessage(st.(open := st.open + arrived), source, action, kind, name, lbl, fds, env).st
  }

  ghost predicate BrokerRun(states: seq<State>, events: seq<Event>) {
    && |states| == |events| + 1
    && TableOk(states[0]) && states[0].root.Element?
    && forall t :: 0 <= t < |events| ==> Possible(states[t], events[t]) && states[t + 1] == After(states[t], events[t])
  }

  lemma ArrivedOk(st: State, e: Event)
    requires TableOk(st) && e.Got? && Possible(st, e)
    ensures TableOk(st.(open := st.open + e.arrived)) && Loose(st.(open := st.open + e.arrived), e.fds)
  {
    var more := st.open + e.arrived;
    MoreOpen(st, more);
    forall j | 0 <= j < |e.fds| ensures LooseFd(st.(open := more), e.fds[j]) {
      forall s ensures Valid(e.fds[j]) ==> FdAt(st.components, s) != e.fds[j] {
        assert Valid(FdAt(st.components, s)) ==> FdAt(st.components, s) in st.open;
      }
    }
  }

  lemma EventKeeps(st: State, e: Event)
    requires TableOk(st) && st.root.Element? && Possible(st, e)
    ensures TableOk(After(st, e)) && After(st, e).root == st.root
  {
    match e
    case Garbage =>
    case Left(i) => ExitKeeps(st, i);
    case Got(source, action, kind, name, lbl, arrived, fds, env) =>
      GotKeeps(st, e);
  }

  lemma GotKeeps(st: State, e: Event)
    requires TableOk(st) && e.Got? && Possible(st, e)
    ensures TableOk(After(st, e)) && After(st, e).root == st.root
  {
    ArrivedOk(st, e);
    MessageKeeps(st.(open := st.open + e.arrived), e.source, e.action, e.kind, e.name, e.lbl, e.fds, e.env);
  }

  /** A turn's packet as an event, and then its hang-up. */
  ghost function PacketEvent(i: nat, ready: bool, msg: Option<Incoming>, arrived: map<int, Object>, fds: seq<int>, env: Env): Event {
    if ready && msg.Some? then Got(i, msg.value.action, msg.value.kind, msg.value.name, msg.value.lbl, arrived, fds, env) else Garbage
  }

  ghost function HangupEvent(i: nat, hup: bool): Event { if hup then Left(i) else Garbage }

  /** A turn of the event loop is these two events, so it keeps the table. */
  lemma TurnIsEvents(st: State, i: nat, ready: bool, msg: Option<Incoming>, arrived: map<int, Object>, fds: seq<int>, hup: bool, env: Env)
    requires i < |st.components| && Valid(st.components[i].fd)
    requires Possible(st, PacketEvent(i, ready, msg, arrived, fds, env))
    ensures var u := After(st, PacketEvent(i, ready, msg, arrived, fds, env));
            Possible(u, HangupEvent(i, hup)) && OnTurn(st, i, ready, msg, arrived, fds, hup, env).st == After(u, HangupEvent(i, hup))
    ensures TableOk(st) && st.root.Element? ==> TableOk(OnTurn(st, i, ready, msg, arrived, fds, hup, env).st)
  {
    var e := PacketEvent(i, ready, msg, arrived, fds, env);
    if TableOk(st) && st.root.Element? {
      EventKeeps(st, e);
      EventKeeps(After(st, e), HangupEvent(i, hup));
    }
  }

  /** In every run both tables stay valid, service entries are complete or
      empty, and no two places share a descriptor. */
  lemma {:induction false} TablesStayValid(states: seq<State>, events: seq<Event>, t: nat)
    requires BrokerRun(states, events) && t < |states|
    ensures TableOk(states[t]) && states[t].root == states[0].root
  {
    if t > 0 {
      TablesStayValid(states, events, t - 1);
      EventKeeps(states[t - 1], events[t - 1]);
      assert states[t - 1 + 1] == After(states[t - 1], events[t - 1]);
    }
  }

  /* ---- Service sockets never change ---- */

  /** The entry of `d` for `kind` in `b` is the one in `a`, with the same ends. */
  ghost predicate SameService(a: State, b: State, d: nat, kind: Kind) {
    && d < |a.components| && d < |b.components|
    && var e := a.components[d].serv[kind];
    b.components[d].serv[kind] == e
    && e.broker in a.open && e.broker in b.open && a.open[e.broker] == b.open[e.broker]
    && e.disp in a.open && e.disp in b.open && a.open[e.disp] == b.open[e.disp]
  }

  /** Component `d` has a service socket for `kind`. */
  ghost predicate Held(st: State, d: nat, kind: Kind) {
    && d < |st.components| && Valid(st.components[d].serv[kind].broker)
    && PeersAt(st.open, st.components[d].serv[kind])
  }

  lemma SetupKeepsService(st: State, i: nat, k: Kind, env: Env, d: nat, kind: Kind)
    requires Complete(st) && Held(st, d, kind) && i < |st.components| && FreshPair(st.open, env.serv)
    ensures SameService(st, SetupService(st, i, k, env).0, d, kind)
  {
    assert EntryOk(st.components[i].serv[k]) && EntryOk(st.components[d].serv[kind]);
    var t := SetupService(st, i, k, env).0;
    assert t.components[d].serv[kind] == st.components[d].serv[kind];
  }

  lemma ForwardKeepsService(st: State, source: nat, k: Kind, name: Text, lbl: Text, i: nat, env: Env, mem: seq<int>, d: nat, kind: Kind)
    requires Complete(st) && Held(st, d, kind) && source < |st.components| && i < |st.components| && Kernel(st.open, env)
    requires |mem| <= 1 && BothValid(env.pair)
    requires mem != [] ==> mem[0] != st.components[d].serv[kind].broker && mem[0] != st.components[d].serv[kind].disp
    ensures SameService(st, Forward(st, source, k, name, lbl, i, env, mem).st, d, kind)
  {
    SetupKeepsService(st, i, k, env, d, kind);
    SetupAnswers(st, i, k, env);
  }

  lemma ActKeepsService(st: State, source: nat, k: Kind, lbl: Text, p: Plan, env: Env, d: nat, kind: Kind)
    requires Complete(st) && Held(st, d, kind) && source < |st.components| && Kernel(st.open, env) && PlanOk(st, p)
    requires p.Pass? ==> BothValid(env.pair)
    ensures SameService(st, Act(st, source, k, lbl, p, env).st, d, kind)
  {
    assert EntryOk(st.components[d].serv[kind]);
    assert FdAt(st.components, BrokerSlot(d, kind)) == st.components[d].serv[kind].broker;
    assert FdAt(st.components, DispSlot(d, kind)) == st.components[d].serv[kind].disp;
    if p.Pass? {
      if p.mem != [] { assert LooseFd(st, p.mem[0]); }
      ForwardKeepsService(st, source, k, p.name, lbl, p.dest, env, p.mem, d, kind);
    }
  }

  lemma MessageKeepsService(st: State, source: nat, action: Action, k: Kind, name: Text, lbl: Text, fds: seq<int>, env: Env, d: nat, kind: Kind)
    requires Complete(st) && Held(st, d, kind) && source < |st.components| && Kernel(st.open, env) && Loose(st, fds)
    ensures SameService(st, OnMessage(st, source, action, k, name, lbl, fds, env).st, d, kind)
  {
    match action
    case Request => RequestKeepsService(st, source, k, lbl, fds, env, d, kind);
    case Register => SetupKeepsService(st, source, k, env, d, kind);
    case Confirm => assert OnConfirm(st, k, name, lbl, fds).st == st;
    case Reject => assert OnReject(st, k, name, lbl).st == st;
  }

  lemma RequestKeepsService(st: State, source: nat, k: Kind, lbl: Text, fds: seq<int>, env: Env, d: nat, kind: Kind)
    requires Complete(st) && Held(st, d, kind) && source < |st.components| && Kernel(st.open, env) && Loose(st, fds)
    ensures SameService(st, OnRequest(st, source, k, lbl, fds, env).st, d, kind)
  {
    PlanIsOk(st, source, k, lbl, fds, env);
    ActKeepsService(st, source, k, lbl, PlanOf(st, source, k, lbl, fds, env), env, d, kind);
  }

  lemma PlanIsOk(st: State, source: nat, k: Kind, lbl: Text, fds: seq<int>, env: Env)
    requires source < |st.components| && Loose(st, fds)
    ensures var p := PlanOf(st, source, k, lbl, fds, env); PlanOk(st, p) && (p.Pass? ==> BothValid(env.pair))
  {
    assert fds != [] ==> LooseFd(st, fds[0]);
  }

  /** A service socket that appears while a packet is handled is the new pair
      that the kernel created for it. */
  ghost predicate NewEnd(st: State, t: State, env: Env, d: nat, kind: Kind) {
    d < |st.components| && d < |t.components| && !Valid(st.components[d].serv[kind].broker) && Valid(t.components[d].serv[kind].broker)
    ==> t.components[d].serv[kind].disp in t.open && t.open[t.components[d].serv[kind].disp] == End(env.servId, true)
  }

  lemma SetupNewEnd(st: State, i: nat, k: Kind, env: Env, d: nat, kind: Kind)
    requires i < |st.components|
    ensures NewEnd(st, SetupService(st, i, k, env).0, env, d, kind)
  {
  }

  lemma ForwardNewEnd(st: State, source: nat, k: Kind, name: Text, lbl: Text, i: nat, env: Env, mem: seq<int>, d: nat, kind: Kind)
    requires Complete(st) && source < |st.components| && i < |st.components| && Kernel(st.open, env) && BothValid(env.pair)
    ensures NewEnd(st, Forward(st, source, k, name, lbl, i, env, mem).st, env, d, kind)
  {
    SetupNewEnd(st, i, k, env, d, kind);
    SetupAnswers(st, i, k, env);
  }

  lemma MessageNewEnd(st: State, source: nat, action: Action, k: Kind, name: Text, lbl: Text, fds: seq<int>, env: Env, d: nat, kind: Kind)
    requires Complete(st) && source < |st.components| && Kernel(st.open, env)
    ensures NewEnd(st, OnMessage(st, source, action, k, name, lbl, fds, env).st, env, d, kind)
  {
    match action
    case Request => RequestNewEnd(st, source, k, lbl, fds, env, d, kind);
    case Register => SetupNewEnd(st, source, k, env, d, kind);
    case Confirm => assert OnConfirm(st, k, name, lbl, fds).st == st;
    case Reject => assert OnReject(st, k, name, lbl).st == st;
  }

  lemma RequestNewEnd(st: State, source: nat, k: Kind, lbl: Text, fds: seq<int>, env: Env, d: nat, kind: Kind)
    requires Complete(st) && source < |st.components| && Kernel(st.open, env)
    ensures NewEnd(st, OnRequest(st, source, k, lbl, fds, env).st, env, d, kind)
  {
    ActNewEnd(st, source, k, lbl, PlanOf(st, source, k, lbl, fds, env), env, d, kind);
  }

  lemma ActNewEnd(st: State, source: nat, k: Kind, lbl: Text, p: Plan, env: Env, d: nat, kind: Kind)
    requires Complete(st) && source < |st.components| && Kernel(st.open, env)
    requires p.Pass? ==> p.dest < |st.components| && BothValid(env.pair)
    ensures NewEnd(st, Act(st, source, k, lbl, p, env).st, env, d, kind)
  {
    if p.Pass? { ForwardNewEnd(st, source, k, p.name, lbl, p.dest, env, p.mem, d, kind); }
  }

  lemma EventKeepsService(st: State, e: Event, d: nat, kind: Kind)
    requires TableOk(st) && Possible(st, e) && d < |st.components| && Valid(st.components[d].serv[kind].broker)
    ensures SameService(st, After(st, e), d, kind)
  {
    assert PeersAt(st.open, st.components[d].serv[kind]);
    match e
    case Garbage =>
    case Left(i) =>
      assert FdAt(st.components, CompSlot(i)) == st.components[i].fd;
      assert FdAt(st.components, BrokerSlot(d, kind)) == st.components[d].serv[kind].broker;
      assert FdAt(st.components, DispSlot(d, kind)) == st.components[d].serv[kind].disp;
    case Got(source, action, k, name, lbl, arrived, fds, env) =>
      ArrivedOk(st, e);
      MessageKeepsService(st.(open := st.open + arrived), source, action, k, name, lbl, fds, env, d, kind);
  }

  lemma ServiceStays(states: seq<State>, events: seq<Event>, t: nat, d: nat, kind: Kind)
    requires BrokerRun(states, events) && t < |events| && Held(states[t], d, kind)
    ensures SameService(states[t], states[t + 1], d, kind)
  {
    TablesStayValid(states, events, t);
    EventKeepsService(states[t], events[t], d, kind);
    assert states[t + 1] == After(states[t], events[t]);
  }

  /** Once a component has a service socket for a kind, it has the same one for
      the rest of the run: the end returned by `Register` is the peer of the end
      that all earlier and later requests of that kind are written to. */
  lemma {:induction false} ServiceSocketsStay(states: seq<State>, events: seq<Event>, t: nat, u: nat, d: nat, kind: Kind)
    requires BrokerRun(states, events) && t <= u < |states|
    requires d < |states[t].components| && Valid(states[t].components[d].serv[kind].broker)
    ensures SameService(states[t], states[u], d, kind)
    ensures PeersAt(states[u].open, states[u].components[d].serv[kind])
    decreases u - t
  {
    if t == u {
      TablesStayValid(states, events, u);
      assert PeersAt(states[u].open, states[u].components[d].serv[kind]);
    } else {
      ServiceSocketsStay(states, events, t, u - 1, d, kind);
      ServiceStays(states, events, u - 1, d, kind);
    }
  }
}
