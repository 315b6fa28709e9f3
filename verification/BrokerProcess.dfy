/** The broker as it runs: an object whose methods update the component table
    and the open descriptors in place and write packets.  Each method is proved
    to do what the corresponding function of module `Broker` says. */
module BrokerProcess {
  import opened Basics
  import opened Protocol
  import opened Config
  import opened Broker
  import opened BrokerTheorems

  /** Setting up a service does not disturb a session's pair that is open
      already. */
  lemma SetupCommutes(st: State, base: map<int, Object>, d: nat, kind: Kind, env: Env)
    requires d < |st.components| && BothValid(env.pair) && Kernel(base, env)
    requires st.open == InstallPair(base, env.pair, env.pairId)
    ensures FreshPair(st.open, env.serv)
    ensures var (t, ok) := SetupService(st.(open := base), d, kind, env);
            SetupService(st, d, kind, env) == (t.(open := InstallPair(t.open, env.pair, env.pairId)), ok)
  {
    var (t, ok) := SetupService(st.(open := base), d, kind, env);
    if BothValid(env.serv) {
      assert InstallPair(st.open, env.serv, env.servId) == InstallPair(InstallPair(base, env.serv, env.servId), env.pair, env.pairId);
    }
  }

  class Process {
    const root: Node
    var components: seq<Component>
    var resources: seq<Query>
    var open: map<int, Object>
    var sent: seq<Sent>

    constructor (root: Node, components: seq<Component>, resources: seq<Query>, open: map<int, Object>)
      ensures Now() == State(root, components, resources, open) && sent == []
    {
      this.root, this.components, this.resources, this.open, sent := root, components, resources, open, [];
    }

    function Now(): State
      reads this
    {
      State(root, components, resources, open)
    }

    /** `r` is what happened since `before`. */
    twostate predicate Did(r: Reaction)
      reads this
    {
      Now() == r.st && sent == old(sent) + r.sent
    }

    method CloseFd(fd: int)
      modifies this`open
      ensures open == Close(old(open), fd)
    {
      if Valid(fd) {
        open := open - {fd};
      }
    }

    method Socketpair(p: (int, int), id: nat)
      modifies this`open
      ensures open == InstallPair(old(open), p, id)
    {
      if Valid(p.0) { open := open[p.0 := End(id, false)]; }
      if Valid(p.1) { open := open[p.1 := End(id, true)]; }
    }

    method Send(fd: int, action: Action, kind: Kind, name: Text, lbl: Text, fds: seq<int>)
      modifies this`sent
      ensures sent == old(sent) + [Sent(fd, action, kind, name, lbl, fds)]
    {
      sent := sent + [Sent(fd, action, kind, name, lbl, fds)];
    }

    method SendReject(source: nat, kind: Kind, lbl: Text)
      requires source < |components|
      modifies this`sent
      ensures Did(Rejected(old(Now()), source, kind, lbl))
    {
      Send(components[source].fd, Reject, kind, "", lbl, []);
    }

    method SendConfirm(source: nat, kind: Kind, lbl: Text, fd: int)
      requires source < |components|
      modifies this`sent
      ensures Did(Confirmed(old(Now()), source, kind, lbl, fd))
    {
      Send(components[source].fd, Confirm, kind, "", lbl, [fd]);
    }

    /** `Find_Component_By_Name`. */
    method FindByName(name: Text) returns (index: nat, valid: bool)
      ensures index == FindComponent(components, name, 0)
      ensures valid <==> index < |components|
      ensures valid ==> LiveNamed(components[index], name) && forall j :: 0 <= j < index ==> !LiveNamed(components[j], name)
      ensures !valid ==> forall j :: 0 <= j < |components| ==> !LiveNamed(components[j], name)
    {
      index, valid := 0, false;
      if name == [] {
        index := |components|;
        return;
      }
      while index < |components| && !valid
        invariant index <= |components|
        invariant valid ==> index < |components| && LiveNamed(components[index], name)
        invariant forall j :: 0 <= j < index ==> !LiveNamed(components[j], name)
        decreases |components| - index, !valid
      {
        if components[index].fd > -1 && components[index].node.At? {
          valid := Same(Attribute(components[index].node.node, "name", MaxText), name);
        }
        if !valid {
          index := index + 1;
        }
      }
    }

    /** `Get_Dest`: the first component that owns the descriptor. */
    method GetDest(fd: int) returns (index: nat)
      ensures index == if Valid(fd) then Dest(components, fd) else |components|
    {
      index := |components|;
      if !Valid(fd) {
        return;
      }
      for i := 0 to |components|
        invariant index == |components|
        invariant forall j :: 0 <= j < i ==> !Owns(components[j], fd)
      {
        if components[i].fd == fd || exists k: Kind :: components[i].serv[k].broker == fd {
          return i;
        }
      }
    }

    /** `Setup_Service`. */
    method Setup(d: nat, kind: Kind, env: Env) returns (valid: bool)
      requires d < |components| && FreshPair(open, env.serv)
      modifies this`components, this`open
      ensures (Now(), valid) == SetupService(old(Now()), d, kind, env)
    {
      var e := components[d].serv[kind];
      if Valid(e.broker) && Valid(e.disp) {
        return true;
      }
      e, valid := NewService(env);
      components := components[d := components[d].(serv := components[d].serv[kind := e])];
    }

    /** Its new socketpair, closed again if anything fails. */
    method NewService(env: Env) returns (e: ServiceEntry, valid: bool)
      requires FreshPair(open, env.serv)
      modifies this`open
      ensures valid <==> BothValid(env.serv) && env.epollOk
      ensures e == if valid then ServiceEntry(env.serv.0, env.serv.1) else NoEntry
      ensures open == if valid then InstallPair(old(open), env.serv, env.servId) else old(open)
    {
      Socketpair(env.serv, env.servId);
      e := ServiceEntry(env.serv.0, env.serv.1);
      valid := Valid(e.broker) && Valid(e.disp) && env.epollOk;
      if !valid {
        CloseFd(e.broker);
        CloseFd(e.disp);
        e := NoEntry;
        assert open == old(open);
      }
    }

    /** The tail of `Process_Request` for sessions, with the session's pair
        already open: set up the service, then write the request to it, or
        close everything and reject. */
    method ForwardRequest(source: nat, kind: Kind, name: Text, lbl: Text, d: nat, env: Env, mem: seq<int>, ghost base: map<int, Object>)
      requires source < |components| && d < |components| && |mem| <= 1
      requires BothValid(env.pair) && Kernel(base, env) && open == InstallPair(base, env.pair, env.pairId)
      modifies this`components, this`open, this`sent
      ensures Did(Forward(old(Now()).(open := base), source, kind, name, lbl, d, env, mem))
    {
      SetupCommutes(Now(), base, d, kind, env);
      var valid := Setup(d, kind, env);
      if !valid {
        CloseFd(env.pair.0);
        CloseFd(env.pair.1);
        assert open == base;
        if mem != [] { CloseFd(mem[0]); }
        SendReject(source, kind, lbl);
      } else {
        Send(components[d].serv[kind].broker, Request, kind, name, lbl, [env.pair.0, env.pair.1] + mem);
      }
    }

    /** `Process_Request`. */
    method ProcessRequest(source: nat, kind: Kind, lbl: Text, fds: seq<int>, env: Env)
      requires source < |components| && Kernel(open, env)
      requires forall j :: 0 <= j < |fds| && Valid(fds[j]) ==> fds[j] in open
      modifies this`components, this`open, this`sent
      ensures Did(OnRequest(old(Now()), source, kind, lbl, fds, env))
    {
      ghost var p := PlanOf(Now(), source, kind, lbl, fds, env);
      var c := components[source];
      if c.fd < 0 || !c.node.At? {
        assert p == Ignore;
        return;
      }
      var route := LookupRequest(c.node.node, kind, lbl);
      var name := Attribute(c.node.node, "name", MaxText);
      if route.NoService? || route.NoServer? || !name.Found? {
        assert p == Refuse(-1);
        SendReject(source, kind, lbl);
        return;
      }
      match kind {
        case Rom =>
          if route.Self? { ServeRom(source, lbl, route.serv, env); }
        case Timer =>
          ServeTimer(source, lbl, env);
        case Memory =>
          if route.Self? || |fds| == 0 || !Valid(fds[0]) {
            assert p == Refuse(-1);
            SendReject(source, kind, lbl);
          } else {
            assert p == if env.sealOk && BothValid(env.pair) then Pass(route.dest, name.value, [fds[0]]) else Refuse(fds[0]);
            ServeMemory(source, name.value, lbl, route.dest, fds[0], env);
          }
        case Message | Log =>
          if route.Self? {
            assert p == Refuse(-1);
            SendReject(source, kind, lbl);
          } else {
            assert p == if BothValid(env.pair) then Pass(route.dest, name.value, []) else Refuse(-1);
            ServeMessage(source, kind, name.value, lbl, route.dest, env);
          }
      }
    }

    /** `Match_Service` followed by `Lookup_Request`. */
    method LookupRequest(node: Node, kind: Kind, lbl: Text) returns (route: Route)
      ensures route == RouteOf(components, node, kind, lbl)
    {
      var serv := MatchService(node, Image(kind), lbl);
      ChosenUnique(Children(node), Image(kind), lbl, serv, ServiceOf(node, Image(kind), lbl));
      if serv == None {
        return NoService;
      }
      var server := Attribute(serv.value, "server", MaxText);
      if !server.Found? {
        return Self(serv.value);
      }
      var dest, found := FindByName(server.value);
      route := if found then To(serv.value, dest) else NoServer;
    }

    /** `Process_Message_Request` and what follows it. */
    method ServeMessage(source: nat, kind: Kind, name: Text, lbl: Text, d: nat, env: Env)
      requires source < |components| && d < |components| && Kernel(open, env)
      modifies this`components, this`open, this`sent
      ensures Did(Act(old(Now()), source, kind, lbl, if BothValid(env.pair) then Pass(d, name, []) else Refuse(-1), env))
    {
      ghost var before := open;
      Socketpair(env.pair, env.pairId);
      if !Valid(env.pair.0) || !Valid(env.pair.1) {
        CloseFd(env.pair.0);
        CloseFd(env.pair.1);
        assert open == before;
        SendReject(source, kind, lbl);
      } else {
        ForwardRequest(source, kind, name, lbl, d, env, [], before);
      }
    }

    /** `Process_Memory_Request` and what follows it. */
    method ServeMemory(source: nat, name: Text, lbl: Text, d: nat, mem: int, env: Env)
      requires source < |components| && d < |components| && Kernel(open, env) && Valid(mem) && mem in open
      modifies this`components, this`open, this`sent
      ensures Did(Act(old(Now()), source, Memory, lbl,
                      if env.sealOk && BothValid(env.pair) then Pass(d, name, [mem]) else Refuse(mem), env))
    {
      if !env.sealOk {
        CloseFd(mem);
        SendReject(source, Memory, lbl);
        return;
      }
      ghost var before := open;
      Socketpair(env.pair, env.pairId);
      if !Valid(env.pair.0) || !Valid(env.pair.1) {
        CloseFd(env.pair.0);
        CloseFd(env.pair.1);
        assert open == before;
        CloseFd(mem);
        SendReject(source, Memory, lbl);
      } else {
        ForwardRequest(source, Memory, name, lbl, d, env, [mem], before);
      }
    }

    /** `Process_Rom_Request` and the answer to it. */
    method ServeRom(source: nat, lbl: Text, serv: Node, env: Env)
      requires source < |components|
      modifies this`open, this`sent
      ensures var path := ResourceLocation(old(resources), serv);
              Did(Act(old(Now()), source, Rom, lbl,
                      if path.Some? && Valid(env.file) then GiveFile(path.value) else Refuse(-1), env))
    {
      var fd := -1;
      var location, valid := FindResourceLocation(resources, serv);
      if valid {
        fd := env.file;
        open := Install(open, fd, File(location));
      }
      if Valid(fd) {
        SendConfirm(source, Rom, lbl, fd);
      } else {
        SendReject(source, Rom, lbl);
      }
    }

    method ServeTimer(source: nat, lbl: Text, env: Env)
      requires source < |components|
      modifies this`open, this`sent
      ensures Did(Act(old(Now()), source, Timer, lbl, if Valid(env.timer) then GiveTimer else Refuse(-1), env))
    {
      open := Install(open, env.timer, Timerfd(env.timerId));
      if Valid(env.timer) {
        SendConfirm(source, Timer, lbl, env.timer);
      } else {
        SendReject(source, Timer, lbl);
      }
    }

    method ProcessConfirm(kind: Kind, name: Text, lbl: Text, fds: seq<int>)
      modifies this`sent
      ensures Did(OnConfirm(old(Now()), kind, name, lbl, fds))
    {
      var dest, valid := FindByName(name);
      if valid {
        match kind {
          case Message | Log | Memory =>
            if |fds| > 0 && fds[0] >= 0 {
              SendConfirm(dest, kind, lbl, fds[0]);
            } else {
              SendReject(dest, kind, lbl);
            }
          case Rom | Timer =>
        }
      }
    }

    method ProcessReject(kind: Kind, name: Text, lbl: Text)
      modifies this`sent
      ensures Did(OnReject(old(Now()), kind, name, lbl))
    {
      var dest, valid := FindByName(name);
      if valid {
        SendReject(dest, kind, lbl);
      }
    }

    method ProcessRegister(source: nat, kind: Kind, env: Env)
      requires source < |components| && FreshPair(open, env.serv)
      modifies this`components, this`open, this`sent
      ensures Did(OnRegister(old(Now()), source, kind, env))
    {
      var valid := Setup(source, kind, env);
      if valid {
        SendConfirm(source, kind, "", components[source].serv[kind].disp);
      } else {
        SendReject(source, kind, "");
      }
    }

    /** `Handle_Message`. */
    method HandleMessage(source: nat, action: Action, kind: Kind, name: Text, lbl: Text, fds: seq<int>, env: Env)
      requires source < |components| && Kernel(open, env)
      requires forall j :: 0 <= j < |fds| && Valid(fds[j]) ==> fds[j] in open
      modifies this`components, this`open, this`sent
      ensures Did(OnMessage(old(Now()), source, action, kind, name, lbl, fds, env))
    {
      match action {
        case Request => if |lbl| < 256 { ProcessRequest(source, kind, lbl, fds, env); }
        case Confirm => if |name| + |lbl| < 256 { ProcessConfirm(kind, name, lbl, fds); }
        case Reject => if |name| + |lbl| < 256 { ProcessReject(kind, name, lbl); }
        case Register => ProcessRegister(source, kind, env);
      }
    }

    /** The exit branch of the event loop. */
    method ComponentLeft(i: nat)
      requires i < |components|
      modifies this`components, this`open
      ensures Now() == OnExit(old(Now()), i)
    {
      var fd := components[i].fd;
      CloseFd(fd);
      components := components[i := components[i].(fd := -1, node := At(root), pid := -1)];
    }

    /** One turn of `Event_Loop`: find whose descriptor it is, read a packet,
        treat a hang-up.  The packet's descriptors get unused numbers. */
    method Turn(fd: int, ready: bool, msg: Option<Incoming>, arrived: map<int, Object>, fds: seq<int>, hup: bool, env: Env)
      requires arrived.Keys !! open.Keys && Kernel(open + arrived, env)
      requires forall j :: 0 <= j < |fds| && Valid(fds[j]) ==> fds[j] in arrived
      modifies this`components, this`open, this`sent
      ensures var i := if Valid(fd) then Dest(old(components), fd) else |old(components)|;
              Did(if i < |old(components)| && Valid(old(components)[i].fd)
                  then OnTurn(old(Now()), i, ready, msg, arrived, fds, hup, env)
                  else Reaction(old(Now()), []))
      ensures old(TableOk(Now())) && root.Element? ==> TableOk(Now())
    {
      var i := GetDest(fd);
      if i == |components| || !Valid(components[i].fd) {
        return;
      }
      TurnIsEvents(Now(), i, ready, msg, arrived, fds, hup, env);
      if ready {
        ghost var before := open;
        open := open + arrived;
        if msg == None {
          open := open - arrived.Keys;
          assert open == before;
        } else {
          HandleMessage(i, msg.value.action, msg.value.kind, msg.value.name, msg.value.lbl, fds, env);
        }
      }
      if hup {
        ComponentLeft(i);
      }
    }
  }
}
