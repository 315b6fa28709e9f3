/** Exactly which packet the broker sends in answer to which, said of its table,
    the configuration and the kernel's answers alone. */
module BrokerAnswers {
  import opened Basics
  import opened Protocol
  import opened Config
  import opened Broker
  import opened BrokerTheorems

  /* ---- The table and the configuration ---- */

  /** `d` is the first running component with this name. */
  ghost predicate FirstLive(cs: seq<Component>, name: Text, d: nat) {
    d < |cs| && LiveNamed(cs[d], name) && forall j :: 0 <= j < d ==> !LiveNamed(cs[j], name)
  }

  ghost predicate NobodyLive(cs: seq<Component>, name: Text) {
    forall j :: 0 <= j < |cs| ==> !LiveNamed(cs[j], name)
  }

  lemma FoundFirst(cs: seq<Component>, name: Text)
    ensures var d := FindComponent(cs, name, 0);
            if d == |cs| then NobodyLive(cs, name) else FirstLive(cs, name, d)
  {
  }

  lemma FirstIsFound(cs: seq<Component>, name: Text, d: nat)
    requires FirstLive(cs, name, d)
    ensures FindComponent(cs, name, 0) == d
  {
    FoundFirst(cs, name);
  }

  /** `serv` is the service entry that the running component `source`'s own node
      has for this kind and label, and the component has a name. */
  ghost predicate Requested(st: State, source: nat, kind: Kind, lbl: Text, name: Text, serv: Node) {
    && source < |st.components| && Valid(st.components[source].fd) && st.components[source].node.At?
    && var node := st.components[source].node.node;
    && Attribute(node, "name", MaxText) == Found(name)
    && Chosen(Children(node), Image(kind), lbl, Some(serv))
  }

  /** `d` is the server that the entry names. */
  ghost predicate NamesServer(st: State, serv: Node, d: nat) {
    Attribute(serv, "server", MaxText).Found? && FirstLive(st.components, Attribute(serv, "server", MaxText).value, d)
  }

  /** `d`'s service socket for this kind is there, or can be made. */
  ghost predicate CanServe(st: State, d: nat, kind: Kind, env: Env)
    requires d < |st.components|
  {
    HasService(st, d, kind) || (BothValid(env.serv) && env.epollOk)
  }

  ghost predicate HasService(st: State, d: nat, kind: Kind)
    requires d < |st.components|
  {
    Valid(st.components[d].serv[kind].broker) && Valid(st.components[d].serv[kind].disp)
  }

  /** The broker's end of it. */
  ghost function ServiceEnd(st: State, d: nat, kind: Kind, env: Env): int
    requires d < |st.components|
  {
    if HasService(st, d, kind) then st.components[d].serv[kind].broker else env.serv.0
  }

  ghost function DispatcherEnd(st: State, d: nat, kind: Kind, env: Env): int
    requires d < |st.components|
  {
    if HasService(st, d, kind) then st.components[d].serv[kind].disp else env.serv.1
  }

  /** The client's memory, if the session has one, came along and was sealed. */
  predicate MemoryOk(kind: Kind, fds: seq<int>, env: Env) {
    kind == Memory ==> |fds| > 0 && Valid(fds[0]) && env.sealOk
  }

  /* ---- Session requests ---- */

  /** All that it takes to forward a request to `d`. */
  ghost predicate Forwardable(st: State, source: nat, kind: Kind, lbl: Text, fds: seq<int>, env: Env, name: Text, serv: Node, d: nat) {
    && Requested(st, source, kind, lbl, name, serv) && NamesServer(st, serv, d)
    && BothValid(env.pair) && MemoryOk(kind, fds, env) && CanServe(st, d, kind, env)
  }

  /** At most one entry, and one name, is requested. */
  lemma OneEntry(st: State, source: nat, kind: Kind, lbl: Text, name: Text, serv: Node, name': Text, serv': Node)
    requires Requested(st, source, kind, lbl, name, serv) && Requested(st, source, kind, lbl, name', serv')
    ensures name == name' && serv == serv'
  {
    ChosenUnique(Children(st.components[source].node.node), Image(kind), lbl, Some(serv), Some(serv'));
  }

  /** What the broker's route means. */
  lemma RouteMeans(st: State, source: nat, kind: Kind, lbl: Text, name: Text)
    requires source < |st.components| && Valid(st.components[source].fd) && st.components[source].node.At?
    requires Attribute(st.components[source].node.node, "name", MaxText) == Found(name)
    ensures match RouteOf(st.components, st.components[source].node.node, kind, lbl)
            case NoService => forall n, serv :: !Requested(st, source, kind, lbl, n, serv)
            case NoServer => forall n, serv :: Requested(st, source, kind, lbl, n, serv) ==>
                               Attribute(serv, "server", MaxText).Found? && NobodyLive(st.components, Attribute(serv, "server", MaxText).value)
            case Self(serv) => Requested(st, source, kind, lbl, name, serv) && !Attribute(serv, "server", MaxText).Found?
            case To(serv, d) => Requested(st, source, kind, lbl, name, serv) && NamesServer(st, serv, d)
  {
    var node := st.components[source].node.node;
    var chosen := ServiceOf(node, Image(kind), lbl);
    forall n, serv | Requested(st, source, kind, lbl, n, serv) ensures chosen == Some(serv) {
      ChosenUnique(Children(node), Image(kind), lbl, Some(serv), chosen);
    }
    if chosen.Some? && Attribute(chosen.value, "server", MaxText).Found? {
      FoundFirst(st.components, Attribute(chosen.value, "server", MaxText).value);
    }
  }

  lemma RouteIs(st: State, source: nat, kind: Kind, lbl: Text, name: Text, serv: Node, d: nat)
    requires Requested(st, source, kind, lbl, name, serv) && NamesServer(st, serv, d)
    ensures RouteOf(st.components, st.components[source].node.node, kind, lbl) == To(serv, d)
  {
    var node := st.components[source].node.node;
    ChosenUnique(Children(node), Image(kind), lbl, Some(serv), ServiceOf(node, Image(kind), lbl));
    FirstIsFound(st.components, Attribute(serv, "server", MaxText).value, d);
  }

  ghost function MemoryOf(kind: Kind, fds: seq<int>): seq<int>
    requires kind == Memory ==> |fds| > 0
  {
    if kind == Memory then [fds[0]] else []
  }

  /** The plan for a request whose server is running. */
  lemma PlanToServer(st: State, source: nat, kind: Kind, lbl: Text, fds: seq<int>, env: Env, name: Attr, serv: Node, d: nat)
    requires SessionKind(kind) && source < |st.components| && Valid(st.components[source].fd) && st.components[source].node.At?
    requires RouteOf(st.components, st.components[source].node.node, kind, lbl) == To(serv, d)
    requires name == Attribute(st.components[source].node.node, "name", MaxText)
    ensures var p := PlanOf(st, source, kind, lbl, fds, env);
            if name.Found? && BothValid(env.pair) && MemoryOk(kind, fds, env) then p == Pass(d, name.value, MemoryOf(kind, fds)) else p.Refuse?
  {
  }

  lemma ForwardSends(st: State, source: nat, kind: Kind, name: Text, lbl: Text, d: nat, env: Env, mem: seq<int>)
    requires source < |st.components| && d < |st.components|
    ensures Forward(st, source, kind, name, lbl, d, env, mem).sent
         == [if CanServe(st, d, kind, env) then Sent(ServiceEnd(st, d, kind, env), Request, kind, name, lbl, [env.pair.0, env.pair.1] + mem)
             else Sent(st.components[source].fd, Reject, kind, "", lbl, [])]
    ensures CanServe(st, d, kind, env) && BothValid(env.pair) && env.pair.0 != env.pair.1 ==>
              var open := Forward(st, source, kind, name, lbl, d, env, mem).st.open;
              && env.pair.0 in open && open[env.pair.0] == End(env.pairId, false)
              && env.pair.1 in open && open[env.pair.1] == End(env.pairId, true)
    ensures CanServe(st, d, kind, env) && Kernel(st.open, env) ==> Extends(st.open, Forward(st, source, kind, name, lbl, d, env, mem).st.open)
    ensures HasService(st, d, kind) ==> Forward(st, source, kind, name, lbl, d, env, mem).st.components == st.components
  {
  }

  /** A request for a Message, Log or Memory session to which nothing is missing
      is forwarded: one Request, to the server's service socket, with the
      client's name, the label, both ends of the new pair and the memory. */
  lemma RequestIsForwarded(st: State, source: nat, kind: Kind, lbl: Text, fds: seq<int>, env: Env, name: Text, serv: Node, d: nat)
    requires SessionKind(kind) && |lbl| <= MaxText && Kernel(st.open, env)
    requires Forwardable(st, source, kind, lbl, fds, env, name, serv, d)
    ensures var r := OnMessage(st, source, Request, kind, "", lbl, fds, env);
            && r.sent == [Sent(ServiceEnd(st, d, kind, env), Request, kind, name, lbl,
                               [env.pair.0, env.pair.1] + if kind == Memory then [fds[0]] else [])]
            && env.pair.0 in r.st.open && r.st.open[env.pair.0] == End(env.pairId, false)
            && env.pair.1 in r.st.open && r.st.open[env.pair.1] == End(env.pairId, true)
            && Extends(st.open, r.st.open)
            && (HasService(st, d, kind) ==> r.st.components == st.components)
  {
    RouteIs(st, source, kind, lbl, name, serv, d);
    PlanToServer(st, source, kind, lbl, fds, env, Found(name), serv, d);
    ForwardSends(st, source, kind, name, lbl, d, env, MemoryOf(kind, fds));
  }

  /** Any other request for such a session of a running component is rejected. */
  lemma OtherwiseRejected(st: State, source: nat, kind: Kind, lbl: Text, fds: seq<int>, env: Env)
    requires Complete(st) && SessionKind(kind) && |lbl| <= MaxText
    requires source < |st.components| && Valid(st.components[source].fd)
    requires forall name, serv, d :: !Forwardable(st, source, kind, lbl, fds, env, name, serv, d)
    ensures OnMessage(st, source, Request, kind, "", lbl, fds, env).sent == [Sent(st.components[source].fd, Reject, kind, "", lbl, [])]
  {
    var node := st.components[source].node.node;
    var name, route := Attribute(node, "name", MaxText), RouteOf(st.components, node, kind, lbl);
    if name.Found? && route.To? {
      RouteMeans(st, source, kind, lbl, name.value);
      assert !Forwardable(st, source, kind, lbl, fds, env, name.value, route.serv, route.dest);
      RouteRejects(st, source, kind, lbl, fds, env, route.serv, route.dest);
    }
  }

  lemma RouteRejects(st: State, source: nat, kind: Kind, lbl: Text, fds: seq<int>, env: Env, serv: Node, d: nat)
    requires SessionKind(kind) && |lbl| <= MaxText && d < |st.components|
    requires source < |st.components| && Valid(st.components[source].fd) && st.components[source].node.At?
    requires RouteOf(st.components, st.components[source].node.node, kind, lbl) == To(serv, d)
    requires !BothValid(env.pair) || !MemoryOk(kind, fds, env) || !CanServe(st, d, kind, env)
    ensures OnMessage(st, source, Request, kind, "", lbl, fds, env).sent == [Sent(st.components[source].fd, Reject, kind, "", lbl, [])]
  {
    var name := Attribute(st.components[source].node.node, "name", MaxText);
    PlanToServer(st, source, kind, lbl, fds, env, name, serv, d);
    if name.Found? && BothValid(env.pair) && MemoryOk(kind, fds, env) {
      ForwardSends(st, source, kind, name.value, lbl, d, env, MemoryOf(kind, fds));
    }
  }

  /** So a session request of a running component is forwarded if and only if
      nothing is missing. */
  lemma ForwardedIff(st: State, source: nat, kind: Kind, lbl: Text, fds: seq<int>, env: Env)
    requires Complete(st) && SessionKind(kind) && |lbl| <= MaxText && Kernel(st.open, env)
    requires source < |st.components| && Valid(st.components[source].fd)
    ensures var r := OnMessage(st, source, Request, kind, "", lbl, fds, env);
            && |r.sent| == 1
            && (r.sent[0].action == Request <==> exists name, serv, d :: Forwardable(st, source, kind, lbl, fds, env, name, serv, d))
  {
    if name, serv, d :| Forwardable(st, source, kind, lbl, fds, env, name, serv, d) {
      RequestIsForwarded(st, source, kind, lbl, fds, env, name, serv, d);
    } else {
      OtherwiseRejected(st, source, kind, lbl, fds, env);
    }
  }

  /* ---- Rom and Timer ---- */

  /** The first resource that the entry names is a file at `path`. */
  ghost predicate NamesFile(st: State, serv: Node, path: Text) {
    && Attribute(serv, "resource", 4096).Found?
    && var name := Attribute(serv, "resource", 4096).value;
    exists i :: 0 <= i < |st.resources| && NamedResource(st.resources[i], name)
      && (forall j :: 0 <= j < i ==> !NamedResource(st.resources[j], name))
      && Attribute(st.resources[i].node, "type", MaxText) == Found("File")
      && Attribute(st.resources[i].node, "location", 4096) == Found(path)
  }

  lemma LocationIs(st: State, serv: Node, path: Text)
    ensures NamesFile(st, serv, path) <==> ResourceLocation(st.resources, serv) == Some(path)
  {
    if Attribute(serv, "resource", 4096).Found? {
      var name := Attribute(serv, "resource", 4096).value;
      var i := FindResource(st.resources, name, 0);
      if i < |st.resources| { assert NamedResource(st.resources[i], name); }
    }
  }

  /** The broker's own answers go to the client's socket. */
  ghost predicate Granted(st: State, source: nat, kind: Kind, lbl: Text, fd: int, o: Object, r: Reaction)
    requires source < |st.components|
  {
    && r.sent == [Sent(st.components[source].fd, Confirm, kind, "", lbl, [fd])]
    && fd in r.st.open && r.st.open[fd] == o
  }

  ghost predicate Refused(st: State, source: nat, kind: Kind, lbl: Text, r: Reaction)
    requires source < |st.components|
  {
    r.sent == [Sent(st.components[source].fd, Reject, kind, "", lbl, [])]
  }

  ghost predicate RomFile(st: State, source: nat, lbl: Text, env: Env, name: Text, serv: Node, path: Text) {
    && Requested(st, source, Rom, lbl, name, serv) && !Attribute(serv, "server", MaxText).Found?
    && NamesFile(st, serv, path) && Valid(env.file)
  }

  ghost predicate RomServer(st: State, source: nat, lbl: Text, name: Text, serv: Node, d: nat) {
    Requested(st, source, Rom, lbl, name, serv) && NamesServer(st, serv, d)
  }

  ghost predicate NoRom(st: State, source: nat, lbl: Text, env: Env) {
    && (forall name, serv, path :: !RomFile(st, source, lbl, env, name, serv, path))
    && (forall name, serv, d :: !RomServer(st, source, lbl, name, serv, d))
  }

  /** A Rom request of a running component: a Confirm with the file exactly if
      its entry has no server and names a file that opens; nothing exactly if the
      entry names a running server; otherwise a Reject. */
  lemma RomAnswer(st: State, source: nat, lbl: Text, fds: seq<int>, env: Env)
    requires Complete(st) && |lbl| <= MaxText && source < |st.components| && Valid(st.components[source].fd)
    ensures var r := OnMessage(st, source, Request, Rom, "", lbl, fds, env);
            && (forall name, serv, path :: RomFile(st, source, lbl, env, name, serv, path) ==>
                  Granted(st, source, Rom, lbl, env.file, File(path), r))
            && (forall name, serv, d :: RomServer(st, source, lbl, name, serv, d) ==> r.sent == [])
            && (NoRom(st, source, lbl, env) ==> Refused(st, source, Rom, lbl, r))
  {
    var r := OnMessage(st, source, Request, Rom, "", lbl, fds, env);
    var node := st.components[source].node.node;
    var name, route := Attribute(node, "name", MaxText), RouteOf(st.components, node, Rom, lbl);
    if name.Found? {
      RouteMeans(st, source, Rom, lbl, name.value);
      forall n, serv | Requested(st, source, Rom, lbl, n, serv) ensures route.Self? || route.To? ==> serv == route.serv {
        if route.Self? || route.To? { OneEntry(st, source, Rom, lbl, n, serv, name.value, route.serv); }
      }
      if route.Self? {
        forall path ensures NamesFile(st, route.serv, path) <==> ResourceLocation(st.resources, route.serv) == Some(path) {
          LocationIs(st, route.serv, path);
        }
        RomSelf(st, source, lbl, fds, env, route.serv);
        var path := ResourceLocation(st.resources, route.serv);
        if path.Some? && Valid(env.file) { assert RomFile(st, source, lbl, env, name.value, route.serv, path.value); }
      } else if route.To? {
        assert RomServer(st, source, lbl, name.value, route.serv, route.dest);
      }
    }
  }

  lemma RomSelf(st: State, source: nat, lbl: Text, fds: seq<int>, env: Env, serv: Node)
    requires |lbl| <= MaxText && source < |st.components| && Valid(st.components[source].fd) && st.components[source].node.At?
    requires RouteOf(st.components, st.components[source].node.node, Rom, lbl) == Self(serv)
    requires Attribute(st.components[source].node.node, "name", MaxText).Found?
    ensures var r, path := OnMessage(st, source, Request, Rom, "", lbl, fds, env), ResourceLocation(st.resources, serv);
            if path.Some? && Valid(env.file) then Granted(st, source, Rom, lbl, env.file, File(path.value), r) else Refused(st, source, Rom, lbl, r)
  {
  }

  ghost predicate TimerEntry(st: State, source: nat, lbl: Text, env: Env, name: Text, serv: Node) {
    && Requested(st, source, Timer, lbl, name, serv) && Valid(env.timer)
    && (Attribute(serv, "server", MaxText).Found? ==> exists d :: NamesServer(st, serv, d))
  }

  /** A Timer request of a running component: a Confirm with a new timer exactly
      if there is an entry, whose server is running if it names one, and a timer
      can be made; otherwise a Reject. */
  lemma TimerAnswer(st: State, source: nat, lbl: Text, fds: seq<int>, env: Env)
    requires Complete(st) && |lbl| <= MaxText && source < |st.components| && Valid(st.components[source].fd)
    ensures var r := OnMessage(st, source, Request, Timer, "", lbl, fds, env);
            if exists name, serv :: TimerEntry(st, source, lbl, env, name, serv)
            then Granted(st, source, Timer, lbl, env.timer, Timerfd(env.timerId), r)
            else Refused(st, source, Timer, lbl, r)
  {
    var node := st.components[source].node.node;
    var name, route := Attribute(node, "name", MaxText), RouteOf(st.components, node, Timer, lbl);
    TimerRouted(st, source, lbl, fds, env);
    if name.Found? {
      RouteMeans(st, source, Timer, lbl, name.value);
      if (route.Self? || route.To?) && Valid(env.timer) {
        assert TimerEntry(st, source, lbl, env, name.value, route.serv);
      } else if n, serv :| TimerEntry(st, source, lbl, env, n, serv) {
        TimerRoute(st, source, lbl, n, serv);
      }
    }
  }

  lemma TimerRouted(st: State, source: nat, lbl: Text, fds: seq<int>, env: Env)
    requires |lbl| <= MaxText && source < |st.components| && Valid(st.components[source].fd) && st.components[source].node.At?
    ensures var node, r := st.components[source].node.node, OnMessage(st, source, Request, Timer, "", lbl, fds, env);
            var route := RouteOf(st.components, node, Timer, lbl);
            if Attribute(node, "name", MaxText).Found? && (route.Self? || route.To?) && Valid(env.timer)
            then Granted(st, source, Timer, lbl, env.timer, Timerfd(env.timerId), r)
            else Refused(st, source, Timer, lbl, r)
  {
  }

  lemma TimerRoute(st: State, source: nat, lbl: Text, name: Text, serv: Node)
    requires Requested(st, source, Timer, lbl, name, serv)
    requires Attribute(serv, "server", MaxText).Found? ==> exists d :: NamesServer(st, serv, d)
    ensures var route := RouteOf(st.components, st.components[source].node.node, Timer, lbl); route.Self? || route.To?
  {
    RouteMeans(st, source, Timer, lbl, name);
  }

  /* ---- Answers of dispatchers ---- */

  /** A dispatcher's Confirm for a session reaches the client: if a component of
      the name is running and name and label are not too long, exactly one packet
      goes out, to its socket: the Confirm with the descriptor if that is valid,
      else a Reject. */
  lemma ConfirmIsPassedOn(st: State, source: nat, kind: Kind, name: Text, lbl: Text, fds: seq<int>, env: Env, d: nat)
    requires source < |st.components| && SessionKind(kind) && FirstLive(st.components, name, d) && |name| + |lbl| <= MaxText
    ensures OnMessage(st, source, Confirm, kind, name, lbl, fds, env)
         == Reaction(st, [if |fds| > 0 && fds[0] >= 0 then Sent(st.components[d].fd, Confirm, kind, "", lbl, [fds[0]])
                          else Sent(st.components[d].fd, Reject, kind, "", lbl, [])])
  {
    FirstIsFound(st.components, name, d);
  }

  /** A Reject, of any kind, likewise. */
  lemma RejectIsPassedOn(st: State, source: nat, kind: Kind, name: Text, lbl: Text, fds: seq<int>, env: Env, d: nat)
    requires source < |st.components| && FirstLive(st.components, name, d) && |name| + |lbl| <= MaxText
    ensures OnMessage(st, source, Reject, kind, name, lbl, fds, env) == Reaction(st, [Sent(st.components[d].fd, Reject, kind, "", lbl, [])])
  {
    FirstIsFound(st.components, name, d);
  }

  /** Nothing else is passed on. */
  lemma OtherAnswersAreDropped(st: State, source: nat, action: Action, kind: Kind, name: Text, lbl: Text, fds: seq<int>, env: Env)
    requires source < |st.components| && (action == Confirm || action == Reject)
    requires NobodyLive(st.components, name) || |name| + |lbl| > MaxText || (action == Confirm && !SessionKind(kind))
    ensures OnMessage(st, source, action, kind, name, lbl, fds, env) == Reaction(st, [])
  {
    FoundFirst(st.components, name);
  }

  /** A registration is confirmed with the dispatcher's end of the service socket
      if that is there or can be made, else it is rejected. */
  lemma RegistrationAnswer(st: State, source: nat, kind: Kind, name: Text, lbl: Text, fds: seq<int>, env: Env)
    requires source < |st.components|
    ensures var r := OnMessage(st, source, Register, kind, name, lbl, fds, env);
            r.sent == [if CanServe(st, source, kind, env)
                       then Sent(st.components[source].fd, Confirm, kind, "", "", [DispatcherEnd(st, source, kind, env)])
                       else Sent(st.components[source].fd, Reject, kind, "", "", [])]
    ensures var r := OnMessage(st, source, Register, kind, name, lbl, fds, env);
            CanServe(st, source, kind, env) ==>
              r.st.components[source].serv[kind] == ServiceEntry(ServiceEnd(st, source, kind, env), DispatcherEnd(st, source, kind, env))
  {
  }

  /* ---- A component that left ---- */

  /** After a hang-up the component's socket is closed and nobody's, it is found
      under no name, and all other components, all service sockets and all other
      descriptors are as they were. */
  lemma LeftIsGone(st: State, i: nat)
    requires TableOk(st) && i < |st.components| && Valid(st.components[i].fd)
    ensures var t, fd := OnExit(st, i), st.components[i].fd;
            && fd !in t.open && |t.components| == |st.components|
            && (forall j :: 0 <= j < |t.components| ==> !Owns(t.components[j], fd))
            && (forall name :: !LiveNamed(t.components[i], name))
            && (forall j :: 0 <= j < |t.components| && j != i ==> t.components[j] == st.components[j])
            && t.components[i].serv == st.components[i].serv
            && (forall f :: f != fd ==> (f in t.open <==> f in st.open) && (f in t.open ==> t.open[f] == st.open[f]))
  {
    var t, fd := OnExit(st, i), st.components[i].fd;
    forall j | 0 <= j < |t.components| ensures !Owns(t.components[j], fd) {
      assert FdAt(st.components, CompSlot(i)) == fd && FdAt(st.components, CompSlot(j)) == st.components[j].fd;
      forall k ensures st.components[j].serv[k].broker != fd {
        assert FdAt(st.components, BrokerSlot(j, k)) == st.components[j].serv[k].broker;
      }
    }
  }

  /** No packet gives a component another socket. */
  lemma MessageKeepsSockets(st: State, source: nat, action: Action, kind: Kind, name: Text, lbl: Text, fds: seq<int>, env: Env, j: nat)
    requires source < |st.components| && j < |st.components|
    ensures OnMessage(st, source, action, kind, name, lbl, fds, env).st.components[j].fd == st.components[j].fd
  {
    match action
    case Request => RequestKeepsSockets(st, source, kind, lbl, fds, env, j);
    case Register => assert OnRegister(st, source, kind, env).st == SetupService(st, source, kind, env).0;
    case Confirm => assert OnConfirm(st, kind, name, lbl, fds).st == st;
    case Reject => assert OnReject(st, kind, name, lbl).st == st;
  }

  lemma RequestKeepsSockets(st: State, source: nat, kind: Kind, lbl: Text, fds: seq<int>, env: Env, j: nat)
    requires source < |st.components| && j < |st.components|
    ensures OnRequest(st, source, kind, lbl, fds, env).st.components[j].fd == st.components[j].fd
  {
    ActKeepsSockets(st, source, kind, lbl, PlanOf(st, source, kind, lbl, fds, env), env, j);
  }

  lemma ActKeepsSockets(st: State, source: nat, kind: Kind, lbl: Text, p: Plan, env: Env, j: nat)
    requires source < |st.components| && j < |st.components| && (p.Pass? ==> p.dest < |st.components|)
    ensures Act(st, source, kind, lbl, p, env).st.components[j].fd == st.components[j].fd
  {
  }

  lemma EventKeepsGone(st: State, e: Event, i: nat)
    requires Possible(st, e) && i < |st.components| && st.components[i].fd == -1
    ensures i < |After(st, e).components| && After(st, e).components[i].fd == -1
  {
    match e
    case Garbage =>
    case Left(j) =>
    case Got(source, action, kind, name, lbl, arrived, fds, env) =>
      MessageKeepsSockets(st.(open := st.open + arrived), source, action, kind, name, lbl, fds, env, i);
  }

  /** In every run a component that left stays gone. */
  lemma {:induction false} StaysGone(states: seq<State>, events: seq<Event>, t: nat, u: nat, i: nat)
    requires BrokerRun(states, events) && t < |events| && events[t] == Left(i) && t < u < |states|
    ensures i < |states[u].components| && states[u].components[i].fd == -1
  {
    assert Possible(states[u - 1], events[u - 1]) && states[u - 1 + 1] == After(states[u - 1], events[u - 1]);
    if u > t + 1 {
      StaysGone(states, events, t, u - 1, i);
      EventKeepsGone(states[u - 1], events[u - 1], i);
    }
  }

  /** What goes to nobody's place: a valid descriptor, and for a request none of
      component `i`'s service sockets. */
  ghost predicate Avoids(st: State, i: nat, x: Sent)
    requires i < |st.components|
  {
    Valid(x.fd) && (x.action == Request ==> forall k :: x.fd != st.components[i].serv[k].broker)
  }

  lemma GoneGetsNothing(st: State, source: nat, action: Action, kind: Kind, name: Text, lbl: Text, fds: seq<int>, env: Env, i: nat)
    requires TableOk(st) && source < |st.components| && Valid(st.components[source].fd) && Kernel(st.open, env) && Loose(st, fds)
    requires i < |st.components| && st.components[i].fd == -1
    ensures var r := OnMessage(st, source, action, kind, name, lbl, fds, env);
            && |r.sent| <= 1 && r.st.components[i].fd == -1
            && (r.sent != [] ==> Avoids(r.st, i, r.sent[0]))
  {
    MessageKeepsSockets(st, source, action, kind, name, lbl, fds, env, i);
    MessageKeeps(st, source, action, kind, name, lbl, fds, env);
    var s := SendsHaveTargets(st, source, action, kind, name, lbl, fds, env);
    var r := OnMessage(st, source, action, kind, name, lbl, fds, env);
    if r.sent != [] && r.sent[0].action == Request {
      var d, serv := ForwardedFollowsConfig(st, source, action, kind, name, lbl, fds, env);
      RequestAvoids(r.st, d, kind, i, r.sent[0].fd);
    }
  }

  /** So after it left nothing is written to its own socket, and no request to any
      of its service sockets. */
  lemma NothingIsSentToTheGone(states: seq<State>, events: seq<Event>, t: nat, u: nat, i: nat)
    requires BrokerRun(states, events) && t < |events| && events[t] == Left(i) && t < u < |events| && events[u].Got?
    ensures var e := events[u];
            e.source < |states[u].components| && e.source != i
            && var r := OnMessage(states[u].(open := states[u].open + e.arrived), e.source, e.action, e.kind, e.name, e.lbl, e.fds, e.env);
            && |r.sent| <= 1 && i < |r.st.components| && r.st.components[i].fd == -1
            && (r.sent != [] ==> Avoids(r.st, i, r.sent[0]))
  {
    var e := events[u];
    StaysGone(states, events, t, u, i);
    TablesStayValid(states, events, u);
    assert Possible(states[u], e);
    ArrivedOk(states[u], e);
    GoneGetsNothing(states[u].(open := states[u].open + e.arrived), e.source, e.action, e.kind, e.name, e.lbl, e.fds, e.env, i);
  }

  lemma RequestAvoids(st: State, d: nat, kind: Kind, i: nat, fd: int)
    requires TableOk(st) && d < |st.components| && i < |st.components| && d != i
    requires Valid(fd) && fd == st.components[d].serv[kind].broker
    ensures forall k :: fd != st.components[i].serv[k].broker
  {
    forall k ensures fd != st.components[i].serv[k].broker {
      assert FdAt(st.components, BrokerSlot(d, kind)) == fd && FdAt(st.components, BrokerSlot(i, k)) == st.components[i].serv[k].broker;
    }
  }
}
