/** The broker's handling of one packet keeps the invariant: the packet is a
    client's token, and at most one token for the same client goes out. */
module SessionRead {
  import opened Basics
  import opened Protocol
  import opened Config
  import opened Session
  import opened SessionInvariant
  import opened SessionBroker
  import B = Broker

  lemma {:induction false} Installed(open: map<int, Object>, objs: seq<Object>, nums: seq<int>)
    requires Received(open, objs, nums)
    ensures Extends(open, InstallAll(open, objs, nums))
    ensures forall j :: 0 <= j < |nums| ==> nums[j] in InstallAll(open, objs, nums) && InstallAll(open, objs, nums)[nums[j]] == objs[j]
    ensures forall f :: f in InstallAll(open, objs, nums) ==> f in open || f in nums
    decreases |objs|
  {
    if objs != [] {
      Installed(open, objs[1..], nums[1..]);
      var more := InstallAll(open, objs[1..], nums[1..]);
      forall j | 0 <= j < |nums| ensures more[nums[0] := objs[0]][nums[j]] == objs[j] && nums[j] in more[nums[0] := objs[0]] {
        if j > 0 { assert nums[1..][j - 1] == nums[j] && objs[1..][j - 1] == objs[j]; }
      }
    }
  }

  /** Whose socket is being read. */
  lemma ReadOwner(s: System, cfg: seq<Node>, w: Witness, fd: int)
    requires Inv(s, cfg, w) && Valid(fd) && fd in s.broker.open && B.Dest(s.broker.components, fd) < |cfg|
    ensures var i, o := B.Dest(s.broker.components, fd), s.broker.open[fd];
            && o.End? && !o.second && o.pair in w.role
            && (w.role[o.pair] == CompRole(i) || (w.role[o.pair].ServRole? && w.role[o.pair].d == i))
  {
    var i := B.Dest(s.broker.components, fd);
    assert CompOk(s, cfg, w, i);
    if s.broker.components[i].fd != fd {
      var k :| s.broker.components[i].serv[k].broker == fd;
      assert ServOk(s.broker, w, i, k);
    }
  }

  /** An answer to `c` arrives as its only token. */
  lemma Answered(s: System, cfg: seq<Node>, w: Witness, c: nat, x: B.Sent) returns (v: Witness)
    requires Inv(s, cfg, w) && NoToken(s, cfg, w, c) && c < |cfg|
    requires !w.loc[c].InHand? && s.procs[c].wait != Idle
    requires Valid(s.broker.components[c].fd) && x.fd == s.broker.components[c].fd
    requires DownOk(s, cfg, w.(loc := w.loc[c := Down]), c, Packet(x.action, x.kind, x.name, x.lbl, Objects(s.broker.open, x.fds)))
    ensures Inv(Deliver(s, [x]), cfg, v)
  {
    v := w.(loc := w.loc[c := Down]);
    assert CompOk(s, cfg, w, c);
    Relocate(s, cfg, w, c, Down);
    var m := Packet(x.action, x.kind, x.name, x.lbl, Objects(s.broker.open, x.fds));
    PushInv(s, cfg, v, s.procs[c].sock, m, c);
    assert Deliver(s, [x]) == Push(s, s.procs[c].sock, m);
  }

  lemma RejectAnswers(s: System, cfg: seq<Node>, w: Witness, c: nat, kind: Kind, lbl: Text) returns (v: Witness)
    requires Inv(s, cfg, w) && NoToken(s, cfg, w, c) && c < |cfg|
    requires !w.loc[c].InHand? && Valid(s.broker.components[c].fd)
    requires match s.procs[c].wait
             case Idle => false
             case Initializing(k, l, _) => k == kind && l == lbl
             case Registering(k) => k == kind
    ensures Inv(Deliver(s, B.Rejected(s.broker, c, kind, lbl).sent), cfg, v)
  {
    var x := B.Sent(s.broker.components[c].fd, Reject, kind, "", lbl, []);
    assert Objects(s.broker.open, x.fds) == [];
    v := Answered(s, cfg, w, c, x);
  }

  ghost predicate FreshIds(s: System, env: B.Env) {
    s.next <= env.pairId && s.next <= env.servId && env.pairId != env.servId
  }

  /** `s` before the packet's descriptors are installed, `b` after. */
  ghost predicate Reading(s: System, cfg: seq<Node>, w: Witness, c: nat, b: B.State, env: B.Env) {
    && Inv(s, cfg, w) && NoToken(s, cfg, w, c) && c < |cfg|
    && !w.loc[c].InHand? && s.procs[c].wait != Idle
    && b == s.broker.(open := b.open) && Extends(s.broker.open, b.open)
    && B.Kernel(b.open, env) && FreshIds(s, env)
  }

  /** The component that a request is routed to is the configured one. */
  lemma RouteConfigured(s: System, cfg: seq<Node>, w: Witness, c: nat, kind: Kind, lbl: Text)
    requires Inv(s, cfg, w) && c < |cfg|
    requires B.RouteOf(s.broker.components, cfg[c], kind, lbl).To?
    ensures Configured(cfg, c, kind, lbl, B.RouteOf(s.broker.components, cfg[c], kind, lbl).dest)
  {
    var d := B.RouteOf(s.broker.components, cfg[c], kind, lbl).dest;
    assert CompOk(s, cfg, w, d);
  }

  /** The objects that a forwarded request carries. */
  lemma ForwardedObjects(open: map<int, Object>, a: int, b: int, mem: seq<int>, objs: seq<Object>)
    requires a in open && b in open && |mem| == |objs| <= 1
    requires mem != [] ==> mem[0] in open && open[mem[0]] == objs[0]
    ensures Objects(open, [a, b] + mem) == [open[a], open[b]] + objs
  {
    var fds := [a, b] + mem;
    assert fds[1..] == [b] + mem && fds[1..][1..] == mem;
    assert Objects(open, fds) == [open[a]] + Objects(open, fds[1..]);
    assert Objects(open, fds[1..]) == [open[b]] + Objects(open, mem);
    if mem != [] { assert mem[1..] == []; }
    assert Objects(open, mem) == objs;
  }

  /** With its service socket in place, a request goes to the dispatcher with
      a fresh pair. */
  lemma SendForward(s: System, cfg: seq<Node>, w: Witness, c: nat, d: nat, kind: Kind, lbl: Text, mem: seq<int>, env: B.Env)
    returns (v: Witness)
    requires Inv(s, cfg, w) && NoToken(s, cfg, w, c) && c < |cfg| && d < |cfg| && Named(cfg[c])
    requires Waits(s, c, kind) && s.procs[c].wait.lbl == lbl && !w.loc[c].InHand? && Configured(cfg, c, kind, lbl, d)
    requires B.BothValid(env.pair) && B.FreshPair(s.broker.open, env.pair)
    requires env.pairId !in w.role && s.next <= Next(env)
    requires |mem| == |s.procs[c].wait.mem| <= 1
    requires mem != [] ==> mem[0] in s.broker.open && s.broker.open[mem[0]] == s.procs[c].wait.mem[0]
    requires Valid(s.broker.components[d].serv[kind].broker)
    ensures Inv(Deliver(s.(broker := s.broker.(open := B.InstallPair(s.broker.open, env.pair, env.pairId)), next := Next(env)),
                        [B.Sent(s.broker.components[d].serv[kind].broker, Request, kind, NameOf(cfg[c]), lbl,
                                [env.pair.0, env.pair.1] + mem)]), cfg, v)
  {
    var t := s.(broker := s.broker.(open := B.InstallPair(s.broker.open, env.pair, env.pairId)), next := Next(env));
    assert t.broker.open == s.broker.open[env.pair.0 := End(env.pairId, false)][env.pair.1 := End(env.pairId, true)];
    var role := SessRole(c, d, kind, lbl, s.procs[c].wait.mem);
    var w2 := w.(role := w.role[env.pairId := role]);
    NewSession(s, cfg, w, t, w2, c, env.pairId, role);
    Relocate(t, cfg, w2, c, AtReq(d, kind));
    v := w2.(loc := w2.loc[c := AtReq(d, kind)]);
    PushForwarded(t, cfg, v, c, d, kind, lbl, mem, env);
  }

  /** A request goes to the dispatcher with a fresh pair, or is rejected. */
  lemma ReadForward(s: System, cfg: seq<Node>, w: Witness, c: nat, b: B.State, env: B.Env,
                    kind: Kind, lbl: Text, mem: seq<int>, d: nat, r: B.Reaction) returns (v: Witness)
    requires Reading(s, cfg, w, c, b, env)
    requires Waits(s, c, kind) && s.procs[c].wait.lbl == lbl
    requires Valid(b.components[c].fd) && d < |cfg| && Configured(cfg, c, kind, lbl, d) && B.BothValid(env.pair)
    requires |mem| == |s.procs[c].wait.mem| <= 1
    requires mem != [] ==> mem[0] in b.open && mem[0] !in s.broker.open && b.open[mem[0]] == s.procs[c].wait.mem[0]
    requires Named(cfg[c]) && r == B.Forward(b, c, kind, NameOf(cfg[c]), lbl, d, env, mem)
    ensures Inv(Deliver(s.(broker := r.st, next := Next(env)), r.sent), cfg, v)
  {
    var s1 := s.(broker := b);
    OpenMore(s, cfg, w, s1, c);
    var t1, w1 := Setup(s1, cfg, w, c, d, kind, env);
    if !B.SetupService(b, d, kind, env).1 {
      v := ForwardRejected(s, cfg, w, c, b, env, kind, lbl, mem, d, r);
    } else {
      OldPairs(s, cfg, w);
      v := SendForward(t1, cfg, w1, c, d, kind, lbl, mem, env);
    }
  }

  lemma ForwardRejected(s: System, cfg: seq<Node>, w: Witness, c: nat, b: B.State, env: B.Env,
                        kind: Kind, lbl: Text, mem: seq<int>, d: nat, r: B.Reaction) returns (v: Witness)
    requires Reading(s, cfg, w, c, b, env)
    requires Waits(s, c, kind) && s.procs[c].wait.lbl == lbl
    requires Valid(b.components[c].fd) && d < |cfg| && |mem| <= 1
    requires mem != [] ==> mem[0] in b.open && mem[0] !in s.broker.open
    requires Named(cfg[c]) && r == B.Forward(b, c, kind, NameOf(cfg[c]), lbl, d, env, mem)
    requires B.SetupService(b, d, kind, env) == (b, false)
    ensures Inv(Deliver(s.(broker := r.st, next := Next(env)), r.sent), cfg, v)
  {
    var t := s.(broker := r.st, next := Next(env));
    OpenMore(s, cfg, w, t, c);
    v := RejectAnswers(t, cfg, w, c, kind, lbl);
  }

  lemma OldPairs(s: System, cfg: seq<Node>, w: Witness)
    requires Inv(s, cfg, w)
    ensures forall p :: p in w.role ==> p < s.next
  {
    forall p | p in w.role ensures p < s.next { assert RoleOk(s, cfg, w, p); }
  }

  /** The forwarded request is a good token. */
  lemma PushForwarded(s: System, cfg: seq<Node>, w: Witness, c: nat, d: nat, kind: Kind, lbl: Text, mem: seq<int>, env: B.Env)
    requires Inv(s, cfg, w) && NoToken(s, cfg, w, c) && c < |cfg| && d < |cfg| && Named(cfg[c])
    requires Waits(s, c, kind) && s.procs[c].wait.lbl == lbl && w.loc[c] == AtReq(d, kind)
    requires env.pairId in w.role && w.role[env.pairId] == SessRole(c, d, kind, lbl, s.procs[c].wait.mem)
    requires B.BothValid(env.pair) && env.pair.0 in s.broker.open && env.pair.1 in s.broker.open
    requires s.broker.open[env.pair.0] == End(env.pairId, false) && s.broker.open[env.pair.1] == End(env.pairId, true)
    requires |mem| == |s.procs[c].wait.mem| <= 1
    requires mem != [] ==> mem[0] in s.broker.open && s.broker.open[mem[0]] == s.procs[c].wait.mem[0]
    requires Valid(s.broker.components[d].serv[kind].broker)
    ensures Inv(Deliver(s, [B.Sent(s.broker.components[d].serv[kind].broker, Request, kind, NameOf(cfg[c]), lbl,
                                   [env.pair.0, env.pair.1] + mem)]), cfg, w)
  {
    var x := B.Sent(s.broker.components[d].serv[kind].broker, Request, kind, NameOf(cfg[c]), lbl, [env.pair.0, env.pair.1] + mem);
    ForwardedObjects(s.broker.open, env.pair.0, env.pair.1, mem, s.procs[c].wait.mem);
    OwnerIs(cfg, c, NameOf(cfg[c]));
    assert ServOk(s.broker, w, d, kind);
    var o := Peer(s.broker.open[x.fd]);
    var m := Packet(Request, kind, x.name, lbl, Objects(s.broker.open, x.fds));
    assert ReqOk(s, cfg, w, d, kind, m, AtReq(d, kind));
    PushInv(s, cfg, w, o, m, c);
    assert Deliver(s, [x]) == Push(s, o, m);
  }

  /** What the plan for a request of component `c` can be. */
  ghost predicate PlanOk(s: System, cfg: seq<Node>, c: nat, b: B.State, env: B.Env, p: B.Plan) {
    && c < |cfg| && c < |s.procs| && s.procs[c].wait.Initializing?
    && var wait := s.procs[c].wait;
    match p
    case Ignore => true
    case Refuse(fd) => Valid(fd) ==> fd !in s.broker.open
    case GiveFile(path) => wait.kind == Rom && Valid(env.file) && OpenedFor(cfg, b.resources, c, Rom, wait.lbl, File(path))
    case GiveTimer => wait.kind == Timer && Valid(env.timer)
    case Pass(d, name, mem) =>
      && Configured(cfg, c, wait.kind, wait.lbl, d) && B.BothValid(env.pair) && Named(cfg[c]) && name == NameOf(cfg[c])
      && |mem| == |wait.mem| <= 1
      && (mem != [] ==> mem[0] in b.open && mem[0] !in s.broker.open && b.open[mem[0]] == wait.mem[0])
  }

  lemma PlanIsOk(s: System, cfg: seq<Node>, w: Witness, c: nat, b: B.State, env: B.Env, nums: seq<int>)
    requires Reading(s, cfg, w, c, b, env) && s.procs[c].wait.Initializing? && Valid(b.components[c].fd)
    requires |nums| == |s.procs[c].wait.mem| <= 1
    requires nums != [] ==> nums[0] in b.open && Valid(nums[0]) && nums[0] !in s.broker.open && b.open[nums[0]] == s.procs[c].wait.mem[0]
    ensures PlanOk(s, cfg, c, b, env, B.PlanOf(b, c, s.procs[c].wait.kind, s.procs[c].wait.lbl, Padded(nums), env))
  {
    var kind, lbl := s.procs[c].wait.kind, s.procs[c].wait.lbl;
    OwnNode(s, cfg, w, c);
    if B.RouteOf(b.components, cfg[c], kind, lbl).To? {
      RouteConfigured(s, cfg, w, c, kind, lbl);
    }
    PlanOfOwn(s, cfg, w, c, b, env, nums);
  }

  lemma OwnNode(s: System, cfg: seq<Node>, w: Witness, c: nat)
    requires Inv(s, cfg, w) && c < |cfg| && Valid(s.broker.components[c].fd)
    ensures s.broker.components[c].node == At(cfg[c]) && Named(cfg[c])
    ensures s.procs[c].wait.Initializing? ==> MemOk(s.procs[c].wait.kind, s.procs[c].wait.mem)
  {
    assert CompOk(s, cfg, w, c) && ProcOk(s, cfg, w, c);
  }

  lemma PlanOfOwn(s: System, cfg: seq<Node>, w: Witness, c: nat, b: B.State, env: B.Env, nums: seq<int>)
    requires c < |cfg| && c < |s.procs| && c < |b.components| && s.procs[c].wait.Initializing? && Valid(b.components[c].fd)
    requires b.components[c].node == At(cfg[c]) && Named(cfg[c]) && MemOk(s.procs[c].wait.kind, s.procs[c].wait.mem)
    requires |nums| == |s.procs[c].wait.mem| <= 1
    requires nums != [] ==> nums[0] in b.open && Valid(nums[0]) && nums[0] !in s.broker.open && b.open[nums[0]] == s.procs[c].wait.mem[0]
    requires var r := B.RouteOf(b.components, cfg[c], s.procs[c].wait.kind, s.procs[c].wait.lbl);
             r.To? ==> Configured(cfg, c, s.procs[c].wait.kind, s.procs[c].wait.lbl, r.dest)
    ensures PlanOk(s, cfg, c, b, env, B.PlanOf(b, c, s.procs[c].wait.kind, s.procs[c].wait.lbl, Padded(nums), env))
  {
  }

  /** The confirmation with a descriptor that the broker opened is a good answer. */
  lemma GiveAnswers(s: System, cfg: seq<Node>, w: Witness, c: nat, kind: Kind, lbl: Text, fd: int, o: Object) returns (v: Witness)
    requires Inv(s, cfg, w) && NoToken(s, cfg, w, c) && c < |cfg| && Valid(s.broker.components[c].fd)
    requires !w.loc[c].InHand? && Waits(s, c, kind) && lbl == s.procs[c].wait.lbl
    requires !SessionKind(kind) && OpenedFor(cfg, w.resources, c, kind, lbl, o)
    requires fd in s.broker.open && s.broker.open[fd] == o
    ensures Inv(Deliver(s, B.Confirmed(s.broker, c, kind, lbl, fd).sent), cfg, v)
  {
    var x := B.Sent(s.broker.components[c].fd, Confirm, kind, "", lbl, [fd]);
    assert x.fds[1..] == [] && Objects(s.broker.open, []) == [];
    assert Objects(s.broker.open, x.fds) == [o];
    v := Answered(s, cfg, w, c, x);
  }

  /** Carrying out the plan keeps the invariant. */
  lemma ReadRequest(s: System, cfg: seq<Node>, w: Witness, c: nat, b: B.State, env: B.Env, p: B.Plan, r: B.Reaction) returns (v: Witness)
    requires Reading(s, cfg, w, c, b, env) && PlanOk(s, cfg, c, b, env, p) && Valid(b.components[c].fd)
    requires r == B.Act(b, c, s.procs[c].wait.kind, s.procs[c].wait.lbl, p, env)
    ensures Inv(Deliver(s.(broker := r.st, next := Next(env)), r.sent), cfg, v)
  {
    var kind, lbl := s.procs[c].wait.kind, s.procs[c].wait.lbl;
    if p.Pass? {
      v := ReadForward(s, cfg, w, c, b, env, kind, lbl, p.mem, p.dest, r);
    } else {
      var t := s.(broker := r.st, next := Next(env));
      OpenMore(s, cfg, w, t, c);
      match p
      case Ignore =>
        Relocate(t, cfg, w, c, Nowhere);
        v := w.(loc := w.loc[c := Nowhere]);
      case Refuse(_) => v := RejectAnswers(t, cfg, w, c, kind, lbl);
      case GiveFile(path) => v := GiveAnswers(t, cfg, w, c, kind, lbl, env.file, File(path));
      case GiveTimer => v := GiveAnswers(t, cfg, w, c, kind, lbl, env.timer, Timerfd(env.timerId));
      case Pass(_, _, _) =>
    }
  }

  lemma ReadRegister(s: System, cfg: seq<Node>, w: Witness, c: nat, b: B.State, env: B.Env, r: B.Reaction) returns (v: Witness)
    requires Reading(s, cfg, w, c, b, env) && s.procs[c].wait.Registering? && Valid(b.components[c].fd)
    requires r == B.OnRegister(b, c, s.procs[c].wait.kind, env)
    ensures Inv(Deliver(s.(broker := r.st, next := Next(env)), r.sent), cfg, v)
  {
    var kind := s.procs[c].wait.kind;
    var s1 := s.(broker := b);
    OpenMore(s, cfg, w, s1, c);
    var t1, w1 := Setup(s1, cfg, w, c, c, kind, env);
    var t := t1.(next := Next(env));
    OpenMore(t1, cfg, w1, t, c);
    assert t == s.(broker := r.st, next := Next(env));
    if !B.SetupService(b, c, kind, env).1 {
      v := RejectAnswers(t, cfg, w1, c, kind, "");
    } else {
      assert ServOk(t.broker, w1, c, kind);
      var x := r.sent[0];
      assert x.fds[1..] == [];
      assert Objects(t.broker.open, x.fds) == [t.broker.open[x.fds[0]]];
      v := Answered(t, cfg, w1, c, x);
      assert r.sent == [x];
    }
  }

  /** Only the component with this name can be found under it. */
  lemma FoundIsOwner(s: System, cfg: seq<Node>, w: Witness, name: Text)
    requires Inv(s, cfg, w)
    ensures var d := B.FindComponent(s.broker.components, name, 0);
            d < |cfg| ==> d == Owner(cfg, name)
  {
    var d := B.FindComponent(s.broker.components, name, 0);
    if d < |cfg| {
      assert CompOk(s, cfg, w, d);
      OwnerIs(cfg, d, name);
    }
  }

  /** A server's answer is passed on to the client, or dropped. */
  lemma ReadReply(s: System, cfg: seq<Node>, w: Witness, c: nat, b: B.State, env: B.Env, d: nat, k: Kind, m: Packet, nums: seq<int>, r: B.Reaction)
    returns (v: Witness)
    requires Reading(s, cfg, w, c, b, env)
    requires RepOk(s, cfg, w, d, k, m) && c == Owner(cfg, m.name)
    requires |nums| == |m.objs|
    requires nums != [] ==> nums[0] in b.open && Valid(nums[0]) && b.open[nums[0]] == m.objs[0]
    requires m.action == Confirm ==> r == B.OnConfirm(b, m.kind, m.name, m.lbl, Padded(nums))
    requires m.action == Reject ==> r == B.OnReject(b, m.kind, m.name, m.lbl)
    ensures Inv(Deliver(s.(broker := r.st, next := Next(env)), r.sent), cfg, v)
  {
    var t := s.(broker := r.st, next := Next(env));
    assert r.st == b;
    OpenMore(s, cfg, w, t, c);
    FoundIsOwner(s, cfg, w, m.name);
    if r.sent == [] {
      Relocate(t, cfg, w, c, Nowhere);
      v := w.(loc := w.loc[c := Nowhere]);
    } else if m.action == Reject {
      v := RejectAnswers(t, cfg, w, c, k, m.lbl);
    } else {
      assert Granted(t, cfg, w, c, d, m.objs[0]) by { assert Granted(s, cfg, w, c, d, m.objs[0]); }
      v := ConfirmAnswers(t, cfg, w, c, d, m, nums[0]);
    }
  }

  /** The confirmation that is passed on is a good answer. */
  lemma ConfirmAnswers(s: System, cfg: seq<Node>, w: Witness, c: nat, d: nat, m: Packet, fd: int) returns (v: Witness)
    requires Inv(s, cfg, w) && NoToken(s, cfg, w, c) && c < |cfg| && Valid(s.broker.components[c].fd)
    requires !w.loc[c].InHand? && Waits(s, c, m.kind) && m.lbl == s.procs[c].wait.lbl
    requires SessionKind(m.kind) && |m.objs| == 1 && Granted(s, cfg, w, c, d, m.objs[0])
    requires fd in s.broker.open && s.broker.open[fd] == m.objs[0]
    ensures Inv(Deliver(s, B.Confirmed(s.broker, c, m.kind, m.lbl, fd).sent), cfg, v)
  {
    var x := B.Sent(s.broker.components[c].fd, Confirm, m.kind, "", m.lbl, [fd]);
    assert x.fds[1..] == [] && Objects(s.broker.open, []) == [];
    assert Objects(s.broker.open, x.fds) == [m.objs[0]];
    assert GrantedBySome(s, cfg, w.(loc := w.loc[c := Down]), c, m.objs[0]);
    assert OpenedFor(cfg, w.resources, c, m.kind, m.lbl, m.objs[0]);
    v := Answered(s, cfg, w, c, x);
  }
}
