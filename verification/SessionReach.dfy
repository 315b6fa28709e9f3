/** Every session that the configuration provides for can be had: a run from the
    start at whose end the client has it. */
module SessionReach {
  import opened Basics
  import opened Protocol
  import opened Config
  import opened Session
  import opened SessionInvariant
  import opened SessionRead
  import opened SessionAnswers
  import R = SessionTheorems
  import F = SessionFifo
  import A = BrokerAnswers
  import B = Broker

  /* ---- Paths ---- */

  ghost predicate Sound(s: System, cfg: seq<Node>) { exists w :: Inv(s, cfg, w) }

  ghost predicate Moves(s: System, step: Step, t: System) { Enabled(s, step) && t == Exec(s, step) }

  /** The steps lead through these states. */
  ghost predicate Path(states: seq<System>, steps: seq<Step>) {
    |states| == |steps| + 1 && forall i :: 0 <= i < |steps| ==> Moves(states[i], steps[i], states[i + 1])
  }

  /** Some steps lead from `s` to `t`. */
  ghost predicate Leads(s: System, t: System) {
    exists states, steps :: Between(s, states, steps, t)
  }

  ghost predicate Between(s: System, states: seq<System>, steps: seq<Step>, t: System) {
    Path(states, steps) && states[0] == s && states[|steps|] == t
  }

  lemma LeadsOn(s: System, t: System, u: System)
    requires Leads(s, t) && Leads(t, u)
    ensures Leads(s, u)
  {
    var a, x :| Between(s, a, x, t);
    var b, y :| Between(t, b, y, u);
    PathCat(a, x, b, y);
    assert Between(s, a[..|x|] + b, x + y, u);
  }

  lemma StepLeads(s: System, step: Step)
    requires Enabled(s, step)
    ensures Leads(s, Exec(s, step))
  {
    var t := Exec(s, step);
    assert Moves(s, step, t);
    MovesLead(s, step, t);
  }

  lemma MovesLead(s: System, step: Step, t: System)
    requires Moves(s, step, t)
    ensures Leads(s, t)
  {
    assert Between(s, [s, t], [step], t);
  }

  lemma PathCat(a: seq<System>, x: seq<Step>, b: seq<System>, y: seq<Step>)
    requires Path(a, x) && Path(b, y) && a[|x|] == b[0]
    ensures var c := a[..|x|] + b; Path(c, x + y) && c[0] == a[0] && c[|x + y|] == b[|y|]
  {
    var c, z := a[..|x|] + b, x + y;
    forall i | 0 <= i < |z| ensures Moves(c[i], z[i], c[i + 1]) {
      if i < |x| { MovesAt(a, x, i); } else { MovesAt(b, y, i - |x|); }
    }
  }

  lemma MovesAt(states: seq<System>, steps: seq<Step>, i: nat)
    requires Path(states, steps) && i < |steps|
    ensures Moves(states[i], steps[i], states[i + 1])
  {
  }

  lemma StepSound(s: System, cfg: seq<Node>, step: Step)
    requires Sound(s, cfg) && Enabled(s, step)
    ensures Sound(Exec(s, step), cfg)
  {
    var w :| Inv(s, cfg, w);
    var v := R.StepKeeps(s, cfg, w, step);
  }

  /* ---- Fresh numbers ---- */

  /** A number above all that are in use. */
  lemma FreshAbove(open: map<int, Object>) returns (n: nat)
    ensures forall f :: f in open ==> f < n
  {
    n := SetBound(open.Keys);
    assert forall f :: f in open ==> f in open.Keys;
  }

  lemma {:induction false} SetBound(keys: set<int>) returns (n: nat)
    ensures forall f :: f in keys ==> f < n
    decreases |keys|
  {
    if f :| f in keys {
      var m := SetBound(keys - {f});
      n := if m <= f then f + 1 else m;
      forall g | g in keys ensures g < n {
        if g != f { assert g in keys - {f}; }
      }
    } else {
      n := 0;
    }
  }

  /* ---- Components that are ready ---- */

  ghost predicate Ready(s: System, cfg: seq<Node>, i: nat) {
    && i < |cfg| && |s.procs| == |s.broker.components| == |cfg|
    && s.procs[i].alive && Valid(s.broker.components[i].fd)
    && s.procs[i].wait == Idle && s.procs[i].handling == NoRequest
  }

  /** What the invariant says of a component that is connected. */
  lemma Connected(s: System, cfg: seq<Node>, w: Witness, i: nat)
    requires Inv(s, cfg, w) && i < |cfg| && Valid(s.broker.components[i].fd)
    ensures var c, o := s.broker.components[i], s.procs[i].sock;
            && c.node == At(cfg[i]) && Named(cfg[i])
            && o.End? && o.second && o.pair < s.next && o.pair in w.role && w.role[o.pair] == CompRole(i)
            && c.fd in s.broker.open && s.broker.open[c.fd] == Peer(o)
  {
    assert CompOk(s, cfg, w, i);
    assert RoleOk(s, cfg, w, s.procs[i].sock.pair);
  }

  /** Its own socket, and its service sockets, are found as its own. */
  lemma DestIsOwn(s: System, cfg: seq<Node>, w: Witness, i: nat, fd: int)
    requires Inv(s, cfg, w) && i < |cfg| && Valid(fd) && fd in s.broker.open && s.broker.open[fd].End?
    requires B.Owns(s.broker.components[i], fd)
    requires s.broker.open[fd].pair in w.role
    requires w.role[s.broker.open[fd].pair] == CompRole(i) || (w.role[s.broker.open[fd].pair].ServRole? && w.role[s.broker.open[fd].pair].d == i)
    ensures B.Dest(s.broker.components, fd) == i
  {
    ReadOwner(s, cfg, w, fd);
  }

  /* ---- A dispatcher registers ---- */

  /** What the kernel answers when only the service socket is made. */
  function ServiceEnv(n: nat, id: nat): B.Env { B.Env((-1, -1), id, (n, n + 1), id + 1, true, true, -1, -1, 0) }

  /** And when only a session's pair is made. */
  function PairEnv(n: nat, id: nat): B.Env { B.Env((n, n + 1), id, (-1, -1), id + 1, true, true, -1, -1, 0) }

  function NoEnv(id: nat): B.Env { B.Env((-1, -1), id, (-1, -1), id + 1, true, true, -1, -1, 0) }

  /** Component `d` has a registered dispatcher; `q` waits for it, and nothing for
      the broker. */
  ghost predicate Serving(s: System, d: nat, kind: Kind, q: seq<Packet>) {
    && d < |s.procs| && d < |s.broker.components| && kind in s.procs[d].disp
    && var o, e := s.procs[d].disp[kind], s.broker.components[d].serv[kind];
    && o.End? && Valid(e.broker) && Valid(e.disp) && e.broker in s.broker.open && s.broker.open[e.broker] == Peer(o)
    && e.disp in s.broker.open && s.broker.open[e.disp] == o
    && Queue(s, o) == q && Queue(s, Peer(o)) == []
  }

  /** The first half of a call to the broker: the packet waits at its end. */
  lemma RegisterSends(s: System, cfg: seq<Node>, d: nat, kind: Kind) returns (t: System)
    requires Sound(s, cfg) && Ready(s, cfg, d)
    ensures Leads(s, t) && Sound(t, cfg) && t.broker == s.broker && |t.procs| == |s.procs|
    ensures s.procs[d].sock.End? && t.procs[d] == s.procs[d].(wait := Registering(kind))
    ensures forall j :: 0 <= j < |s.procs| && j != d ==> t.procs[j] == s.procs[j]
    ensures Queue(t, Peer(s.procs[d].sock)) == [Packet(Protocol.Register, kind, "", "", [])]
  {
    var w :| Inv(s, cfg, w);
    Connected(s, cfg, w, d);
    t := Exec(s, Step.Register(d, kind));
    StepLeads(s, Step.Register(d, kind));
    StepSound(s, cfg, Step.Register(d, kind));
    LastIsOnly(t, cfg, d);
  }

  /** What the broker makes of a registration when there is no service socket. */
  lemma RegisterMakes(st: B.State, d: nat, kind: Kind, n: nat, id: nat)
    requires d < |st.components| && st.components[d].serv[kind] == B.NoEntry
    ensures var r := B.OnMessage(st, d, Protocol.Register, kind, "", "", [-1, -1, -1, -1], ServiceEnv(n, id));
            && r.sent == [B.Sent(st.components[d].fd, Confirm, kind, "", "", [n + 1])]
            && r.st == B.SetServ(st.(open := B.InstallPair(st.open, (n, n + 1), id + 1)), d, kind, B.ServiceEntry(n, n + 1))
  {
  }

  /** The second half: the broker makes the service socket and answers. */
  lemma RegisterRead(s: System, cfg: seq<Node>, d: nat, kind: Kind, n: nat) returns (t: System)
    requires Sound(s, cfg) && d < |cfg| && |s.procs| == |s.broker.components| == |cfg| && Valid(s.broker.components[d].fd)
    requires s.procs[d].sock.End? && Queue(s, Peer(s.procs[d].sock)) == [Packet(Protocol.Register, kind, "", "", [])]
    requires s.broker.components[d].serv[kind] == B.NoEntry && forall f :: f in s.broker.open ==> f < n
    ensures Leads(s, t) && Sound(t, cfg) && t.procs == s.procs && |t.broker.components| == |cfg|
    ensures forall j :: 0 <= j < |cfg| ==> t.broker.components[j].fd == s.broker.components[j].fd
    ensures var o := End(s.next + 1, true);
            && t.broker.components[d].serv[kind] == B.ServiceEntry(n, n + 1)
            && n in t.broker.open && t.broker.open[n] == Peer(o) && n + 1 in t.broker.open && t.broker.open[n + 1] == o
            && Queue(t, s.procs[d].sock) == [Packet(Confirm, kind, "", "", [o])]
            && Queue(t, o) == [] && Queue(t, Peer(o)) == [] && s.procs[d].sock.pair < s.next
  {
    RegisterCanRead(s, cfg, d, kind, n);
    RegisterAnswered(s, cfg, d, kind, n);
    t := ReadLeads(s, cfg, s.broker.components[d].fd, [], ServiceEnv(n, s.next));
    LastIsOnly(t, cfg, d);
  }

  lemma ReadLeads(s: System, cfg: seq<Node>, fd: int, nums: seq<int>, env: B.Env) returns (t: System)
    requires Sound(s, cfg) && CanRead(s, fd, nums, env)
    ensures t == AfterRead(s, fd, nums, env) && Leads(s, t) && Sound(t, cfg)
  {
    t := AfterRead(s, fd, nums, env);
    StepLeads(s, Read(fd, nums, env));
    StepSound(s, cfg, Read(fd, nums, env));
  }

  /** A packet in a component's own queue is the only one. */
  lemma LastIsOnly(s: System, cfg: seq<Node>, i: nat)
    requires Sound(s, cfg) && i < |cfg| && i < |s.broker.components| && i < |s.procs| && Valid(s.broker.components[i].fd)
    ensures s.procs[i].sock.End?
    ensures var q := Queue(s, s.procs[i].sock); q == [] || q == [q[|q| - 1]]
    ensures var q := Queue(s, Peer(s.procs[i].sock)); q == [] || q == [q[|q| - 1]]
  {
    var w :| Inv(s, cfg, w);
    OnlyOne(s, cfg, w, i);
  }

  lemma RegisterCanRead(s: System, cfg: seq<Node>, d: nat, kind: Kind, n: nat)
    requires Sound(s, cfg) && d < |cfg| && |s.procs| == |s.broker.components| == |cfg| && Valid(s.broker.components[d].fd)
    requires s.procs[d].sock.End? && Queue(s, Peer(s.procs[d].sock)) == [Packet(Protocol.Register, kind, "", "", [])]
    requires forall f :: f in s.broker.open ==> f < n
    ensures var fd := s.broker.components[d].fd;
            && CanRead(s, fd, [], ServiceEnv(n, s.next)) && B.Dest(s.broker.components, fd) == d
            && fd in s.broker.open && s.broker.open[fd] == Peer(s.procs[d].sock) && fd < n && s.procs[d].sock.pair < s.next
            && Queue(s, End(s.next + 1, true)) == [] && Queue(s, End(s.next + 1, false)) == []
  {
    OwnSocket(s, cfg, d);
    var w :| Inv(s, cfg, w);
    NobodyAbove(s, cfg, w, s.next + 1);
    NoneReceived(s, s.broker.components[d].fd, ServiceEnv(n, s.next));
  }

  /** A connected component's socket is read as its own. */
  lemma OwnSocket(s: System, cfg: seq<Node>, i: nat)
    requires Sound(s, cfg) && i < |cfg| && |s.procs| == |s.broker.components| == |cfg| && Valid(s.broker.components[i].fd)
    ensures var fd, o := s.broker.components[i].fd, s.procs[i].sock;
            && B.Dest(s.broker.components, fd) == i && o.End? && o.pair < s.next
            && fd in s.broker.open && s.broker.open[fd] == Peer(o)
  {
    var w :| Inv(s, cfg, w);
    Connected(s, cfg, w, i);
    DestIsOwn(s, cfg, w, i, s.broker.components[i].fd);
  }

  lemma NoneReceived(s: System, fd: int, env: B.Env)
    requires Valid(fd) && fd in s.broker.open && Queue(s, s.broker.open[fd]) != [] && Queue(s, s.broker.open[fd])[0].objs == []
    requires B.Dest(s.broker.components, fd) < |s.broker.components| && Valid(s.broker.components[B.Dest(s.broker.components, fd)].fd)
    requires B.Kernel(s.broker.open, env) && s.next <= env.pairId && s.next <= env.servId && env.pairId != env.servId
    ensures CanRead(s, fd, [], env)
  {
    assert InstallAll(s.broker.open, [], []) == s.broker.open;
  }

  /** Nothing is queued at a pair that does not exist. */
  lemma NobodyAbove(s: System, cfg: seq<Node>, w: Witness, id: nat)
    requires Inv(s, cfg, w) && s.next <= id
    ensures Queue(s, End(id, true)) == [] && Queue(s, End(id, false)) == []
  {
    F.NoSuchQueue(s, cfg, w, End(id, true));
    F.NoSuchQueue(s, cfg, w, End(id, false));
  }

  lemma RegisterAnswered(s: System, cfg: seq<Node>, d: nat, kind: Kind, n: nat)
    requires d < |s.broker.components| == |s.procs| && s.procs[d].sock.End? && s.procs[d].sock.pair < s.next
    requires var fd := s.broker.components[d].fd;
             && fd in s.broker.open && s.broker.open[fd] == Peer(s.procs[d].sock) && fd < n
             && CanRead(s, fd, [], ServiceEnv(n, s.next)) && B.Dest(s.broker.components, fd) == d
    requires Queue(s, Peer(s.procs[d].sock)) == [Packet(Protocol.Register, kind, "", "", [])]
    requires s.broker.components[d].serv[kind] == B.NoEntry
    requires Queue(s, End(s.next + 1, true)) == [] && Queue(s, End(s.next + 1, false)) == []
    ensures var t, o := AfterRead(s, s.broker.components[d].fd, [], ServiceEnv(n, s.next)), End(s.next + 1, true);
            && t.procs == s.procs && |t.broker.components| == |s.broker.components|
            && (forall j :: 0 <= j < |s.broker.components| ==> t.broker.components[j].fd == s.broker.components[j].fd)
            && t.broker.components[d].serv[kind] == B.ServiceEntry(n, n + 1)
            && n in t.broker.open && t.broker.open[n] == Peer(o) && n + 1 in t.broker.open && t.broker.open[n + 1] == o
            && Packet(Confirm, kind, "", "", [o]) in Queue(t, s.procs[d].sock)
            && Queue(t, s.procs[d].sock)[|Queue(t, s.procs[d].sock)| - 1] == Packet(Confirm, kind, "", "", [o])
            && Queue(t, o) == [] && Queue(t, Peer(o)) == []
  {
    var fd, env := s.broker.components[d].fd, ServiceEnv(n, s.next);
    RegisterMakes(s.broker, d, kind, n, s.next);
    assert Padded([]) == [-1, -1, -1, -1];
    var x := B.Sent(fd, Confirm, kind, "", "", [n + 1]);
    var r := F.ReactionTo(s, fd, [], env);
    assert r.sent == [x] && r.st.open == s.broker.open[n := End(s.next + 1, false)][n + 1 := End(s.next + 1, true)];
    assert [n + 1][1..] == [] && Objects(r.st.open, []) == [];
    assert Objects(r.st.open, x.fds) == [r.st.open[n + 1]];
    ReadDelivers(s, fd, [], env, x);
  }

  lemma Registered(s: System, cfg: seq<Node>, d: nat, kind: Kind, o: Object, n: nat) returns (t: System)
    requires Sound(s, cfg) && d < |cfg| && |s.procs| == |s.broker.components| == |cfg| && Valid(s.broker.components[d].fd)
    requires s.procs[d].alive && s.procs[d].wait == Registering(kind) && s.procs[d].handling == NoRequest
    requires o.End? && s.procs[d].sock.End? && s.procs[d].sock != o && s.procs[d].sock != Peer(o)
    requires Queue(s, s.procs[d].sock) == [Packet(Confirm, kind, "", "", [o])]
    requires s.broker.components[d].serv[kind] == B.ServiceEntry(n, n + 1)
    requires n in s.broker.open && s.broker.open[n] == Peer(o) && n + 1 in s.broker.open && s.broker.open[n + 1] == o
    requires Queue(s, o) == [] && Queue(s, Peer(o)) == []
    ensures Leads(s, t) && Sound(t, cfg) && Ready(t, cfg, d) && Serving(t, d, kind, []) && t.broker == s.broker
    ensures forall j :: 0 <= j < |cfg| && j != d ==> t.procs[j] == s.procs[j]
  {
    t := Exec(s, Return(d));
    StepLeads(s, Return(d));
    StepSound(s, cfg, Return(d));
  }

  /** A started component registers for a kind: then its dispatcher is served by
      an empty queue. */
  lemma RegisterServer(s: System, cfg: seq<Node>, d: nat, kind: Kind) returns (t: System)
    requires Sound(s, cfg) && Ready(s, cfg, d) && s.broker.components[d].serv[kind] == B.NoEntry
    ensures Leads(s, t) && Sound(t, cfg) && Ready(t, cfg, d) && Serving(t, d, kind, [])
    ensures forall j :: 0 <= j < |cfg| && j != d ==> t.procs[j] == s.procs[j]
    ensures forall j :: 0 <= j < |cfg| ==> t.broker.components[j].fd == s.broker.components[j].fd
  {
    var n := FreshAbove(s.broker.open);
    var a := RegisterSends(s, cfg, d, kind);
    var b := RegisterRead(a, cfg, d, kind, n);
    t := Registered(b, cfg, d, kind, End(a.next + 1, true), n);
    LeadsOn(s, a, b);
    LeadsOn(s, b, t);
  }

  /* ---- A client asks ---- */

  /** The server's and the client's queues are at different objects. */
  lemma ServiceApart(s: System, cfg: seq<Node>, d: nat, kind: Kind, c: nat, q: seq<Packet>)
    requires Sound(s, cfg) && Serving(s, d, kind, q) && d < |cfg| && c < |cfg| && Valid(s.broker.components[c].fd)
    ensures s.procs[c].sock.End? && s.procs[c].sock.pair != s.procs[d].disp[kind].pair
  {
    var w :| Inv(s, cfg, w);
    Connected(s, cfg, w, c);
    assert ProcOk(s, cfg, w, d);
    assert DispEnd(w, d, kind, s.procs[d].disp[kind]);
  }

  lemma AskSends(s: System, cfg: seq<Node>, c: nat, d: nat, kind: Kind, lbl: Text) returns (t: System)
    requires Sound(s, cfg) && Ready(s, cfg, c) && Ready(s, cfg, d) && c != d && |lbl| <= MaxText && Serving(s, d, kind, [])
    ensures Leads(s, t) && Sound(t, cfg) && t.broker == s.broker && |t.procs| == |s.procs|
    ensures var mem := NewMemory(s, kind);
            && s.procs[c].sock.End? && t.procs[c] == s.procs[c].(wait := Initializing(kind, lbl, mem))
            && Queue(t, Peer(s.procs[c].sock)) == [Packet(Request, kind, "", lbl, mem)]
    ensures Ready(t, cfg, d) && Serving(t, d, kind, [])
  {
    var w :| Inv(s, cfg, w);
    Connected(s, cfg, w, c);
    ServiceApart(s, cfg, d, kind, c, []);
    t := AskStep(s, cfg, c, kind, lbl);
    LastIsOnly(t, cfg, c);
  }

  lemma AskStep(s: System, cfg: seq<Node>, c: nat, kind: Kind, lbl: Text) returns (t: System)
    requires Sound(s, cfg) && Ready(s, cfg, c) && s.procs[c].sock.End? && |lbl| <= MaxText
    ensures Leads(s, t) && Sound(t, cfg)
    ensures var o, mem := Peer(s.procs[c].sock), NewMemory(s, kind);
            && t == Push(SetProc(s, c, s.procs[c].(wait := Initializing(kind, lbl, mem))).(next := s.next + 1), o, Packet(Request, kind, "", lbl, mem))
  {
    t := Exec(s, Initialize(c, kind, lbl));
    StepLeads(s, Initialize(c, kind, lbl));
    StepSound(s, cfg, Initialize(c, kind, lbl));
  }

  /** What the configuration says is what the broker finds. */
  lemma AskForwardable(s: System, cfg: seq<Node>, c: nat, d: nat, kind: Kind, lbl: Text, st: B.State, fds: seq<int>, env: B.Env) returns (serv: Node)
    requires Sound(s, cfg) && c < |cfg| && Configured(cfg, c, kind, lbl, d) && st.components == s.broker.components
    requires |s.broker.components| == |cfg| && Valid(s.broker.components[c].fd) && Valid(s.broker.components[d].fd)
    requires Attribute(cfg[d], "name", MaxText) != Found("")
    requires B.BothValid(env.pair) && A.MemoryOk(kind, fds, env) && A.CanServe(st, d, kind, env)
    ensures Named(cfg[c]) && A.Forwardable(st, c, kind, lbl, fds, env, NameOf(cfg[c]), serv, d)
  {
    var w :| Inv(s, cfg, w);
    Connected(s, cfg, w, c);
    Connected(s, cfg, w, d);
    OwnIsFirst(s, cfg, w, d);
    serv := ServiceOf(cfg[c], Image(kind), lbl).value;
  }

  /** The numbers under which the client's memory arrives. */
  function MemoryNums(kind: Kind, n: nat): seq<int> { if kind == Memory then [n] else [] }

  lemma AskCanRead(s: System, cfg: seq<Node>, c: nat, kind: Kind, lbl: Text, mem: seq<Object>, n: nat)
    requires Sound(s, cfg) && c < |cfg| && |s.procs| == |s.broker.components| == |cfg| && Valid(s.broker.components[c].fd)
    requires s.procs[c].sock.End? && Queue(s, Peer(s.procs[c].sock)) == [Packet(Request, kind, "", lbl, mem)]
    requires |mem| == (if kind == Memory then 1 else 0) && forall f :: f in s.broker.open ==> f < n
    ensures var fd, env, nums := s.broker.components[c].fd, PairEnv(n + 1, s.next), MemoryNums(kind, n);
            && CanRead(s, fd, nums, env) && B.Dest(s.broker.components, fd) == c
            && fd in s.broker.open && s.broker.open[fd] == Peer(s.procs[c].sock)
            && B.Kernel(InstallAll(s.broker.open, mem, nums), env)
  {
    OwnSocket(s, cfg, c);
    assert mem != [] ==> mem[1..] == [];
  }

  /** The request is forwarded and waits for the dispatcher. */
  lemma AskRead(s: System, cfg: seq<Node>, c: nat, d: nat, kind: Kind, lbl: Text, mem: seq<Object>) returns (t: System)
    requires Sound(s, cfg) && c < |cfg| && c != d && |s.procs| == |s.broker.components| == |cfg| && Valid(s.broker.components[c].fd)
    requires SessionKind(kind) && |lbl| <= MaxText && Configured(cfg, c, kind, lbl, d) && Attribute(cfg[d], "name", MaxText) != Found("")
    requires s.procs[c].sock.End? && Queue(s, Peer(s.procs[c].sock)) == [Packet(Request, kind, "", lbl, mem)]
    requires |mem| == (if kind == Memory then 1 else 0)
    requires Ready(s, cfg, d) && Serving(s, d, kind, [])
    ensures Named(cfg[c]) && Leads(s, t) && Sound(t, cfg) && t.procs == s.procs && t.broker.components == s.broker.components
    ensures Ready(t, cfg, d)
    ensures Serving(t, d, kind, [Packet(Request, kind, NameOf(cfg[c]), lbl, [End(s.next, false), End(s.next, true)] + mem)])
  {
    var n := FreshAbove(s.broker.open);
    var fd, env, nums := s.broker.components[c].fd, PairEnv(n + 1, s.next), MemoryNums(kind, n);
    AskCanRead(s, cfg, c, kind, lbl, mem, n);
    var st := s.broker.(open := InstallAll(s.broker.open, mem, nums));
    var serv := AskForwardable(s, cfg, c, d, kind, lbl, st, Padded(nums), env);
    t := ReadLeads(s, cfg, fd, nums, env);
    ServiceApart(s, cfg, d, kind, c, []);
    AskForwarded(s, st, c, d, kind, lbl, mem, nums, env, NameOf(cfg[c]), serv, t);
  }

  lemma AskForwarded(s: System, st: B.State, c: nat, d: nat, kind: Kind, lbl: Text, mem: seq<Object>, nums: seq<int>, env: B.Env, name: Text, serv: Node, t: System)
    requires c < |s.procs| == |s.broker.components| && s.procs[c].sock.End? && SessionKind(kind) && |lbl| <= MaxText
    requires var fd := s.broker.components[c].fd;
             && CanRead(s, fd, nums, env) && t == AfterRead(s, fd, nums, env) && B.Dest(s.broker.components, fd) == c
             && fd in s.broker.open && s.broker.open[fd] == Peer(s.procs[c].sock)
    requires Queue(s, Peer(s.procs[c].sock)) == [Packet(Request, kind, "", lbl, mem)]
    requires st == s.broker.(open := InstallAll(s.broker.open, mem, nums)) && B.Kernel(st.open, env)
    requires |mem| == |nums| == (if kind == Memory then 1 else 0)
    requires Serving(s, d, kind, []) && s.procs[d].disp[kind].pair != s.procs[c].sock.pair
    requires A.Forwardable(st, c, kind, lbl, Padded(nums), env, name, serv, d)
    ensures t.procs == s.procs && t.broker.components == s.broker.components
    ensures Serving(t, d, kind, [Packet(Request, kind, name, lbl, [End(env.pairId, false), End(env.pairId, true)] + mem)])
  {
    var x := ForwardedPacket(s, st, c, d, kind, lbl, mem, nums, env, name, serv);
    ReadDelivers(s, s.broker.components[c].fd, nums, env, x);
    assert x.fd == s.broker.components[d].serv[kind].broker;
    QueueAfter(s, Peer(s.procs[c].sock), t, s.procs[d].disp[kind]);
  }

  /** Taking a packet at one object leaves the queues at another pair alone. */
  lemma QueueAfter(s: System, o: Object, t: System, u: Object)
    requires o.End? && u.End? && o.pair != u.pair && Queue(s, o) != []
    ensures Queue(Pop(s, o), u) == Queue(s, u) && Queue(Pop(s, o), Peer(u)) == Queue(s, Peer(u))
  {
  }

  lemma ForwardedPacket(s: System, st: B.State, c: nat, d: nat, kind: Kind, lbl: Text, mem: seq<Object>, nums: seq<int>, env: B.Env, name: Text, serv: Node) returns (x: B.Sent)
    requires c < |s.broker.components| && SessionKind(kind) && |lbl| <= MaxText
    requires var fd := s.broker.components[c].fd;
             && CanRead(s, fd, nums, env) && B.Dest(s.broker.components, fd) == c
             && Queue(s, s.broker.open[fd])[0] == Packet(Request, kind, "", lbl, mem)
    requires st == s.broker.(open := InstallAll(s.broker.open, mem, nums)) && B.Kernel(st.open, env)
    requires |mem| == |nums| == (if kind == Memory then 1 else 0)
    requires d < |s.broker.components| && Valid(s.broker.components[d].serv[kind].broker) && Valid(s.broker.components[d].serv[kind].disp)
    requires A.Forwardable(st, c, kind, lbl, Padded(nums), env, name, serv, d)
    ensures var r := F.ReactionTo(s, s.broker.components[c].fd, nums, env);
            && r.sent == [x] && r.st.components == s.broker.components && Extends(s.broker.open, r.st.open)
            && x.fd == s.broker.components[d].serv[kind].broker && (x.action, x.kind, x.name, x.lbl) == (Request, kind, name, lbl)
            && Objects(r.st.open, x.fds) == [End(env.pairId, false), End(env.pairId, true)] + mem
  {
    A.RequestIsForwarded(st, c, kind, lbl, Padded(nums), env, name, serv, d);
    Installed(s.broker.open, mem, nums);
    var r := F.ReactionTo(s, s.broker.components[c].fd, nums, env);
    x := r.sent[0];
    assert x.fds == [env.pair.0, env.pair.1] + nums;
    ForwardedObjects(r.st.open, env.pair.0, env.pair.1, nums, mem);
  }

  /* ---- The server accepts ---- */

  /** The dispatcher takes the request and accepts it: the Confirm with the
      client's end waits for the broker. */
  lemma ServerTakes(s: System, cfg: seq<Node>, c: nat, d: nat, kind: Kind, m: Packet) returns (t: System)
    requires Sound(s, cfg) && Ready(s, cfg, d) && c < |cfg| && c != d && Serving(s, d, kind, [m]) && SessionKind(kind)
    ensures Leads(s, t) && Sound(t, cfg) && t.broker == s.broker && |t.procs| == |s.procs|
    ensures t.procs[d] == s.procs[d].(handling := Handling(kind, m, false)) && t.procs[c] == s.procs[c]
    ensures Serving(t, d, kind, [])
  {
    t := Exec(s, Dispatch(d, kind));
    StepLeads(s, Dispatch(d, kind));
    StepSound(s, cfg, Dispatch(d, kind));
  }

  lemma ServerAccepts(s: System, cfg: seq<Node>, c: nat, d: nat, kind: Kind, m: Packet) returns (t: System)
    requires Sound(s, cfg) && d < |cfg| && |s.procs| == |s.broker.components| == |cfg| && c < |cfg| && c != d && Serving(s, d, kind, [])
    requires s.procs[d].alive && s.procs[d].wait == Idle && s.procs[d].handling == Handling(kind, m, false)
    requires SessionKind(kind) && ValidRequest(kind, m)
    ensures Leads(s, t) && Sound(t, cfg) && t.broker == s.broker && |t.procs| == |s.procs| && t.procs[c] == s.procs[c]
    ensures s.procs[d].disp[kind].End? && Queue(t, Peer(s.procs[d].disp[kind])) == [Packet(Confirm, kind, m.name, m.lbl, [m.objs[0]])]
  {
    t := Exec(s, Accept(d));
    StepLeads(s, Accept(d));
    StepSound(s, cfg, Accept(d));
  }

  lemma AnswerCanRead(s: System, cfg: seq<Node>, d: nat, kind: Kind, o: Object, m: Packet, n: nat)
    requires Sound(s, cfg) && d < |cfg| && |s.procs| == |s.broker.components| == |cfg| && Valid(s.broker.components[d].fd)
    requires var e := s.broker.components[d].serv[kind];
             && o.End? && Valid(e.broker) && Valid(e.disp) && e.broker in s.broker.open && s.broker.open[e.broker] == Peer(o)
             && e.disp in s.broker.open && s.broker.open[e.disp] == o
    requires Queue(s, Peer(o)) == [m] && |m.objs| == 1 && forall f :: f in s.broker.open ==> f < n
    ensures CanRead(s, s.broker.components[d].serv[kind].broker, [n], NoEnv(s.next))
  {
    var w :| Inv(s, cfg, w);
    assert ServOk(s.broker, w, d, kind);
    var fd := s.broker.components[d].serv[kind].broker;
    DestIsOwn(s, cfg, w, d, fd);
    assert m.objs[1..] == [];
  }

  /** The broker passes it on: it waits for the client. */
  lemma AnswerRead(s: System, cfg: seq<Node>, c: nat, d: nat, kind: Kind, o: Object, m: Packet) returns (t: System)
    requires Sound(s, cfg) && d < |cfg| && c < |cfg| && |s.procs| == |s.broker.components| == |cfg|
    requires Valid(s.broker.components[d].fd) && Valid(s.broker.components[c].fd)
    requires var e := s.broker.components[d].serv[kind];
             && o.End? && Valid(e.broker) && Valid(e.disp) && e.broker in s.broker.open && s.broker.open[e.broker] == Peer(o)
             && e.disp in s.broker.open && s.broker.open[e.disp] == o
    requires Queue(s, Peer(o)) == [m] && |m.objs| == 1 && m.action == Confirm && m.kind == kind && SessionKind(kind)
    requires HasName(cfg, c, m.name) && m.name != [] && |m.name| + |m.lbl| <= MaxText
    ensures Leads(s, t) && Sound(t, cfg) && t.procs == s.procs && s.procs[c].sock.End?
    ensures Queue(t, s.procs[c].sock) == [Packet(Confirm, kind, "", m.lbl, m.objs)]
  {
    var n := FreshAbove(s.broker.open);
    var fd := s.broker.components[d].serv[kind].broker;
    AnswerCanRead(s, cfg, d, kind, o, m, n);
    t := ReadLeads(s, cfg, fd, [n], NoEnv(s.next));
    var w :| Inv(s, cfg, w);
    var v :| Inv(t, cfg, v);
    AnswerWaits(s, cfg, w, v, fd, [n], NoEnv(s.next), c);
    LastIsOnly(s, cfg, c);
  }

  /** And `Initialize` returns with it. */
  lemma ClientReturns(s: System, cfg: seq<Node>, c: nat, kind: Kind, lbl: Text, mem: seq<Object>, o: Object) returns (t: System)
    requires c < |s.procs| && s.procs[c].alive && s.procs[c].wait == Initializing(kind, lbl, mem) && SessionKind(kind)
    requires Queue(s, s.procs[c].sock) == [Packet(Confirm, kind, "", lbl, [o])]
    ensures Leads(s, t) && c < |t.procs| && ClientSession(kind, lbl, o, mem) in t.procs[c].clients
  {
    t := Exec(s, Return(c));
    StepLeads(s, Return(c));
  }

  /* ---- The whole way ---- */

  /** From a state in which the server's dispatcher waits, a client that asks gets
      its session. */
  lemma Ask(s: System, cfg: seq<Node>, c: nat, d: nat, kind: Kind, lbl: Text) returns (t: System)
    requires Sound(s, cfg) && Ready(s, cfg, c) && Ready(s, cfg, d) && c != d && Serving(s, d, kind, [])
    requires SessionKind(kind) && Configured(cfg, c, kind, lbl, d) && Attribute(cfg[d], "name", MaxText) != Found("")
    requires Named(cfg[c]) && NameOf(cfg[c]) != [] && |NameOf(cfg[c])| + |lbl| <= MaxText
    ensures Leads(s, t) && c < |t.procs| && exists x :: x in t.procs[c].clients && x.kind == kind && x.lbl == lbl
  {
    var mem, name := NewMemory(s, kind), NameOf(cfg[c]);
    var a := AskSends(s, cfg, c, d, kind, lbl);
    var b := AskRead(a, cfg, c, d, kind, lbl, mem);
    var m := Packet(Request, kind, name, lbl, [End(a.next, false), End(a.next, true)] + mem);
    t := Served(b, cfg, c, d, kind, lbl, mem, m);
    LeadsOn(s, a, b);
    LeadsOn(s, b, t);
  }

  lemma Served(s: System, cfg: seq<Node>, c: nat, d: nat, kind: Kind, lbl: Text, mem: seq<Object>, m: Packet) returns (t: System)
    requires Sound(s, cfg) && Ready(s, cfg, d) && c < |cfg| && c != d && Serving(s, d, kind, [m]) && SessionKind(kind)
    requires Valid(s.broker.components[c].fd) && s.procs[c].alive && s.procs[c].wait == Initializing(kind, lbl, mem)
    requires Named(cfg[c]) && NameOf(cfg[c]) != [] && |NameOf(cfg[c])| + |lbl| <= MaxText
    requires m.kind == kind && m.name == NameOf(cfg[c]) && m.lbl == lbl && ValidRequest(kind, m)
    ensures Leads(s, t) && c < |t.procs| && exists x :: x in t.procs[c].clients && x.kind == kind && x.lbl == lbl
  {
    var o := s.procs[d].disp[kind];
    var a := ServerTakes(s, cfg, c, d, kind, m);
    var b := ServerAccepts(a, cfg, c, d, kind, m);
    var e := AnswerRead(b, cfg, c, d, kind, o, Packet(Confirm, kind, m.name, m.lbl, [m.objs[0]]));
    t := ClientReturns(e, cfg, c, kind, lbl, mem, m.objs[0]);
    LeadsOn(s, a, b);
    LeadsOn(s, b, e);
    LeadsOn(s, e, t);
    assert ClientSession(kind, lbl, m.objs[0], mem).kind == kind;
  }

  /** Every session that the configuration provides for is had in some run: from
      any start with distinct names, for any two started components of which one
      names the other as its server for a kind and label. Both must have a
      nonempty name, and the client's name and the label must not be too long to
      be answered. */
  lemma SessionsCanBeHad(s: System, cfg: seq<Node>, c: nat, d: nat, kind: Kind, lbl: Text) returns (states: seq<System>, steps: seq<Step>)
    requires Start(s, cfg) && DistinctNames(cfg) && c < |cfg| && d < |cfg| && c != d
    requires Valid(s.broker.components[c].fd) && Valid(s.broker.components[d].fd)
    requires SessionKind(kind) && Configured(cfg, c, kind, lbl, d) && Attribute(cfg[d], "name", MaxText) != Found("")
    requires Named(cfg[c]) && NameOf(cfg[c]) != [] && |NameOf(cfg[c])| + |lbl| <= MaxText
    ensures Run(cfg, states, steps) && states[0] == s
    ensures c < |states[|steps|].procs| && exists x :: x in states[|steps|].procs[c].clients && x.kind == kind && x.lbl == lbl
  {
    var w := R.StartHolds(s, cfg);
    assert Started(s, cfg, c) && Started(s, cfg, d);
    var a := RegisterServer(s, cfg, d, kind);
    var t := Ask(a, cfg, c, d, kind, lbl);
    LeadsOn(s, a, t);
    states, steps :| Between(s, states, steps, t);
    forall i | 0 <= i < |steps| ensures Enabled(states[i], steps[i]) && states[i + 1] == Exec(states[i], steps[i]) {
      assert Moves(states[i], steps[i], states[i + 1]);
    }
  }
}
