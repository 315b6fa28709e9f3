/** Safety of sessions over whole runs. */
module SessionTheorems {
  import opened Basics
  import opened Protocol
  import opened Config
  import opened Session
  import opened SessionInvariant
  import opened SessionSteps
  import opened SessionBroker
  import opened SessionRead
  import B = Broker

  /** The packet that the broker takes is the only token of its owner. */
  lemma BeginRead(s: System, cfg: seq<Node>, w: Witness, fd: int, nums: seq<int>, env: B.Env) returns (c: nat, b: B.State)
    requires Inv(s, cfg, w) && CanRead(s, fd, nums, env)
    ensures var o := s.broker.open[fd];
            var m := Queue(s, o)[0];
            && c == TokenOf(cfg, w, o, m)
            && b == s.broker.(open := InstallAll(s.broker.open, m.objs, nums))
            && Reading(Pop(s, o), cfg, w, c, b, env)
  {
    var o := s.broker.open[fd];
    ReadOwner(s, cfg, w, fd);
    assert QueueOk(s, cfg, w, o);
    var m := Queue(s, o)[0];
    c := TokenOf(cfg, w, o, m);
    PopInv(s, cfg, w, o, c);
    Installed(s.broker.open, m.objs, nums);
    b := s.broker.(open := InstallAll(s.broker.open, m.objs, nums));
  }

  lemma ReadDropped(s: System, cfg: seq<Node>, w: Witness, c: nat, b: B.State, env: B.Env) returns (v: Witness)
    requires Reading(s, cfg, w, c, b, env)
    ensures Inv(Deliver(s.(broker := b, next := Next(env)), []), cfg, v)
  {
    var t := s.(broker := b, next := Next(env));
    OpenMore(s, cfg, w, t, c);
    Relocate(t, cfg, w, c, Nowhere);
    v := w.(loc := w.loc[c := Nowhere]);
  }

  /** A packet from a component's own socket. */
  lemma ReadUp(s: System, cfg: seq<Node>, w: Witness, c: nat, b: B.State, env: B.Env, m: Packet, nums: seq<int>) returns (v: Witness)
    requires Reading(s, cfg, w, c, b, env) && UpOk(s, w, c, m) && Valid(b.components[c].fd)
    requires Received(s.broker.open, m.objs, nums) && b.open == InstallAll(s.broker.open, m.objs, nums)
    ensures var r := B.OnMessage(b, c, m.action, m.kind, m.name, m.lbl, Padded(nums), env);
            Inv(Deliver(s.(broker := r.st, next := Next(env)), r.sent), cfg, v)
  {
    var r := B.OnMessage(b, c, m.action, m.kind, m.name, m.lbl, Padded(nums), env);
    Installed(s.broker.open, m.objs, nums);
    assert ProcOk(s, cfg, w, c);
    if m.action == Request && |m.lbl| >= 256 {
      v := ReadDropped(s, cfg, w, c, b, env);
    } else if m.action == Request {
      PlanIsOk(s, cfg, w, c, b, env, nums);
      v := ReadRequest(s, cfg, w, c, b, env, B.PlanOf(b, c, m.kind, m.lbl, Padded(nums), env), r);
    } else {
      v := ReadRegister(s, cfg, w, c, b, env, r);
    }
  }

  /** A packet from a service socket. */
  lemma ReadDown(s: System, cfg: seq<Node>, w: Witness, c: nat, b: B.State, env: B.Env, d: nat, k: Kind, m: Packet, nums: seq<int>)
    returns (v: Witness)
    requires Reading(s, cfg, w, c, b, env) && RepOk(s, cfg, w, d, k, m) && c == Owner(cfg, m.name) && d < |b.components|
    requires Received(s.broker.open, m.objs, nums) && b.open == InstallAll(s.broker.open, m.objs, nums)
    ensures var r := B.OnMessage(b, d, m.action, m.kind, m.name, m.lbl, Padded(nums), env);
            Inv(Deliver(s.(broker := r.st, next := Next(env)), r.sent), cfg, v)
  {
    var r := B.OnMessage(b, d, m.action, m.kind, m.name, m.lbl, Padded(nums), env);
    Installed(s.broker.open, m.objs, nums);
    if |m.name| + |m.lbl| >= 256 {
      v := ReadDropped(s, cfg, w, c, b, env);
    } else {
      v := ReadReply(s, cfg, w, c, b, env, d, k, m, nums, r);
    }
  }

  /** What kind of token the packet is. */
  lemma TokenRead(s: System, cfg: seq<Node>, w: Witness, fd: int, nums: seq<int>, env: B.Env)
    requires Inv(s, cfg, w) && CanRead(s, fd, nums, env)
    ensures var o := s.broker.open[fd];
            var m := Queue(s, o)[0];
            var i := B.Dest(s.broker.components, fd);
            && o.End? && o.pair in w.role
            && match w.role[o.pair]
               case CompRole(c) => c == i && UpOk(s, w, i, m)
               case ServRole(d, k) => d == i && RepOk(s, cfg, w, i, k, m)
               case SessRole(_, _, _, _, _) => false
  {
    ReadOwner(s, cfg, w, fd);
    assert QueueOk(s, cfg, w, s.broker.open[fd]);
  }

  lemma StepRead(s: System, cfg: seq<Node>, w: Witness, fd: int, nums: seq<int>, env: B.Env) returns (v: Witness)
    requires Inv(s, cfg, w) && CanRead(s, fd, nums, env)
    ensures Inv(AfterRead(s, fd, nums, env), cfg, v)
  {
    TokenRead(s, cfg, w, fd, nums, env);
    var c, b := BeginRead(s, cfg, w, fd, nums, env);
    var o := s.broker.open[fd];
    v := Handle(s, Pop(s, o), cfg, w, c, b, env, B.Dest(s.broker.components, fd), o, nums);
  }

  lemma Handle(s: System, u: System, cfg: seq<Node>, w: Witness, c: nat, b: B.State, env: B.Env, i: nat, o: Object, nums: seq<int>)
    returns (v: Witness)
    requires Queue(s, o) != [] && u == Pop(s, o) && Reading(u, cfg, w, c, b, env) && i < |cfg|
    requires o.End? && o.pair in w.role && c == TokenOf(cfg, w, o, Queue(s, o)[0])
    requires match w.role[o.pair]
             case CompRole(e) => e == i && UpOk(s, w, i, Queue(s, o)[0])
             case ServRole(d, k) => d == i && RepOk(s, cfg, w, i, k, Queue(s, o)[0])
             case SessRole(_, _, _, _, _) => false
    requires Valid(b.components[i].fd)
    requires Received(s.broker.open, Queue(s, o)[0].objs, nums) && b.open == InstallAll(s.broker.open, Queue(s, o)[0].objs, nums)
    ensures var m := Queue(s, o)[0];
            var r := B.OnMessage(b, i, m.action, m.kind, m.name, m.lbl, Padded(nums), env);
            Inv(Deliver(u.(broker := r.st, next := Next(env)), r.sent), cfg, v)
  {
    var m := Queue(s, o)[0];
    if w.role[o.pair].CompRole? {
      v := ReadUp(u, cfg, w, i, b, env, m, nums);
    } else {
      v := ReadDown(u, cfg, w, c, b, env, i, w.role[o.pair].k, m, nums);
    }
  }

  /** Every step keeps the invariant, with a new witness. */
  lemma StepKeeps(s: System, cfg: seq<Node>, w: Witness, step: Step) returns (v: Witness)
    requires Inv(s, cfg, w) && Enabled(s, step)
    ensures Inv(Exec(s, step), cfg, v)
  {
    match step
    case Initialize(i, kind, lbl) => v := StepInitialize(s, cfg, w, i, kind, lbl);
    case Register(i, kind) => v := StepRegister(s, cfg, w, i, kind);
    case Return(i) => v := StepReturn(s, cfg, w, i);
    case Dispatch(i, kind) => v := StepDispatch(s, cfg, w, i, kind);
    case Accept(i) => v := StepAccept(s, cfg, w, i);
    case Finish(i) => v := StepFinish(s, cfg, w, i);
    case Disconnect(i, c) => v := w; NoChange(s, cfg, w, Exec(s, step), i);
    case Cleanup(i, x) => v := w; StepCleanup(s, cfg, w, i, x);
    case Die(i) => v := w; NoChange(s, cfg, w, Exec(s, step), i);
    case Read(fd, nums, env) => v := StepRead(s, cfg, w, fd, nums, env);
    case Hangup(i) => v := w; StepHangup(s, cfg, w, i);
  }

  lemma StartHolds(s: System, cfg: seq<Node>) returns (w: Witness)
    requires Start(s, cfg) && DistinctNames(cfg)
    ensures Inv(s, cfg, w)
  {
    var role := StartRoles(s, cfg);
    w := Witness(role, seq(|cfg|, _ => Nowhere), s.broker.resources);
    forall i | 0 <= i < |cfg| ensures CompOk(s, cfg, w, i) && ProcOk(s, cfg, w, i) { assert Started(s, cfg, i); }
    forall p | p in w.role ensures RoleOk(s, cfg, w, p) {
      assert Started(s, cfg, w.role[p].i);
    }
  }

  /** Every started component's pair has its role, and no other pair has one. */
  lemma StartRoles(s: System, cfg: seq<Node>) returns (role: map<nat, Role>)
    requires Start(s, cfg)
    ensures forall i :: 0 <= i < |cfg| && s.procs[i].alive ==>
              s.procs[i].sock.End? && s.procs[i].sock.pair in role && role[s.procs[i].sock.pair] == CompRole(i)
    ensures forall p :: p in role ==>
              role[p].CompRole? && role[p].i < |cfg| && s.procs[role[p].i].alive && s.procs[role[p].i].sock == End(p, true)
  {
    forall i | 0 <= i < |cfg| ensures s.procs[i].sock.End? && (s.procs[i].alive ==> s.procs[i].sock.second) { assert Started(s, cfg, i); }
    var live := set i | 0 <= i < |cfg| && s.procs[i].alive;
    var pairs := set i | i in live :: s.procs[i].sock.pair;
    role := map p: nat | p in pairs :: (var i: nat :| i in live && s.procs[i].sock.pair == p; CompRole(i));
    forall i | i in live ensures s.procs[i].sock.pair in role && role[s.procs[i].sock.pair] == CompRole(i) {
      assert s.procs[i].sock.pair in pairs;
      forall j | j in live && s.procs[j].sock.pair == s.procs[i].sock.pair ensures j == i { }
    }
  }

  lemma {:induction false} RunKeeps(cfg: seq<Node>, states: seq<System>, steps: seq<Step>, t: nat) returns (w: Witness)
    requires Run(cfg, states, steps) && DistinctNames(cfg) && t < |states|
    ensures Inv(states[t], cfg, w)
  {
    if t == 0 {
      w := StartHolds(states[0], cfg);
    } else {
      var v := RunKeeps(cfg, states, steps, t - 1);
      assert states[t - 1 + 1] == Exec(states[t - 1], steps[t - 1]);
      w := StepKeeps(states[t - 1], cfg, v, steps[t - 1]);
    }
  }

  /** Main theorem.  In every state of every run, a descriptor that a client got
      from `Initialize` is the peer of one held by a server session that was
      made for this client, kind and label, at the component that the client's
      own configuration names.  For memory sessions both sides have the same
      memory. */
  lemma SessionsFollowConfiguration(cfg: seq<Node>, states: seq<System>, steps: seq<Step>, t: nat, c: nat, x: ClientSession)
    returns (d: nat)
    requires Run(cfg, states, steps) && DistinctNames(cfg) && t < |states|
    requires c < |states[t].procs| && x in states[t].procs[c].clients
    ensures Configured(cfg, c, x.kind, x.lbl, d) && d < |states[t].procs|
    ensures Named(cfg[c]) && x.end.End?
    ensures ServerSession(x.kind, NameOf(cfg[c]), x.lbl, Peer(x.end), x.mem) in states[t].procs[d].servers
    ensures x.kind == Memory ==> |x.mem| == 1 && x.mem[0].Memfd?
  {
    var w := RunKeeps(cfg, states, steps, t);
    assert ProcOk(states[t], cfg, w, c);
    assert ClientOk(states[t], cfg, w, c, x);
    assert RoleOk(states[t], cfg, w, x.end.pair);
    d := w.role[x.end.pair].d;
  }

  /** No two sessions share a descriptor: an end belongs to one client session
      or to one server session of one component. */
  lemma SessionsAreExclusive(cfg: seq<Node>, states: seq<System>, steps: seq<Step>, t: nat, a: nat, b: nat)
    requires Run(cfg, states, steps) && DistinctNames(cfg) && t < |states|
    requires a < |states[t].procs| && b < |states[t].procs|
    ensures forall x, y :: x in states[t].procs[a].clients && y in states[t].procs[b].clients && x.end == y.end ==> a == b && x == y
    ensures forall x, y :: x in states[t].procs[a].servers && y in states[t].procs[b].servers && x.end == y.end ==> a == b && x == y
    ensures forall x, y :: x in states[t].procs[a].clients && y in states[t].procs[b].servers ==> x.end != y.end
  {
    var w := RunKeeps(cfg, states, steps, t);
    var s := states[t];
    assert ProcOk(s, cfg, w, a) && ProcOk(s, cfg, w, b);
    forall x | x in s.procs[a].clients ensures ClientOk(s, cfg, w, a, x) { }
    forall x | x in s.procs[b].clients ensures ClientOk(s, cfg, w, b, x) { }
    forall x | x in s.procs[a].servers ensures ServerOk(cfg, w, a, x) { }
    forall x | x in s.procs[b].servers ensures ServerOk(cfg, w, b, x) { }
  }

  /** A packet in a client's socket is the only one, the client is blocked, and
      it answers what the client asked for. */
  lemma AnswersMatchRequests(cfg: seq<Node>, states: seq<System>, steps: seq<Step>, t: nat, c: nat)
    requires Run(cfg, states, steps) && DistinctNames(cfg) && t < |states|
    requires c < |states[t].procs| && states[t].procs[c].alive
    requires Queue(states[t], states[t].procs[c].sock) != []
    ensures var q, wait := Queue(states[t], states[t].procs[c].sock), states[t].procs[c].wait;
            && |q| == 1 && wait != Idle && q[0].kind == wait.kind
            && (q[0].action == Confirm || q[0].action == Reject)
            && (wait.Initializing? ==> q[0].lbl == wait.lbl)
  {
    var w := RunKeeps(cfg, states, steps, t);
    assert ProcOk(states[t], cfg, w, c);
    assert QueueOk(states[t], cfg, w, states[t].procs[c].sock);
  }

  /** The broker's resources are those it started with. */
  lemma {:induction false} ResourcesStay(cfg: seq<Node>, states: seq<System>, steps: seq<Step>, t: nat)
    requires Run(cfg, states, steps) && t < |states|
    ensures states[t].broker.resources == states[0].broker.resources
  {
    if t > 0 {
      ResourcesStay(cfg, states, steps, t - 1);
      StepKeepsResources(states[t - 1], steps[t - 1]);
      assert states[t - 1 + 1] == Exec(states[t - 1], steps[t - 1]);
    }
  }

  lemma StepKeepsResources(s: System, step: Step)
    requires Enabled(s, step)
    ensures Exec(s, step).broker.resources == s.broker.resources
  {
    if step.Read? {
      var o := s.broker.open[step.fd];
      var m := Queue(s, o)[0];
      var st := s.broker.(open := InstallAll(s.broker.open, m.objs, step.nums));
      var r := B.OnMessage(st, B.Dest(s.broker.components, step.fd), m.action, m.kind, m.name, m.lbl, Padded(step.nums), step.env);
      DeliverKeepsBroker(Pop(s, o).(broker := r.st, next := Next(step.env)), r.sent);
    }
  }

  lemma {:induction false} DeliverKeepsBroker(s: System, sent: seq<B.Sent>)
    ensures Deliver(s, sent).broker == s.broker
    decreases |sent|
  {
    if sent != [] {
      var m := sent[0];
      DeliverKeepsBroker(if m.fd in s.broker.open && s.broker.open[m.fd].End? then
                           Push(s, Peer(s.broker.open[m.fd]), Packet(m.action, m.kind, m.name, m.lbl, Objects(s.broker.open, m.fds)))
                         else s, sent[1..]);
    }
  }

  /** In every run, what the broker opens for a client follows the client's own
      configuration: a confirmed Rom request carries the file of the resource
      that the chosen service entry names, a confirmed Timer request a timer. */
  lemma FilesFollowConfiguration(cfg: seq<Node>, states: seq<System>, steps: seq<Step>, t: nat, c: nat)
    requires Run(cfg, states, steps) && DistinctNames(cfg) && t < |states|
    requires c < |states[t].procs| && states[t].procs[c].alive && states[t].procs[c].wait.Initializing?
    requires var q := Queue(states[t], states[t].procs[c].sock); q != [] && q[0].action == Confirm
    ensures var m, wait := Queue(states[t], states[t].procs[c].sock)[0], states[t].procs[c].wait;
            |m.objs| == 1 && OpenedFor(cfg, states[0].broker.resources, c, wait.kind, wait.lbl, m.objs[0])
  {
    var w := RunKeeps(cfg, states, steps, t);
    ResourcesStay(cfg, states, steps, t);
    assert ProcOk(states[t], cfg, w, c);
    assert QueueOk(states[t], cfg, w, states[t].procs[c].sock);
  }

  /** A dispatcher only ever receives requests of components whose own
      configuration names it as their server for that kind and label. */
  lemma RequestsFollowConfiguration(cfg: seq<Node>, states: seq<System>, steps: seq<Step>, t: nat, d: nat, kind: Kind, i: nat)
    returns (c: nat)
    requires Run(cfg, states, steps) && DistinctNames(cfg) && t < |states|
    requires d < |states[t].procs| && kind in states[t].procs[d].disp
    requires i < |Queue(states[t], states[t].procs[d].disp[kind])|
    ensures var m := Queue(states[t], states[t].procs[d].disp[kind])[i];
            m.action == Request && m.kind == kind && HasName(cfg, c, m.name) && Configured(cfg, c, kind, m.lbl, d)
  {
    var s := states[t];
    var w := RunKeeps(cfg, states, steps, t);
    assert ProcOk(s, cfg, w, d);
    var o := s.procs[d].disp[kind];
    assert DispEnd(w, d, kind, o);
    assert QueueOk(s, cfg, w, o);
    var m := Queue(s, o)[i];
    assert ReqOk(s, cfg, w, d, kind, m, AtReq(d, kind));
    c := Owner(cfg, m.name);
    assert RoleOk(s, cfg, w, m.objs[0].pair);
  }
}
