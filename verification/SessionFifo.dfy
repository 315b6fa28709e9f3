/** Requests are neither lost, duplicated nor reordered on their way to a
    dispatcher, whether they are forwarded before or after it registers. */
module SessionFifo {
  import opened Basics
  import opened Protocol
  import opened Config
  import opened Session
  import opened SessionInvariant
  import opened SessionBroker
  import opened SessionRead
  import R = SessionTheorems
  import T = BrokerTheorems
  import B = Broker

  /** The broker's reaction in a `Read` step. */
  ghost function ReactionTo(s: System, fd: int, nums: seq<int>, env: B.Env): B.Reaction
    requires CanRead(s, fd, nums, env)
  {
    var m := Queue(s, s.broker.open[fd])[0];
    B.OnMessage(s.broker.(open := InstallAll(s.broker.open, m.objs, nums)), B.Dest(s.broker.components, fd),
                m.action, m.kind, m.name, m.lbl, Padded(nums), env)
  }

  /** What a step forwards to component `d` for `kind`: the packet that the
      broker writes to that service socket, if any. */
  ghost function Forwarded(s: System, step: Step, d: nat, kind: Kind): seq<Packet>
    requires Enabled(s, step)
  {
    match step
    case Read(fd, nums, env) => WrittenTo(ReactionTo(s, fd, nums, env), d, kind)
    case _ => []
  }

  ghost function WrittenTo(r: B.Reaction, d: nat, kind: Kind): seq<Packet> {
    if d < |r.st.components| && r.sent != [] && Valid(r.sent[0].fd) && r.sent[0].fd == r.st.components[d].serv[kind].broker
    then
      var x := r.sent[0];
      [Packet(x.action, x.kind, x.name, x.lbl, Objects(r.st.open, x.fds))]
    else []
  }

  /** What a step takes out of it: the request that `d`'s dispatcher reads. */
  ghost function Taken(s: System, step: Step, d: nat, kind: Kind): seq<Packet>
    requires Enabled(s, step)
  {
    if step == Dispatch(d, kind) then [Queue(s, s.procs[d].disp[kind])[0]] else []
  }

  /** What is in between. */
  ghost function Waiting(s: System, d: nat, kind: Kind): seq<Packet> {
    if d >= |s.broker.components| then []
    else
      var e := s.broker.components[d].serv[kind];
      if Valid(e.disp) && e.disp in s.broker.open then Queue(s, s.broker.open[e.disp]) else []
  }

  /* ---- Component steps ---- */

  /** A registered dispatcher reads the queue that the broker writes to. */
  lemma DispatcherQueue(s: System, cfg: seq<Node>, w: Witness, d: nat, kind: Kind)
    requires Inv(s, cfg, w) && d < |cfg| && kind in s.procs[d].disp
    ensures Waiting(s, d, kind) == Queue(s, s.procs[d].disp[kind])
    ensures Valid(s.broker.components[d].serv[kind].disp)
    ensures s.broker.components[d].serv[kind].disp in s.broker.open
    ensures s.broker.open[s.broker.components[d].serv[kind].disp] == s.procs[d].disp[kind]
  {
    assert ProcOk(s, cfg, w, d);
    var o := s.procs[d].disp[kind];
    assert DispEnd(w, d, kind, o);
    assert RoleOk(s, cfg, w, o.pair);
  }

  /** A queue that is not a service socket's dispatcher end does not matter. */
  lemma Untouched(s: System, cfg: seq<Node>, w: Witness, t: System, o: Object, d: nat, kind: Kind)
    requires Inv(s, cfg, w) && t.broker == s.broker
    requires forall u :: u != o ==> Queue(t, u) == Queue(s, u)
    requires o.End? ==> !o.second || (o.pair in w.role && w.role[o.pair] != ServRole(d, kind))
    ensures Waiting(t, d, kind) == Waiting(s, d, kind)
  {
    if d < |cfg| {
      assert ServOk(s.broker, w, d, kind);
    }
  }

  lemma ProcStep(s: System, cfg: seq<Node>, w: Witness, step: Step, d: nat, kind: Kind)
    requires Inv(s, cfg, w) && Enabled(s, step) && !step.Read? && !step.Hangup? && step != Dispatch(d, kind)
    ensures Waiting(Exec(s, step), d, kind) == Waiting(s, d, kind)
  {
    var t := Exec(s, step);
    match step
    case Initialize(i, k, lbl) => SocketStep(s, cfg, w, t, i, d, kind);
    case Register(i, k) => SocketStep(s, cfg, w, t, i, d, kind);
    case Return(i) => SocketStep(s, cfg, w, t, i, d, kind);
    case Dispatch(i, k) =>
      assert ProcOk(s, cfg, w, i);
      assert DispEnd(w, i, k, s.procs[i].disp[k]);
      Untouched(s, cfg, w, t, s.procs[i].disp[k], d, kind);
    case Accept(i) => AnswerStep(s, cfg, w, t, i, d, kind);
    case Finish(i) => AnswerStep(s, cfg, w, t, i, d, kind);
    case Disconnect(_, _) => Untouched(s, cfg, w, t, Memfd(0), d, kind);
    case Cleanup(_, _) => Untouched(s, cfg, w, t, Memfd(0), d, kind);
    case Die(_) => Untouched(s, cfg, w, t, Memfd(0), d, kind);
    case Read(_, _, _) =>
    case Hangup(_) =>
  }

  /** Only a component's own socket is touched. */
  lemma SocketStep(s: System, cfg: seq<Node>, w: Witness, t: System, i: nat, d: nat, kind: Kind)
    requires Inv(s, cfg, w) && t.broker == s.broker && i < |cfg| && s.procs[i].alive
    requires s.procs[i].sock.End? ==> forall u :: u != s.procs[i].sock && u != Peer(s.procs[i].sock) ==> Queue(t, u) == Queue(s, u)
    ensures Waiting(t, d, kind) == Waiting(s, d, kind)
  {
    assert ProcOk(s, cfg, w, i);
    if d < |cfg| { assert ServOk(s.broker, w, d, kind); }
  }

  /** Only the broker's end of a service socket is touched. */
  lemma AnswerStep(s: System, cfg: seq<Node>, w: Witness, t: System, i: nat, d: nat, kind: Kind)
    requires Inv(s, cfg, w) && t.broker == s.broker && i < |cfg| && s.procs[i].handling.Handling?
    requires s.procs[i].handling.kind in s.procs[i].disp && s.procs[i].disp[s.procs[i].handling.kind].End?
    requires forall u :: u != Peer(s.procs[i].disp[s.procs[i].handling.kind]) ==> Queue(t, u) == Queue(s, u)
    ensures Waiting(t, d, kind) == Waiting(s, d, kind)
  {
    assert ProcOk(s, cfg, w, i);
    assert DispEnd(w, i, s.procs[i].handling.kind, s.procs[i].disp[s.procs[i].handling.kind]);
    Untouched(s, cfg, w, t, Peer(s.procs[i].disp[s.procs[i].handling.kind]), d, kind);
  }

  lemma HangupStep(s: System, cfg: seq<Node>, w: Witness, i: nat, d: nat, kind: Kind)
    requires Inv(s, cfg, w) && Enabled(s, Hangup(i))
    ensures Waiting(Exec(s, Hangup(i)), d, kind) == Waiting(s, d, kind)
  {
    assert CompOk(s, cfg, w, i);
    if d < |cfg| {
      assert ServOk(s.broker, w, d, kind);
      ClosedSocket(s, cfg, w, i, d, kind);
    }
  }

  /** A component's own socket is no dispatcher's end. */
  lemma ClosedSocket(s: System, cfg: seq<Node>, w: Witness, i: nat, d: nat, kind: Kind)
    requires Sizes(s, cfg, w) && i < |cfg| && d < |cfg| && Valid(s.broker.components[i].fd)
    requires CompOk(s, cfg, w, i) && ServOk(s.broker, w, d, kind)
    ensures Waiting(s.(broker := B.OnExit(s.broker, i)), d, kind) == Waiting(s, d, kind)
  {
    var e, t := s.broker.components[d].serv[kind], B.OnExit(s.broker, i);
    assert t.components[d].serv[kind] == e;
    if Valid(e.disp) { assert e.disp != s.broker.components[i].fd; }
  }

  lemma DispatchStep(s: System, cfg: seq<Node>, w: Witness, d: nat, kind: Kind)
    requires Inv(s, cfg, w) && Enabled(s, Dispatch(d, kind))
    ensures Waiting(s, d, kind) == Taken(s, Dispatch(d, kind), d, kind) + Waiting(Exec(s, Dispatch(d, kind)), d, kind)
  {
    DispatcherQueue(s, cfg, w, d, kind);
  }

  /* ---- Broker steps ---- */

  /** The session invariant implies what the broker's own theorems need. */
  lemma BrokerFacts(s: System, cfg: seq<Node>, w: Witness, fd: int, nums: seq<int>, env: B.Env, b: B.State)
    requires Inv(s, cfg, w) && CanRead(s, fd, nums, env)
    requires b == s.broker.(open := InstallAll(s.broker.open, Queue(s, s.broker.open[fd])[0].objs, nums))
    ensures T.Complete(b) && T.Loose(b, Padded(nums)) && Extends(s.broker.open, b.open)
  {
    var objs := Queue(s, s.broker.open[fd])[0].objs;
    Installed(s.broker.open, objs, nums);
    forall i | 0 <= i < |cfg| && Valid(b.components[i].fd) ensures b.components[i].node.At? && b.components[i].node.node.Element? {
      assert CompOk(s, cfg, w, i);
    }
    forall i, k | 0 <= i < |cfg| ensures T.EntryOk(b.components[i].serv[k]) { assert ServOk(s.broker, w, i, k); }
    forall x ensures Valid(T.FdAt(b.components, x)) ==> T.FdAt(b.components, x) in s.broker.open {
      if x.i < |cfg| {
        assert CompOk(s, cfg, w, x.i);
        if !x.CompSlot? { assert ServOk(s.broker, w, x.i, x.k); }
      }
    }
  }

  /** Where the broker's packet arrives: in `d`'s service queue exactly if it
      was written to `d`'s service socket. */
  lemma Delivered(u: System, cfg: seq<Node>, v: Witness, r: B.Reaction, slot: T.Slot, d: nat, kind: Kind)
    requires Sizes(u, cfg, v) && u.broker == r.st && d < |cfg| && |r.sent| <= 1
    requires r.sent != [] ==> T.Target(r.st.components, r.sent[0], slot)
    requires forall i :: 0 <= i < |cfg| ==> CompOk(u, cfg, v, i)
    requires forall e, k :: 0 <= e < |cfg| ==> ServOk(u.broker, v, e, k)
    ensures Waiting(Deliver(u, r.sent), d, kind) == Waiting(u, d, kind) + WrittenTo(r, d, kind)
  {
    assert ServOk(u.broker, v, d, kind);
    if r.sent != [] {
      var x := r.sent[0];
      assert r.sent == [x] && r.sent[1..] == [];
      if slot.CompSlot? {
        assert CompOk(u, cfg, v, slot.i);
      } else {
        assert ServOk(u.broker, v, slot.i, slot.k);
      }
      var o := Peer(u.broker.open[x.fd]);
      var m := Packet(x.action, x.kind, x.name, x.lbl, Objects(u.broker.open, x.fds));
      assert Deliver(u, r.sent) == Push(u, o, m);
    } else {
      assert Deliver(u, r.sent) == u;
    }
  }

  /** `Deliver` changes nothing but queues. */
  lemma {:induction false} DeliverQueues(s: System, sent: seq<B.Sent>)
    ensures Deliver(s, sent) == s.(queues := Deliver(s, sent).queues)
    decreases |sent|
  {
    if sent != [] {
      var m := sent[0];
      var s1 :=
        if m.fd in s.broker.open && s.broker.open[m.fd].End? then
          Push(s, Peer(s.broker.open[m.fd]), Packet(m.action, m.kind, m.name, m.lbl, Objects(s.broker.open, m.fds)))
        else s;
      DeliverQueues(s1, sent[1..]);
    }
  }

  /** Handling a packet leaves an existing service socket alone; a new one has
      an empty queue. */
  lemma ServiceQueueKept(s: System, cfg: seq<Node>, w: Witness, fd: int, nums: seq<int>, env: B.Env, u: System, d: nat, kind: Kind)
    requires Inv(s, cfg, w) && CanRead(s, fd, nums, env) && d < |cfg|
    requires u == Pop(s, s.broker.open[fd]).(broker := ReactionTo(s, fd, nums, env).st, next := Next(env))
    requires T.Complete(u.broker)
    ensures Waiting(u, d, kind) == Waiting(s, d, kind)
  {
    var m := Queue(s, s.broker.open[fd])[0];
    var b := s.broker.(open := InstallAll(s.broker.open, m.objs, nums));
    ReadOwner(s, cfg, w, fd);
    BrokerFacts(s, cfg, w, fd, nums, env, b);
    assert ServOk(s.broker, w, d, kind);
    if Valid(s.broker.components[d].serv[kind].broker) {
      T.MessageKeepsService(b, B.Dest(s.broker.components, fd), m.action, m.kind, m.name, m.lbl, Padded(nums), env, d, kind);
      HeldQueue(s, w, b, s.broker.open[fd], u, d, kind);
    } else {
      T.MessageNewEnd(b, B.Dest(s.broker.components, fd), m.action, m.kind, m.name, m.lbl, Padded(nums), env, d, kind);
      NoSuchQueue(s, cfg, w, End(env.servId, true));
      NewQueue(s, w, b, s.broker.open[fd], u, env, d, kind);
    }
  }

  lemma HeldQueue(s: System, w: Witness, b: B.State, o: Object, u: System, d: nat, kind: Kind)
    requires d < |s.broker.components| && ServOk(s.broker, w, d, kind) && Valid(s.broker.components[d].serv[kind].broker)
    requires b == s.broker.(open := b.open) && Extends(s.broker.open, b.open)
    requires T.SameService(b, u.broker, d, kind)
    requires Queue(s, o) != [] && u == Pop(s, o).(broker := u.broker, next := u.next) && o.End? && !o.second
    ensures Waiting(u, d, kind) == Waiting(s, d, kind)
  {
  }

  lemma NewQueue(s: System, w: Witness, b: B.State, o: Object, u: System, env: B.Env, d: nat, kind: Kind)
    requires d < |s.broker.components| && ServOk(s.broker, w, d, kind) && !Valid(s.broker.components[d].serv[kind].broker)
    requires b == s.broker.(open := b.open) && T.NewEnd(b, u.broker, env, d, kind)
    requires Queue(s, o) != [] && u == Pop(s, o).(broker := u.broker, next := u.next) && o.End? && !o.second
    requires T.Complete(u.broker) && Queue(s, End(env.servId, true)) == [] && |u.broker.components| == |s.broker.components|
    ensures Waiting(u, d, kind) == Waiting(s, d, kind)
  {
    assert T.EntryOk(u.broker.components[d].serv[kind]);
  }

  /** Nothing is queued at a pair that does not exist yet. */
  lemma NoSuchQueue(s: System, cfg: seq<Node>, w: Witness, o: Object)
    requires Inv(s, cfg, w) && o.End? && s.next <= o.pair
    ensures Queue(s, o) == []
  {
    assert QueueOk(s, cfg, w, o);
    forall p | p in w.role ensures p < s.next { assert RoleOk(s, cfg, w, p); }
  }

  lemma ReadStep(s: System, cfg: seq<Node>, w: Witness, fd: int, nums: seq<int>, env: B.Env, v: Witness, d: nat, kind: Kind)
    requires Inv(s, cfg, w) && CanRead(s, fd, nums, env) && d < |cfg|
    requires Inv(AfterRead(s, fd, nums, env), cfg, v)
    ensures Waiting(AfterRead(s, fd, nums, env), d, kind) == Waiting(s, d, kind) + WrittenTo(ReactionTo(s, fd, nums, env), d, kind)
  {
    var r := ReactionTo(s, fd, nums, env);
    var u := Pop(s, s.broker.open[fd]).(broker := r.st, next := Next(env));
    var t := AfterRead(s, fd, nums, env);
    assert t == Deliver(u, r.sent);
    DeliverQueues(u, r.sent);
    TableBefore(u, t, cfg, v);
    var m := Queue(s, s.broker.open[fd])[0];
    var b := s.broker.(open := InstallAll(s.broker.open, m.objs, nums));
    BrokerFacts(s, cfg, w, fd, nums, env, b);
    var slot := T.SendsHaveTargets(b, B.Dest(s.broker.components, fd), m.action, m.kind, m.name, m.lbl, Padded(nums), env);
    ServiceQueueKept(s, cfg, w, fd, nums, env, u, d, kind);
    Delivered(u, cfg, v, r, slot, d, kind);
  }

  /** The table was the same just before the packet was delivered. */
  lemma TableBefore(u: System, t: System, cfg: seq<Node>, v: Witness)
    requires Inv(t, cfg, v) && t == u.(queues := t.queues)
    ensures Sizes(u, cfg, v) && T.Complete(u.broker)
    ensures forall i :: 0 <= i < |cfg| ==> CompOk(u, cfg, v, i)
    ensures forall e, k :: 0 <= e < |cfg| ==> ServOk(u.broker, v, e, k)
  {
    forall i | 0 <= i < |cfg| ensures CompOk(u, cfg, v, i) { assert CompOk(t, cfg, v, i); }
    forall i | 0 <= i < |cfg| && Valid(u.broker.components[i].fd) ensures u.broker.components[i].node.At? && u.broker.components[i].node.node.Element? {
      assert CompOk(t, cfg, v, i);
    }
    forall i, k | 0 <= i < |cfg| ensures T.EntryOk(u.broker.components[i].serv[k]) { assert ServOk(t.broker, v, i, k); }
  }

  /* ---- Whole runs ---- */

  /** What goes in comes out, or is waiting. */
  lemma StepConserves(s: System, cfg: seq<Node>, w: Witness, step: Step, d: nat, kind: Kind)
    requires Inv(s, cfg, w) && Enabled(s, step) && d < |cfg|
    ensures Waiting(s, d, kind) + Forwarded(s, step, d, kind) == Taken(s, step, d, kind) + Waiting(Exec(s, step), d, kind)
  {
    if step.Read? {
      var v := R.StepRead(s, cfg, w, step.fd, step.nums, step.env);
      ReadStep(s, cfg, w, step.fd, step.nums, step.env, v, d, kind);
    } else if step.Hangup? {
      HangupStep(s, cfg, w, step.i, d, kind);
    } else if step == Dispatch(d, kind) {
      DispatchStep(s, cfg, w, d, kind);
    } else {
      ProcStep(s, cfg, w, step, d, kind);
    }
  }

  /** All requests forwarded to `d` for `kind` in the first `t` steps. */
  ghost function AllForwarded(states: seq<System>, steps: seq<Step>, t: nat, d: nat, kind: Kind): seq<Packet>
    requires t <= |steps| && Steps(states, steps)
  {
    if t == 0 then [] else AllForwarded(states, steps, t - 1, d, kind) + Forwarded(states[t - 1], steps[t - 1], d, kind)
  }

  /** All requests that `d`'s dispatcher for `kind` read in these steps. */
  ghost function AllTaken(states: seq<System>, steps: seq<Step>, t: nat, d: nat, kind: Kind): seq<Packet>
    requires t <= |steps| && Steps(states, steps)
  {
    if t == 0 then [] else AllTaken(states, steps, t - 1, d, kind) + Taken(states[t - 1], steps[t - 1], d, kind)
  }

  /** `states` and `steps` fit together. */
  ghost predicate Steps(states: seq<System>, steps: seq<Step>) {
    |steps| < |states| && forall i :: 0 <= i < |steps| ==> Enabled(states[i], steps[i])
  }

  /** In every run, the requests that the broker forwarded to a component for a
      kind are exactly those its dispatcher has read, followed by those that
      wait in the queue it reads: in order, none lost, none twice, however the
      registration is interleaved with them. */
  lemma {:induction false} RequestsAreNotLost(cfg: seq<Node>, states: seq<System>, steps: seq<Step>, t: nat, d: nat, kind: Kind)
    requires Run(cfg, states, steps) && DistinctNames(cfg) && t <= |steps| && d < |cfg|
    ensures AllForwarded(states, steps, t, d, kind) == AllTaken(states, steps, t, d, kind) + Waiting(states[t], d, kind)
    ensures |states[t].procs| == |cfg|
    ensures kind in states[t].procs[d].disp ==> Waiting(states[t], d, kind) == Queue(states[t], states[t].procs[d].disp[kind])
  {
    ReadsWhatIsWritten(cfg, states, steps, t, d, kind);
    if t > 0 {
      RequestsAreNotLost(cfg, states, steps, t - 1, d, kind);
      RunConserves(cfg, states, steps, t - 1, d, kind);
      Conserved(AllForwarded(states, steps, t - 1, d, kind), AllTaken(states, steps, t - 1, d, kind), Waiting(states[t - 1], d, kind),
                Forwarded(states[t - 1], steps[t - 1], d, kind), Taken(states[t - 1], steps[t - 1], d, kind), Waiting(states[t], d, kind));
    }
  }

  lemma Conserved(forwarded: seq<Packet>, taken: seq<Packet>, waiting: seq<Packet>, more: seq<Packet>, out: seq<Packet>, after: seq<Packet>)
    requires forwarded == taken + waiting && waiting + more == out + after
    ensures forwarded + more == (taken + out) + after
  {
    assert forwarded + more == taken + (waiting + more);
    assert (taken + out) + after == taken + (out + after);
  }

  lemma RunConserves(cfg: seq<Node>, states: seq<System>, steps: seq<Step>, t: nat, d: nat, kind: Kind)
    requires Run(cfg, states, steps) && DistinctNames(cfg) && t < |steps| && d < |cfg|
    ensures Waiting(states[t], d, kind) + Forwarded(states[t], steps[t], d, kind)
         == Taken(states[t], steps[t], d, kind) + Waiting(states[t + 1], d, kind)
  {
    var w := R.RunKeeps(cfg, states, steps, t);
    StepConserves(states[t], cfg, w, steps[t], d, kind);
  }

  lemma ReadsWhatIsWritten(cfg: seq<Node>, states: seq<System>, steps: seq<Step>, t: nat, d: nat, kind: Kind)
    requires Run(cfg, states, steps) && DistinctNames(cfg) && t <= |steps| && d < |cfg|
    ensures |states[t].procs| == |cfg|
    ensures kind in states[t].procs[d].disp ==> Waiting(states[t], d, kind) == Queue(states[t], states[t].procs[d].disp[kind])
    ensures t == 0 ==> Waiting(states[t], d, kind) == []
  {
    var w := R.RunKeeps(cfg, states, steps, t);
    if kind in states[t].procs[d].disp { DispatcherQueue(states[t], cfg, w, d, kind); }
  }
}
