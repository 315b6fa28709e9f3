/** What arrives, and what it leads to: the steps by which an answer reaches the
    process that asked, in every run. */
module SessionAnswers {
  import opened Basics
  import opened Protocol
  import opened Config
  import opened Session
  import opened SessionInvariant
  import opened SessionRead
  import R = SessionTheorems
  import F = SessionFifo
  import A = BrokerAnswers
  import B = Broker

  /* ---- A blocked call returns ---- */

  /** In every run a blocked call returns with what its answer says. `Initialize`
      gets one session more exactly for a Confirm of a Message, Log or Memory
      session: with the kind and label asked for, the descriptor that came, and
      the client's own memory. `Register` gets the dispatcher's descriptor
      exactly for a Confirm. */
  lemma ReturnGives(cfg: seq<Node>, states: seq<System>, steps: seq<Step>, t: nat, c: nat)
    requires Run(cfg, states, steps) && DistinctNames(cfg) && t < |steps| && steps[t] == Return(c)
    ensures c < |states[t].procs| == |states[t + 1].procs| && Queue(states[t], states[t].procs[c].sock) != []
    ensures var p, q := states[t].procs[c], states[t + 1].procs[c];
            var m := Queue(states[t], p.sock)[0];
            && p.wait != Idle && q.wait == Idle && m.kind == p.wait.kind
            && (if p.wait.Initializing? && m.action == Confirm && SessionKind(m.kind)
                then |m.objs| == 1 && q.clients == p.clients + {ClientSession(p.wait.kind, p.wait.lbl, m.objs[0], p.wait.mem)}
                else q.clients == p.clients)
            && (if p.wait.Registering? && m.action == Confirm
                then |m.objs| == 1 && q.disp == p.disp[p.wait.kind := m.objs[0]]
                else q.disp == p.disp)
    ensures forall j :: 0 <= j < |states[t].procs| && j != c ==> states[t + 1].procs[j] == states[t].procs[j]
  {
    var s := states[t];
    var w := R.RunKeeps(cfg, states, steps, t);
    assert Enabled(s, steps[t]) && states[t + 1] == Exec(s, steps[t]);
    assert ProcOk(s, cfg, w, c);
    assert QueueOk(s, cfg, w, s.procs[c].sock);
  }

  /* ---- The broker passes an answer on ---- */

  /** What a packet that the broker writes becomes. */
  lemma DeliverOne(u: System, x: B.Sent)
    requires x.fd in u.broker.open && u.broker.open[x.fd].End?
    ensures var t, o := Deliver(u, [x]), Peer(u.broker.open[x.fd]);
            && t == u.(queues := t.queues)
            && Queue(t, o) == Queue(u, o) + [Packet(x.action, x.kind, x.name, x.lbl, Objects(u.broker.open, x.fds))]
            && forall q :: q != o ==> Queue(t, q) == Queue(u, q)
  {
    assert [x][1..] == [];
    var p := Packet(x.action, x.kind, x.name, x.lbl, Objects(u.broker.open, x.fds));
    assert Deliver(u, [x]) == Push(u, Peer(u.broker.open[x.fd]), p);
  }

  lemma ReadDelivers(s: System, fd: int, nums: seq<int>, env: B.Env, x: B.Sent)
    requires CanRead(s, fd, nums, env)
    requires var r := F.ReactionTo(s, fd, nums, env); r.sent == [x] && x.fd in r.st.open && r.st.open[x.fd].End?
    ensures var r, t, u := F.ReactionTo(s, fd, nums, env), AfterRead(s, fd, nums, env), Pop(s, s.broker.open[fd]);
            var o := Peer(r.st.open[x.fd]);
            && t == s.(broker := r.st, next := Next(env), queues := t.queues)
            && Queue(t, o) == Queue(u, o) + [Packet(x.action, x.kind, x.name, x.lbl, Objects(r.st.open, x.fds))]
            && forall q :: q != o ==> Queue(t, q) == Queue(u, q)
  {
    var r, u := F.ReactionTo(s, fd, nums, env), Pop(s, s.broker.open[fd]);
    DeliverOne(u.(broker := r.st, next := Next(env)), x);
  }

  /** The component with a name is the first running one that is found under it. */
  lemma OwnIsFirst(s: System, cfg: seq<Node>, w: Witness, c: nat)
    requires Inv(s, cfg, w) && c < |cfg| && Valid(s.broker.components[c].fd) && Named(cfg[c]) && NameOf(cfg[c]) != []
    ensures A.FirstLive(s.broker.components, NameOf(cfg[c]), c)
  {
    assert CompOk(s, cfg, w, c);
    forall j | 0 <= j < c ensures !B.LiveNamed(s.broker.components[j], NameOf(cfg[c])) {
      assert CompOk(s, cfg, w, j);
    }
  }

  lemma EmptyNameIsNobody(s: System)
    ensures A.NobodyLive(s.broker.components, "")
  {
  }

  /** One descriptor that came with a packet. */
  lemma OneObject(open: map<int, Object>, objs: seq<Object>, nums: seq<int>)
    requires |objs| == 1 && Received(open, objs, nums)
    ensures InstallAll(open, objs, nums) == open[nums[0] := objs[0]] && Extends(open, InstallAll(open, objs, nums))
    ensures Padded(nums)[0] == nums[0]
    ensures Objects(InstallAll(open, objs, nums), [nums[0]]) == objs
  {
    assert objs[1..] == [] && nums[1..] == [] && [nums[0]][1..] == [];
    var more := InstallAll(open, objs, nums);
    assert Objects(more, []) == [] && Objects(more, [nums[0]]) == [more[nums[0]]] + Objects(more, [nums[0]][1..]);
  }

  /** In every run a dispatcher's answer that the broker reads is a Confirm with
      one descriptor or a Reject with none, for a component that waits for it. If
      that component is running, has a nonempty name, and name and label are not
      too long, the answer then waits in its queue, alone and with the same
      descriptor. */
  lemma AnswerIsDelivered(cfg: seq<Node>, states: seq<System>, steps: seq<Step>, t: nat, fd: int, nums: seq<int>, env: B.Env)
    returns (c: nat)
    requires Run(cfg, states, steps) && DistinctNames(cfg) && t < |steps| && steps[t] == Read(fd, nums, env)
    requires CanRead(states[t], fd, nums, env)
    requires var m := Queue(states[t], states[t].broker.open[fd])[0]; SessionKind(m.kind) && (m.action == Confirm || m.action == Reject)
    ensures var m := Queue(states[t], states[t].broker.open[fd])[0];
            && HasName(cfg, c, m.name) && c < |states[t].procs| == |states[t + 1].procs| && c < |states[t].broker.components|
            && states[t].procs[c].wait.Initializing? && |m.objs| == (if m.action == Confirm then 1 else 0)
            && (Valid(states[t].broker.components[c].fd) && m.name != [] && |m.name| + |m.lbl| <= MaxText ==>
                  Queue(states[t + 1], states[t + 1].procs[c].sock) == [Packet(m.action, m.kind, "", m.lbl, m.objs)])
  {
    var s := states[t];
    var w := R.RunKeeps(cfg, states, steps, t);
    var v := R.RunKeeps(cfg, states, steps, t + 1);
    assert states[t + 1] == AfterRead(s, fd, nums, env);
    var m := Queue(s, s.broker.open[fd])[0];
    c := AnswerOwner(s, cfg, w, fd, nums, env);
    if Valid(s.broker.components[c].fd) && m.name != [] && |m.name| + |m.lbl| <= MaxText {
      AnswerWaits(s, cfg, w, v, fd, nums, env, c);
    }
  }

  lemma AnswerWaits(s: System, cfg: seq<Node>, w: Witness, v: Witness, fd: int, nums: seq<int>, env: B.Env, c: nat)
    requires Inv(s, cfg, w) && CanRead(s, fd, nums, env) && c < |cfg| && Valid(s.broker.components[c].fd)
    requires Inv(AfterRead(s, fd, nums, env), cfg, v)
    requires var m := Queue(s, s.broker.open[fd])[0];
             && SessionKind(m.kind) && (m.action == Confirm || m.action == Reject) && |m.objs| == (if m.action == Confirm then 1 else 0)
             && HasName(cfg, c, m.name) && m.name != [] && |m.name| + |m.lbl| <= MaxText
    ensures var m, t := Queue(s, s.broker.open[fd])[0], AfterRead(s, fd, nums, env);
            t.procs == s.procs && Queue(t, s.procs[c].sock) == [Packet(m.action, m.kind, "", m.lbl, m.objs)]
  {
    AnswerArrives(s, cfg, w, fd, nums, env, c);
    OnlyOne(AfterRead(s, fd, nums, env), cfg, v, c);
  }

  /** Whose answer it is. */
  lemma AnswerOwner(s: System, cfg: seq<Node>, w: Witness, fd: int, nums: seq<int>, env: B.Env) returns (c: nat)
    requires Inv(s, cfg, w) && CanRead(s, fd, nums, env)
    requires var m := Queue(s, s.broker.open[fd])[0]; m.action == Confirm || m.action == Reject
    ensures var m := Queue(s, s.broker.open[fd])[0];
            && HasName(cfg, c, m.name) && c < |cfg| && s.procs[c].wait.Initializing?
            && |m.objs| == (if m.action == Confirm then 1 else 0)
  {
    R.TokenRead(s, cfg, w, fd, nums, env);
    c := Owner(cfg, Queue(s, s.broker.open[fd])[0].name);
  }

  lemma AnswerArrives(s: System, cfg: seq<Node>, w: Witness, fd: int, nums: seq<int>, env: B.Env, c: nat)
    requires Inv(s, cfg, w) && CanRead(s, fd, nums, env) && c < |cfg| && Valid(s.broker.components[c].fd)
    requires var m := Queue(s, s.broker.open[fd])[0];
             && SessionKind(m.kind) && (m.action == Confirm || m.action == Reject) && |m.objs| == (if m.action == Confirm then 1 else 0)
             && HasName(cfg, c, m.name) && m.name != [] && |m.name| + |m.lbl| <= MaxText
    ensures var m, t := Queue(s, s.broker.open[fd])[0], AfterRead(s, fd, nums, env);
            && t.procs == s.procs && t.broker.components == s.broker.components
            && Packet(m.action, m.kind, "", m.lbl, m.objs) in Queue(t, s.procs[c].sock)
  {
    var m := Queue(s, s.broker.open[fd])[0];
    var more := InstallAll(s.broker.open, m.objs, nums);
    var st := s.broker.(open := more);
    var i := B.Dest(s.broker.components, fd);
    OwnIsFirst(s, cfg, w, c);
    assert CompOk(s, cfg, w, c);
    Installed(s.broker.open, m.objs, nums);
    if m.action == Confirm {
      OneObject(s.broker.open, m.objs, nums);
      A.ConfirmIsPassedOn(st, i, m.kind, m.name, m.lbl, Padded(nums), env, c);
      ReadDelivers(s, fd, nums, env, B.Sent(s.broker.components[c].fd, Confirm, m.kind, "", m.lbl, [nums[0]]));
    } else {
      A.RejectIsPassedOn(st, i, m.kind, m.name, m.lbl, Padded(nums), env, c);
      ReadDelivers(s, fd, nums, env, B.Sent(s.broker.components[c].fd, Reject, m.kind, "", m.lbl, []));
      assert Objects(more, []) == m.objs;
    }
  }

  /** A component's own queue never holds more than one packet. */
  lemma OnlyOne(s: System, cfg: seq<Node>, w: Witness, c: nat)
    requires Inv(s, cfg, w) && c < |cfg| && Valid(s.broker.components[c].fd)
    ensures s.procs[c].sock.End? && |Queue(s, s.procs[c].sock)| <= 1 && |Queue(s, Peer(s.procs[c].sock))| <= 1
  {
    assert CompOk(s, cfg, w, c);
    assert QueueOk(s, cfg, w, s.procs[c].sock) && QueueOk(s, cfg, w, Peer(s.procs[c].sock));
  }
}
