/** A dispatcher answers every request that it takes exactly once, in order. */
module SessionOnce {
  import opened Basics
  import opened Protocol
  import opened Config
  import opened Session
  import opened SessionInvariant
  import opened SessionRead
  import opened SessionFifo
  import R = SessionTheorems
  import T = BrokerTheorems
  import B = Broker

  /** The answers that wait for the broker at `d`'s service socket. */
  ghost function Replies(s: System, d: nat, kind: Kind): seq<Packet> {
    if d >= |s.broker.components| then []
    else
      var e := s.broker.components[d].serv[kind];
      if Valid(e.broker) && e.broker in s.broker.open then Queue(s, s.broker.open[e.broker]) else []
  }

  /** The answer that the broker reads there in this step. */
  ghost function ReplyRead(s: System, step: Step, d: nat, kind: Kind): seq<Packet>
    requires Enabled(s, step)
  {
    if step.Read? && d < |s.broker.components| && step.fd == s.broker.components[d].serv[kind].broker
    then [Queue(s, s.broker.open[step.fd])[0]] else []
  }

  /** The request that the dispatcher works on and has not answered. */
  ghost function InHands(s: System, d: nat, kind: Kind): seq<Packet> {
    if d >= |s.procs| then []
    else
      var h := s.procs[d].handling;
      if h.Handling? && h.kind == kind && !h.accepted then [h.request] else []
  }

  /** A Confirm with the client's end, or a Reject, under the same name and label. */
  predicate AnswerTo(request: Packet, answer: Packet) {
    && (answer.kind, answer.name, answer.lbl) == (request.kind, request.name, request.lbl)
    && |request.objs| > 0
    && ((answer.action == Confirm && answer.objs == [request.objs[0]]) || (answer.action == Reject && answer.objs == []))
  }

  /** What a step writes there. */
  ghost function ReplyWritten(s: System, step: Step, d: nat, kind: Kind): seq<Packet>
    requires Enabled(s, step)
  {
    if (step == Accept(d) || (step == Finish(d) && !s.procs[d].handling.accepted)) && s.procs[d].handling.kind == kind then
      var r := s.procs[d].handling.request;
      if step.Accept? then (if r.objs == [] then [] else [Packet(Confirm, kind, r.name, r.lbl, [r.objs[0]])])
      else [Packet(Reject, kind, r.name, r.lbl, [])]
    else []
  }

  /* ---- Component steps ---- */

  /** The broker's end of a service socket. */
  lemma ReplyEnd(s: System, cfg: seq<Node>, w: Witness, d: nat, kind: Kind)
    requires Inv(s, cfg, w) && d < |cfg|
    ensures var e := s.broker.components[d].serv[kind];
            if Valid(e.broker) then
              && e.broker in s.broker.open && s.broker.open[e.broker].End? && !s.broker.open[e.broker].second
              && s.broker.open[e.broker].pair in w.role && w.role[s.broker.open[e.broker].pair] == ServRole(d, kind)
              && Replies(s, d, kind) == Queue(s, s.broker.open[e.broker])
            else Replies(s, d, kind) == []
  {
    assert ServOk(s.broker, w, d, kind);
  }

  /** Only queues at other pairs, or at the other end, change. */
  lemma RepliesKept(s: System, cfg: seq<Node>, w: Witness, t: System, o: Object, d: nat, kind: Kind)
    requires Inv(s, cfg, w) && t.broker == s.broker && d < |cfg|
    requires forall u :: u != o ==> Queue(t, u) == Queue(s, u)
    requires o.End? ==> o.second || (o.pair in w.role && w.role[o.pair] != ServRole(d, kind))
    ensures Replies(t, d, kind) == Replies(s, d, kind)
  {
    ReplyEnd(s, cfg, w, d, kind);
  }

  lemma OwnPair(s: System, cfg: seq<Node>, w: Witness, i: nat)
    requires Inv(s, cfg, w) && i < |cfg| && s.procs[i].alive
    ensures var o := s.procs[i].sock; o.End? && o.pair in w.role && w.role[o.pair] == CompRole(i)
  {
    assert ProcOk(s, cfg, w, i);
  }

  lemma DispPair(s: System, cfg: seq<Node>, w: Witness, i: nat, k: Kind)
    requires Inv(s, cfg, w) && i < |cfg| && k in s.procs[i].disp
    ensures var o := s.procs[i].disp[k]; o.End? && o.second && o.pair in w.role && w.role[o.pair] == ServRole(i, k)
  {
    assert ProcOk(s, cfg, w, i);
    assert DispEnd(w, i, k, s.procs[i].disp[k]);
  }

  /** A step that answers nothing for `d` leaves the replies alone. */
  lemma QuietStep(s: System, cfg: seq<Node>, w: Witness, step: Step, d: nat, kind: Kind)
    requires Inv(s, cfg, w) && Enabled(s, step) && !step.Read? && !step.Hangup? && d < |cfg|
    requires !step.Accept? && !step.Finish?
    ensures Replies(Exec(s, step), d, kind) == Replies(s, d, kind)
  {
    var t := Exec(s, step);
    match step
    case Initialize(i, k, lbl) => OwnPair(s, cfg, w, i); RepliesKept(s, cfg, w, t, Peer(s.procs[i].sock), d, kind);
    case Register(i, k) => OwnPair(s, cfg, w, i); RepliesKept(s, cfg, w, t, Peer(s.procs[i].sock), d, kind);
    case Return(i) => OwnPair(s, cfg, w, i); RepliesKept(s, cfg, w, t, s.procs[i].sock, d, kind);
    case Dispatch(i, k) => DispPair(s, cfg, w, i, k); RepliesKept(s, cfg, w, t, s.procs[i].disp[k], d, kind);
    case Disconnect(_, _) => RepliesKept(s, cfg, w, t, Memfd(0), d, kind);
    case Cleanup(_, _) => RepliesKept(s, cfg, w, t, Memfd(0), d, kind);
    case Die(_) => RepliesKept(s, cfg, w, t, Memfd(0), d, kind);
    case Accept(_) =>
    case Finish(_) =>
    case Read(_, _, _) =>
    case Hangup(_) =>
  }

  /** The dispatcher writes to the end whose peer the broker holds. */
  lemma ReplySocket(s: System, cfg: seq<Node>, w: Witness, d: nat, kind: Kind)
    requires Inv(s, cfg, w) && d < |cfg| && kind in s.procs[d].disp
    ensures s.procs[d].disp[kind].End? && Replies(s, d, kind) == Queue(s, Peer(s.procs[d].disp[kind]))
    ensures var e := s.broker.components[d].serv[kind];
            Valid(e.broker) && e.broker in s.broker.open && s.broker.open[e.broker] == Peer(s.procs[d].disp[kind])
  {
    DispatcherQueue(s, cfg, w, d, kind);
    DispPair(s, cfg, w, d, kind);
    assert ServOk(s.broker, w, d, kind);
  }

  lemma AnswerStep(s: System, cfg: seq<Node>, w: Witness, step: Step, d: nat, kind: Kind)
    requires Inv(s, cfg, w) && Enabled(s, step) && (step.Accept? || step.Finish?) && d < |cfg|
    ensures Replies(Exec(s, step), d, kind) == Replies(s, d, kind) + ReplyWritten(s, step, d, kind)
  {
    var t, i := Exec(s, step), step.i;
    var k := s.procs[i].handling.kind;
    DispPair(s, cfg, w, i, k);
    if i == d && k == kind {
      ReplySocket(s, cfg, w, d, kind);
    } else {
      RepliesKept(s, cfg, w, t, Peer(s.procs[i].disp[k]), d, kind);
    }
  }

  /* ---- Broker steps ---- */

  lemma HangupKeeps(s: System, cfg: seq<Node>, w: Witness, i: nat, d: nat, kind: Kind)
    requires Inv(s, cfg, w) && Enabled(s, Hangup(i)) && d < |cfg|
    ensures Replies(Exec(s, Hangup(i)), d, kind) == Replies(s, d, kind)
  {
    assert CompOk(s, cfg, w, i) && ServOk(s.broker, w, d, kind);
    OwnClosed(s, cfg, w, i, d, kind);
  }

  lemma OwnClosed(s: System, cfg: seq<Node>, w: Witness, i: nat, d: nat, kind: Kind)
    requires Sizes(s, cfg, w) && i < |cfg| && d < |cfg| && Valid(s.broker.components[i].fd)
    requires CompOk(s, cfg, w, i) && ServOk(s.broker, w, d, kind)
    ensures Replies(s.(broker := B.OnExit(s.broker, i)), d, kind) == Replies(s, d, kind)
  {
    var e, t := s.broker.components[d].serv[kind], B.OnExit(s.broker, i);
    assert t.components[d].serv[kind] == e;
    if Valid(e.broker) { assert e.broker != s.broker.components[i].fd; }
  }

  /** Only the broker's own reading takes an answer out. */
  lemma ReadTakes(s: System, cfg: seq<Node>, w: Witness, fd: int, nums: seq<int>, env: B.Env, d: nat, kind: Kind)
    requires Inv(s, cfg, w) && CanRead(s, fd, nums, env) && d < |cfg| && Valid(s.broker.components[d].serv[kind].broker)
    ensures var e, o := s.broker.components[d].serv[kind], s.broker.open[fd];
            && e.broker in s.broker.open
            && (fd == e.broker ==> Queue(s, o) == Replies(s, d, kind))
            && (fd != e.broker ==> s.broker.open[e.broker] != o)
  {
    ReplyEnd(s, cfg, w, d, kind);
    ReadOwner(s, cfg, w, fd);
    var i, o := B.Dest(s.broker.components, fd), s.broker.open[fd];
    if fd != s.broker.components[d].serv[kind].broker && w.role[o.pair] == ServRole(d, kind) {
      ServiceFd(s, cfg, w, fd, d, kind);
    }
  }

  /** A service socket's pair is read under the one number in the table. */
  lemma ServiceFd(s: System, cfg: seq<Node>, w: Witness, fd: int, d: nat, kind: Kind)
    requires Inv(s, cfg, w) && Valid(fd) && fd in s.broker.open && s.broker.open[fd].End? && d < |cfg|
    requires B.Dest(s.broker.components, fd) < |cfg|
    requires s.broker.open[fd].pair in w.role && w.role[s.broker.open[fd].pair] == ServRole(d, kind)
    ensures fd == s.broker.components[d].serv[kind].broker
  {
    var i := B.Dest(s.broker.components, fd);
    assert CompOk(s, cfg, w, i);
    if s.broker.components[i].fd != fd {
      var k :| s.broker.components[i].serv[k].broker == fd;
      assert ServOk(s.broker, w, i, k);
    }
  }

  /** What the broker writes goes to the ends that others hold. */
  lemma WritesElsewhere(u: System, cfg: seq<Node>, v: Witness, r: B.Reaction, slot: T.Slot, o: Object)
    requires Sizes(u, cfg, v) && u.broker == r.st && |r.sent| <= 1 && o.End? && !o.second
    requires r.sent != [] ==> T.Target(r.st.components, r.sent[0], slot)
    requires forall i :: 0 <= i < |cfg| ==> CompOk(u, cfg, v, i)
    requires forall e, k :: 0 <= e < |cfg| ==> ServOk(u.broker, v, e, k)
    ensures Queue(Deliver(u, r.sent), o) == Queue(u, o)
  {
    if r.sent != [] {
      var x := r.sent[0];
      assert r.sent == [x] && r.sent[1..] == [];
      if slot.CompSlot? {
        assert CompOk(u, cfg, v, slot.i);
      } else {
        assert ServOk(u.broker, v, slot.i, slot.k);
      }
      assert Deliver(u, r.sent) == Push(u, Peer(u.broker.open[x.fd]), Packet(x.action, x.kind, x.name, x.lbl, Objects(u.broker.open, x.fds)));
    } else {
      assert Deliver(u, r.sent) == u;
    }
  }

  /** The socket afterwards is the one before, or new and empty. */
  lemma SameReplySocket(s: System, cfg: seq<Node>, w: Witness, fd: int, nums: seq<int>, env: B.Env, d: nat, kind: Kind)
    requires Inv(s, cfg, w) && CanRead(s, fd, nums, env) && d < |cfg|
    ensures var st, e := ReactionTo(s, fd, nums, env).st, s.broker.components[d].serv[kind];
            d < |st.components|
            && if Valid(e.broker) then st.components[d].serv[kind] == e && e.broker in st.open && e.broker in s.broker.open && st.open[e.broker] == s.broker.open[e.broker]
               else var f := st.components[d].serv[kind];
                    Valid(f.broker) ==> f.disp in st.open && st.open[f.disp] == End(env.servId, true)
  {
    var m := Queue(s, s.broker.open[fd])[0];
    var b := s.broker.(open := InstallAll(s.broker.open, m.objs, nums));
    ReadOwner(s, cfg, w, fd);
    BrokerFacts(s, cfg, w, fd, nums, env, b);
    assert ServOk(s.broker, w, d, kind);
    if Valid(s.broker.components[d].serv[kind].broker) {
      T.MessageKeepsService(b, B.Dest(s.broker.components, fd), m.action, m.kind, m.name, m.lbl, Padded(nums), env, d, kind);
    } else {
      T.MessageNewEnd(b, B.Dest(s.broker.components, fd), m.action, m.kind, m.name, m.lbl, Padded(nums), env, d, kind);
    }
  }

  lemma ReadReplies(s: System, cfg: seq<Node>, w: Witness, fd: int, nums: seq<int>, env: B.Env, v: Witness, d: nat, kind: Kind)
    requires Inv(s, cfg, w) && CanRead(s, fd, nums, env) && d < |cfg| && Inv(AfterRead(s, fd, nums, env), cfg, v)
    ensures ReplyRead(s, Read(fd, nums, env), d, kind) + Replies(AfterRead(s, fd, nums, env), d, kind) == Replies(s, d, kind)
  {
    AfterIs(s, fd, nums, env);
    ReplyEnd(s, cfg, w, d, kind);
    if Valid(s.broker.components[d].serv[kind].broker) {
      OldReplies(s, cfg, w, fd, nums, env, v, d, kind);
    } else {
      NewReplies(s, cfg, w, fd, nums, env, v, d, kind);
    }
  }

  lemma AfterIs(s: System, fd: int, nums: seq<int>, env: B.Env)
    requires CanRead(s, fd, nums, env)
    ensures var t := AfterRead(s, fd, nums, env); t.broker == ReactionTo(s, fd, nums, env).st && t.procs == s.procs
  {
    DeliverQueues(Pop(s, s.broker.open[fd]).(broker := ReactionTo(s, fd, nums, env).st, next := Next(env)), ReactionTo(s, fd, nums, env).sent);
  }

  lemma OldReplies(s: System, cfg: seq<Node>, w: Witness, fd: int, nums: seq<int>, env: B.Env, v: Witness, d: nat, kind: Kind)
    requires Inv(s, cfg, w) && CanRead(s, fd, nums, env) && d < |cfg| && Inv(AfterRead(s, fd, nums, env), cfg, v)
    requires Valid(s.broker.components[d].serv[kind].broker)
    ensures ReplyRead(s, Read(fd, nums, env), d, kind) + Replies(AfterRead(s, fd, nums, env), d, kind) == Replies(s, d, kind)
  {
    AfterIs(s, fd, nums, env);
    ReplyEnd(s, cfg, w, d, kind);
    SameReplySocket(s, cfg, w, fd, nums, env, d, kind);
    ReadTakes(s, cfg, w, fd, nums, env, d, kind);
    Undisturbed(s, cfg, w, fd, nums, env, v, s.broker.open[s.broker.components[d].serv[kind].broker]);
    Popped(s, fd, nums, env, AfterRead(s, fd, nums, env), d, kind);
  }

  lemma Popped(s: System, fd: int, nums: seq<int>, env: B.Env, t: System, d: nat, kind: Kind)
    requires CanRead(s, fd, nums, env) && d < |s.broker.components| && d < |t.broker.components|
    requires var e := s.broker.components[d].serv[kind];
             && Valid(e.broker) && e.broker in s.broker.open && e == t.broker.components[d].serv[kind] && e.broker in t.broker.open
             && t.broker.open[e.broker] == s.broker.open[e.broker]
             && Queue(t, s.broker.open[e.broker]) == Queue(Pop(s, s.broker.open[fd]), s.broker.open[e.broker])
             && (fd != e.broker ==> s.broker.open[e.broker] != s.broker.open[fd])
    ensures ReplyRead(s, Read(fd, nums, env), d, kind) + Replies(t, d, kind) == Replies(s, d, kind)
  {
    var q := Queue(s, s.broker.open[fd]);
    assert [q[0]] + q[1..] == q;
  }

  lemma NewReplies(s: System, cfg: seq<Node>, w: Witness, fd: int, nums: seq<int>, env: B.Env, v: Witness, d: nat, kind: Kind)
    requires Inv(s, cfg, w) && CanRead(s, fd, nums, env) && d < |cfg| && Inv(AfterRead(s, fd, nums, env), cfg, v)
    requires !Valid(s.broker.components[d].serv[kind].broker)
    ensures ReplyRead(s, Read(fd, nums, env), d, kind) + Replies(AfterRead(s, fd, nums, env), d, kind) == Replies(s, d, kind)
  {
    var t := AfterRead(s, fd, nums, env);
    AfterIs(s, fd, nums, env);
    ReplyEnd(s, cfg, w, d, kind);
    ReplyEnd(t, cfg, v, d, kind);
    SameReplySocket(s, cfg, w, fd, nums, env, d, kind);
    NoSuchQueue(s, cfg, w, End(env.servId, false));
    if Valid(t.broker.components[d].serv[kind].broker) {
      assert ServOk(t.broker, v, d, kind);
      Undisturbed(s, cfg, w, fd, nums, env, v, End(env.servId, false));
      PoppedOther(s, s.broker.open[fd], End(env.servId, false));
    }
  }

  lemma PoppedOther(s: System, o: Object, u: Object)
    requires Queue(s, o) != [] && Queue(s, u) == []
    ensures Queue(Pop(s, o), u) == []
  {
  }

  lemma Undisturbed(s: System, cfg: seq<Node>, w: Witness, fd: int, nums: seq<int>, env: B.Env, v: Witness, o: Object)
    requires Inv(s, cfg, w) && CanRead(s, fd, nums, env) && Inv(AfterRead(s, fd, nums, env), cfg, v) && o.End? && !o.second
    ensures Queue(AfterRead(s, fd, nums, env), o) == Queue(Pop(s, s.broker.open[fd]), o)
  {
    var r, t := ReactionTo(s, fd, nums, env), AfterRead(s, fd, nums, env);
    var u := Pop(s, s.broker.open[fd]).(broker := r.st, next := Next(env));
    DeliverQueues(u, r.sent);
    TableBefore(u, t, cfg, v);
    var m := Queue(s, s.broker.open[fd])[0];
    var b := s.broker.(open := InstallAll(s.broker.open, m.objs, nums));
    BrokerFacts(s, cfg, w, fd, nums, env, b);
    var slot := T.SendsHaveTargets(b, B.Dest(s.broker.components, fd), m.action, m.kind, m.name, m.lbl, Padded(nums), env);
    WritesElsewhere(u, cfg, v, r, slot, o);
  }

  /* ---- Whole runs ---- */

  /** What goes out and what stays are what was there and what was written. */
  ghost predicate Balanced(s: System, step: Step, d: nat, kind: Kind)
    requires Enabled(s, step)
  {
    ReplyRead(s, step, d, kind) + Replies(Exec(s, step), d, kind) == Replies(s, d, kind) + ReplyWritten(s, step, d, kind)
  }

  lemma ReadBalanced(s: System, cfg: seq<Node>, w: Witness, fd: int, nums: seq<int>, env: B.Env, d: nat, kind: Kind)
    requires Inv(s, cfg, w) && CanRead(s, fd, nums, env) && d < |cfg|
    ensures Balanced(s, Read(fd, nums, env), d, kind)
  {
    var v := R.StepRead(s, cfg, w, fd, nums, env);
    ReadReplies(s, cfg, w, fd, nums, env, v, d, kind);
  }

  lemma HangupBalanced(s: System, cfg: seq<Node>, w: Witness, i: nat, d: nat, kind: Kind)
    requires Inv(s, cfg, w) && Enabled(s, Hangup(i)) && d < |cfg|
    ensures Balanced(s, Hangup(i), d, kind)
  {
    HangupKeeps(s, cfg, w, i, d, kind);
  }

  lemma AnswerBalanced(s: System, cfg: seq<Node>, w: Witness, step: Step, d: nat, kind: Kind)
    requires Inv(s, cfg, w) && Enabled(s, step) && (step.Accept? || step.Finish?) && d < |cfg|
    ensures Balanced(s, step, d, kind)
  {
    AnswerStep(s, cfg, w, step, d, kind);
  }

  lemma QuietBalanced(s: System, cfg: seq<Node>, w: Witness, step: Step, d: nat, kind: Kind)
    requires Inv(s, cfg, w) && Enabled(s, step) && !step.Read? && !step.Hangup? && !step.Accept? && !step.Finish? && d < |cfg|
    ensures Balanced(s, step, d, kind)
  {
    QuietStep(s, cfg, w, step, d, kind);
  }

  lemma StepReplies(s: System, cfg: seq<Node>, w: Witness, step: Step, d: nat, kind: Kind)
    requires Inv(s, cfg, w) && Enabled(s, step) && d < |cfg|
    ensures Balanced(s, step, d, kind)
  {
    if step.Read? {
      ReadBalanced(s, cfg, w, step.fd, step.nums, step.env, d, kind);
    } else if step.Hangup? {
      HangupBalanced(s, cfg, w, step.i, d, kind);
    } else if step.Accept? || step.Finish? {
      AnswerBalanced(s, cfg, w, step, d, kind);
    } else {
      QuietBalanced(s, cfg, w, step, d, kind);
    }
  }

  /** What a dispatcher has in hands is a forwarded request. */
  lemma HandsRequest(s: System, cfg: seq<Node>, w: Witness, d: nat)
    requires Inv(s, cfg, w) && d < |cfg|
    ensures d < |s.procs| && var h := s.procs[d].handling;
            h.Handling? && !h.accepted ==> h.request.kind == h.kind && |h.request.objs| > 0
  {
    assert ProcOk(s, cfg, w, d);
  }

  /** Nobody else touches it. */
  lemma HandsKept(s: System, step: Step, d: nat)
    requires Enabled(s, step) && d < |s.procs|
    requires !(step.Dispatch? && step.i == d) && step != Accept(d) && step != Finish(d)
    ensures d < |Exec(s, step).procs| && Exec(s, step).procs[d].handling == s.procs[d].handling
  {
    if step.Read? { AfterIs(s, step.fd, step.nums, step.env); }
  }

  /** What the dispatcher has in hands: taken in, or answered. */
  ghost predicate HandsMove(s: System, step: Step, d: nat, kind: Kind)
    requires Enabled(s, step)
  {
    var wrote, h, g := ReplyWritten(s, step, d, kind), InHands(s, d, kind), InHands(Exec(s, step), d, kind);
    if wrote == [] then g == h + Taken(s, step, d, kind)
    else |wrote| == 1 && |h| == 1 && AnswerTo(h[0], wrote[0]) && g == [] && Taken(s, step, d, kind) == []
  }

  lemma DispatchHands(s: System, d: nat, k: Kind, kind: Kind)
    requires Enabled(s, Dispatch(d, k))
    ensures HandsMove(s, Dispatch(d, k), d, kind)
  {
  }

  lemma AcceptHands(s: System, d: nat, kind: Kind)
    requires Enabled(s, Accept(d)) && s.procs[d].handling.request.kind == s.procs[d].handling.kind
    ensures HandsMove(s, Accept(d), d, kind)
  {
  }

  lemma FinishHands(s: System, d: nat, kind: Kind)
    requires Enabled(s, Finish(d))
    requires var h := s.procs[d].handling; !h.accepted ==> h.request.kind == h.kind && |h.request.objs| > 0
    ensures HandsMove(s, Finish(d), d, kind)
  {
  }

  lemma OtherHands(s: System, step: Step, d: nat, kind: Kind)
    requires Enabled(s, step) && d < |s.procs|
    requires !(step.Dispatch? && step.i == d) && step != Accept(d) && step != Finish(d)
    ensures HandsMove(s, step, d, kind)
  {
    HandsKept(s, step, d);
  }

  lemma StepHands(s: System, step: Step, d: nat, kind: Kind)
    requires Enabled(s, step) && d < |s.procs|
    requires var h := s.procs[d].handling; h.Handling? && !h.accepted ==> h.request.kind == h.kind && |h.request.objs| > 0
    ensures HandsMove(s, step, d, kind)
  {
    if step.Dispatch? && step.i == d {
      DispatchHands(s, d, step.kind, kind);
    } else if step == Accept(d) {
      AcceptHands(s, d, kind);
    } else if step == Finish(d) {
      FinishHands(s, d, kind);
    } else {
      OtherHands(s, step, d, kind);
    }
  }

  ghost function AllRead(states: seq<System>, steps: seq<Step>, t: nat, d: nat, kind: Kind): seq<Packet>
    requires t <= |steps| && Steps(states, steps)
  {
    if t == 0 then [] else AllRead(states, steps, t - 1, d, kind) + ReplyRead(states[t - 1], steps[t - 1], d, kind)
  }

  /** The answers belong to the first requests, in order; the others are in hands. */
  ghost predicate Matched(taken: seq<Packet>, answers: seq<Packet>, hands: seq<Packet>) {
    && |taken| == |answers| + |hands| && taken[|answers|..] == hands
    && forall i :: 0 <= i < |answers| ==> AnswerTo(taken[i], answers[i])
  }

  /** In every run, of the requests that a dispatcher has taken all are answered
      but the one it works on: once, in order, each with a Confirm that has the
      request's first descriptor or with a Reject, which the broker has read or
      which waits for it. */
  lemma {:induction false} AnsweredExactlyOnce(cfg: seq<Node>, states: seq<System>, steps: seq<Step>, t: nat, d: nat, kind: Kind)
    requires Run(cfg, states, steps) && DistinctNames(cfg) && t <= |steps| && d < |cfg|
    ensures Matched(AllTaken(states, steps, t, d, kind), AllRead(states, steps, t, d, kind) + Replies(states[t], d, kind), InHands(states[t], d, kind))
    ensures |InHands(states[t], d, kind)| <= 1
  {
    var w := R.RunKeeps(cfg, states, steps, if t == 0 then 0 else t - 1);
    if t == 0 {
      OnceAtStart(states[0], cfg, w, d, kind);
    } else {
      AnsweredExactlyOnce(cfg, states, steps, t - 1, d, kind);
      assert Enabled(states[t - 1], steps[t - 1]) && states[t] == Exec(states[t - 1], steps[t - 1]);
      OnceStep(states[t - 1], cfg, w, steps[t - 1], d, kind, AllTaken(states, steps, t - 1, d, kind), AllRead(states, steps, t - 1, d, kind));
    }
  }

  lemma OnceAtStart(s: System, cfg: seq<Node>, w: Witness, d: nat, kind: Kind)
    requires Inv(s, cfg, w) && Start(s, cfg) && d < |cfg|
    ensures Replies(s, d, kind) == [] && InHands(s, d, kind) == []
  {
    ReplyEnd(s, cfg, w, d, kind);
    assert Started(s, cfg, d);
  }

  lemma OnceStep(s: System, cfg: seq<Node>, w: Witness, step: Step, d: nat, kind: Kind, taken: seq<Packet>, read: seq<Packet>)
    requires Inv(s, cfg, w) && Enabled(s, step) && d < |cfg| && Matched(taken, read + Replies(s, d, kind), InHands(s, d, kind))
    ensures Matched(taken + Taken(s, step, d, kind), (read + ReplyRead(s, step, d, kind)) + Replies(Exec(s, step), d, kind), InHands(Exec(s, step), d, kind))
  {
    StepReplies(s, cfg, w, step, d, kind);
    HandsRequest(s, cfg, w, d);
    StepHands(s, step, d, kind);
    MatchedStep(taken, read, Replies(s, d, kind), InHands(s, d, kind), Taken(s, step, d, kind), ReplyRead(s, step, d, kind),
                Replies(Exec(s, step), d, kind), InHands(Exec(s, step), d, kind), ReplyWritten(s, step, d, kind));
  }

  lemma MatchedStep(taken: seq<Packet>, read: seq<Packet>, waiting: seq<Packet>, hands: seq<Packet>,
                    took: seq<Packet>, gone: seq<Packet>, left: seq<Packet>, holds: seq<Packet>, wrote: seq<Packet>)
    requires Matched(taken, read + waiting, hands) && gone + left == waiting + wrote
    requires if wrote == [] then holds == hands + took
             else |wrote| == 1 && |hands| == 1 && AnswerTo(hands[0], wrote[0]) && holds == [] && took == []
    ensures Matched(taken + took, (read + gone) + left, holds)
  {
    assert (read + gone) + left == (read + waiting) + wrote by {
      assert (read + gone) + left == read + (gone + left);
      assert (read + waiting) + wrote == read + (waiting + wrote);
    }
    if wrote != [] { assert taken[|read + waiting|] == hands[0]; }
  }
}
