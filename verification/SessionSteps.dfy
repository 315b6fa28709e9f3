/** Every step of a component process keeps the invariant. */
module SessionSteps {
  import opened Basics
  import opened Protocol
  import opened Config
  import opened Session
  import opened SessionInvariant
  import B = Broker

  /** A process that did not move is still fine, unless it holds `c`'s token. */
  lemma FrameProc(s: System, cfg: seq<Node>, w: Witness, t: System, v: Witness, c: nat, j: nat)
    requires Sizes(s, cfg, w) && Sizes(t, cfg, v) && j < |cfg| && c < |cfg|
    requires ProcOk(s, cfg, w, j) && Agree(s, w, t, v, c) && t.procs[j] == s.procs[j]
    requires w.loc[c] != InHand(j)
    requires j == c ==> v.loc[c] == w.loc[c]
    ensures ProcOk(t, cfg, v, j)
  {
    var p := s.procs[j];
    assert HandOk(t, cfg, v, j, p.handling);
    forall x | x in p.clients ensures ClientOk(t, cfg, v, j, x) {
      assert ClientOk(s, cfg, w, j, x);
    }
  }

  ghost predicate Asks(wait: Wait, m: Packet) {
    match wait
    case Idle => false
    case Initializing(k, lbl, mem) => MemOk(k, mem) && m == Packet(Request, k, "", lbl, mem)
    case Registering(k) => m == Packet(Protocol.Register, k, "", "", [])
  }

  /** An idle process sends a packet to the broker and blocks. */
  ghost function Blocked(s: System, i: nat, wait: Wait, n: nat): System
    requires i < |s.procs|
  {
    SetProc(s, i, s.procs[i].(wait := wait)).(next := n)
  }

  lemma BlockedOk(s: System, cfg: seq<Node>, w: Witness, i: nat, wait: Wait, m: Packet, n: nat, v: Witness)
    requires Inv(s, cfg, w) && Running(s, i) && Asks(wait, m) && s.next <= n
    requires v == w.(loc := w.loc[i := Up])
    ensures Inv(Blocked(s, i, wait, n), cfg, v) && NoToken(Blocked(s, i, wait, n), cfg, v, i)
  {
    var t := Blocked(s, i, wait, n);
    assert ProcOk(s, cfg, w, i);
    NoTokenQueued(s, cfg, w, i);
    FrameQueues(s, cfg, w, t, v, i);
    assert ProcOk(t, cfg, v, i) by {
      assert HandOk(t, cfg, v, i, s.procs[i].handling);
      forall x | x in s.procs[i].clients ensures ClientOk(t, cfg, v, i, x) {
        assert ClientOk(s, cfg, w, i, x);
      }
    }
    Settle(s, cfg, w, t, v, i, i);
  }

  lemma StepAsk(s: System, cfg: seq<Node>, w: Witness, i: nat, wait: Wait, m: Packet, n: nat) returns (v: Witness)
    requires Inv(s, cfg, w) && Running(s, i) && Asks(wait, m) && s.next <= n
    ensures s.procs[i].sock.End? && Inv(Push(Blocked(s, i, wait, n), Peer(s.procs[i].sock), m), cfg, v)
  {
    v := w.(loc := w.loc[i := Up]);
    assert ProcOk(s, cfg, w, i);
    BlockedOk(s, cfg, w, i, wait, m, n, v);
    PushInv(Blocked(s, i, wait, n), cfg, v, Peer(s.procs[i].sock), m, i);
  }

  lemma StepInitialize(s: System, cfg: seq<Node>, w: Witness, i: nat, kind: Kind, lbl: Text) returns (v: Witness)
    requires Inv(s, cfg, w) && Enabled(s, Initialize(i, kind, lbl))
    ensures Inv(Exec(s, Initialize(i, kind, lbl)), cfg, v)
  {
    var mem := NewMemory(s, kind);
    v := StepAsk(s, cfg, w, i, Initializing(kind, lbl, mem), Packet(Request, kind, "", lbl, mem), s.next + 1);
  }

  lemma StepRegister(s: System, cfg: seq<Node>, w: Witness, i: nat, kind: Kind) returns (v: Witness)
    requires Inv(s, cfg, w) && Enabled(s, Session.Register(i, kind))
    ensures Inv(Exec(s, Session.Register(i, kind)), cfg, v)
  {
    v := StepAsk(s, cfg, w, i, Registering(kind), Packet(Protocol.Register, kind, "", "", []), s.next);
  }

  /** Only process `i` and only `c`'s token moved, and the broker did not. */
  /** The broker's table and the sockets are as they were. */
  lemma TablesKept(s: System, cfg: seq<Node>, w: Witness, t: System, v: Witness)
    requires Sizes(s, cfg, w) && Sizes(t, cfg, v) && v.role == w.role && t.broker == s.broker && t.next >= s.next
    requires forall j :: 0 <= j < |cfg| ==> t.procs[j].sock == s.procs[j].sock
    requires forall j :: 0 <= j < |cfg| ==> CompOk(s, cfg, w, j)
    requires forall d, k :: 0 <= d < |cfg| ==> ServOk(s.broker, w, d, k)
    requires forall p :: p in w.role ==> RoleOk(s, cfg, w, p)
    ensures forall j :: 0 <= j < |cfg| ==> CompOk(t, cfg, v, j)
    ensures forall d, k :: 0 <= d < |cfg| ==> ServOk(t.broker, v, d, k)
    ensures forall p :: p in v.role ==> RoleOk(t, cfg, v, p)
  {
    forall j | 0 <= j < |cfg| ensures CompOk(t, cfg, v, j) { assert CompOk(s, cfg, w, j); }
    forall d, k | 0 <= d < |cfg| ensures ServOk(t.broker, v, d, k) { assert ServOk(s.broker, w, d, k); }
    forall p | p in v.role ensures RoleOk(t, cfg, v, p) { assert RoleOk(s, cfg, w, p); }
  }

  lemma Settle(s: System, cfg: seq<Node>, w: Witness, t: System, v: Witness, c: nat, i: nat)
    requires Inv(s, cfg, w) && Sizes(t, cfg, v) && QueuesOk(t, cfg, v)
    requires c < |cfg| && i < |cfg| && v.role == w.role && t.broker == s.broker && t.next >= s.next
    requires Agree(s, w, t, v, c)
    requires forall j :: 0 <= j < |cfg| && j != i ==> t.procs[j] == s.procs[j]
    requires t.procs[i].sock == s.procs[i].sock
    requires ProcOk(t, cfg, v, i)
    requires c == i || w.loc[c] == InHand(i)
    requires w.loc[c].InHand? ==> w.loc[c] == InHand(i)
    requires c != i && s.procs[c].wait == Idle ==> v.loc[c] == Nowhere
    ensures Inv(t, cfg, v)
  {
    forall j | 0 <= j < |cfg| ensures ProcOk(t, cfg, v, j) {
      if j != i {
        assert ProcOk(s, cfg, w, j);
        if j != c { FrameProc(s, cfg, w, t, v, c, j); }
        else {
          assert HandOk(t, cfg, v, j, s.procs[j].handling);
          forall x | x in s.procs[j].clients ensures ClientOk(t, cfg, v, j, x) {
            assert ClientOk(s, cfg, w, j, x);
          }
        }
      }
    }
    TablesKept(s, cfg, w, t, v);
  }

  /** An answer ends the wait: a confirmed session has its server session. */
  lemma ReturnedProc(s: System, cfg: seq<Node>, w: Witness, i: nat, m: Packet, t: System, v: Witness)
    requires Sizes(s, cfg, w) && i < |cfg| && ProcOk(s, cfg, w, i) && CompOk(s, cfg, w, i)
    requires DownOk(s, cfg, w, i, m)
    requires v == w.(loc := w.loc[i := Nowhere]) && t == SetProc(s, i, Returned(s.procs[i], m))
    ensures ProcOk(t, cfg, v, i)
  {
    var p := s.procs[i];
    assert HandOk(t, cfg, v, i, p.handling);
    forall x | x in t.procs[i].clients ensures ClientOk(t, cfg, v, i, x) {
      if x in p.clients { assert ClientOk(s, cfg, w, i, x); }
    }
  }

  lemma StepReturn(s: System, cfg: seq<Node>, w: Witness, i: nat) returns (v: Witness)
    requires Inv(s, cfg, w) && Enabled(s, Return(i))
    ensures Inv(Exec(s, Return(i)), cfg, v)
  {
    var p := s.procs[i];
    assert ProcOk(s, cfg, w, i);
    var m := Queue(s, p.sock)[0];
    assert DownOk(s, cfg, w, i, m) by { assert QueueOk(s, cfg, w, p.sock); }
    v := w.(loc := w.loc[i := Nowhere]);
    PopInv(s, cfg, w, p.sock, i);
    var u := Pop(s, p.sock);
    ReturnSettles(u, cfg, w, i, m, v);
    assert Exec(s, Return(i)) == SetProc(u, i, Returned(p, m));
  }

  lemma ReturnSettles(u: System, cfg: seq<Node>, w: Witness, i: nat, m: Packet, v: Witness)
    requires Inv(u, cfg, w) && NoToken(u, cfg, w, i) && i < |cfg| && u.procs[i].wait != Idle
    requires DownOk(u, cfg, w, i, m) && v == w.(loc := w.loc[i := Nowhere])
    ensures Inv(SetProc(u, i, Returned(u.procs[i], m)), cfg, v)
  {
    var t := SetProc(u, i, Returned(u.procs[i], m));
    assert ProcOk(u, cfg, w, i);
    FrameQueues(u, cfg, w, t, v, i);
    ReturnedProc(u, cfg, w, i, m, t, v);
    Settle(u, cfg, w, t, v, i, i);
  }

  lemma StepDispatch(s: System, cfg: seq<Node>, w: Witness, i: nat, kind: Kind) returns (v: Witness)
    requires Inv(s, cfg, w) && Enabled(s, Dispatch(i, kind))
    ensures Inv(Exec(s, Dispatch(i, kind)), cfg, v)
  {
    var p := s.procs[i];
    assert ProcOk(s, cfg, w, i);
    var o := p.disp[kind];
    assert DispEnd(w, i, kind, o);
    assert QueueOk(s, cfg, w, o);
    var m := Queue(s, o)[0];
    assert ReqOk(s, cfg, w, i, kind, m, AtReq(i, kind));
    var c := Owner(cfg, m.name);
    v := w.(loc := w.loc[c := InHand(i)]);
    PopInv(s, cfg, w, o, c);
    var u := Pop(s, o);
    DispatchCarries(u, cfg, w, i, kind, m, c, v);
    assert Exec(s, Dispatch(i, kind)) == SetProc(u, i, p.(handling := Handling(kind, m, false)));
  }

  lemma TakenInHand(u: System, cfg: seq<Node>, w: Witness, i: nat, kind: Kind, m: Packet, c: nat, v: Witness, t: System)
    requires i < |cfg| && c == Owner(cfg, m.name) && c < |cfg| && Sizes(u, cfg, w)
    requires ReqOk(u, cfg, w, i, kind, m, AtReq(i, kind)) && SessionKind(kind)
    requires v == w.(loc := w.loc[c := InHand(i)])
    requires t == SetProc(u, i, u.procs[i].(handling := Handling(kind, m, false)))
    ensures HandOk(t, cfg, v, i, Handling(kind, m, false))
    ensures w.loc[c] == AtReq(i, kind) && u.procs[c].wait.Initializing?
  {
  }

  lemma DispatchCarries(u: System, cfg: seq<Node>, w: Witness, i: nat, kind: Kind, m: Packet, c: nat, v: Witness)
    requires Inv(u, cfg, w) && NoToken(u, cfg, w, c) && i < |cfg| && c == Owner(cfg, m.name) && c < |cfg|
    requires ReqOk(u, cfg, w, i, kind, m, AtReq(i, kind)) && SessionKind(kind) && u.procs[i].handling == NoRequest
    requires v == w.(loc := w.loc[c := InHand(i)])
    ensures Inv(SetProc(u, i, u.procs[i].(handling := Handling(kind, m, false))), cfg, v)
  {
    var t := SetProc(u, i, u.procs[i].(handling := Handling(kind, m, false)));
    FrameQueues(u, cfg, w, t, v, c);
    TakenInHand(u, cfg, w, i, kind, m, c, v, t);
    assert ProcOk(u, cfg, w, i);
    Carry(u, cfg, w, t, v, c, i);
  }

  /** Process `i` changed, and `c`'s token moved into or out of its hands. */
  lemma Carry(s: System, cfg: seq<Node>, w: Witness, t: System, v: Witness, c: nat, i: nat)
    requires Inv(s, cfg, w) && Sizes(t, cfg, v) && QueuesOk(t, cfg, v)
    requires c < |cfg| && i < |cfg| && v.role == w.role && t.broker == s.broker && t.next >= s.next
    requires Agree(s, w, t, v, c) && t.procs[c].wait == s.procs[c].wait && s.procs[c].wait != Idle
    requires forall j :: 0 <= j < |cfg| && j != i ==> t.procs[j] == s.procs[j]
    requires t.procs[i] == s.procs[i].(handling := t.procs[i].handling, servers := t.procs[i].servers)
    requires HandOk(t, cfg, v, i, t.procs[i].handling)
    requires forall x :: x in t.procs[i].servers ==> ServerOk(cfg, v, i, x)
    requires w.loc[c].InHand? ==> w.loc[c] == InHand(i)
    ensures Inv(t, cfg, v)
  {
    forall j | 0 <= j < |cfg| ensures ProcOk(t, cfg, v, j) {
      assert ProcOk(s, cfg, w, j);
      forall x | x in s.procs[j].clients ensures ClientOk(t, cfg, v, j, x) {
        assert ClientOk(s, cfg, w, j, x);
      }
      if j != i { assert HandOk(t, cfg, v, j, s.procs[j].handling); }
    }
    TablesKept(s, cfg, w, t, v);
  }

  ghost function NewServer(h: Handling): ServerSession
    requires h.Handling? && ValidRequest(h.kind, h.request)
  {
    ServerSession(h.kind, h.request.name, h.request.lbl, h.request.objs[1],
                  if h.kind == Memory then [h.request.objs[2]] else [])
  }

  /** The accepted session is the one the request was forwarded for. */
  lemma AcceptedSession(s: System, cfg: seq<Node>, w: Witness, i: nat, h: Handling)
    requires h.Handling? && ValidRequest(h.kind, h.request)
    requires Sizes(s, cfg, w) && ReqOk(s, cfg, w, i, h.kind, h.request, InHand(i))
    requires ProcOk(s, cfg, w, Owner(cfg, h.request.name))
    ensures ServerOk(cfg, w, i, NewServer(h))
    ensures NewServer(h).mem == s.procs[Owner(cfg, h.request.name)].wait.mem
    ensures NewServer(h).end == Peer(h.request.objs[0])
  {
    var mem := s.procs[Owner(cfg, h.request.name)].wait.mem;
    assert MemOk(h.kind, mem);
    assert h.kind == Memory ==> h.request.objs[2] == mem[0] && mem == [mem[0]];
  }

  ghost function Accepted(s: System, i: nat): System
    requires i < |s.procs| && s.procs[i].handling.Handling?
    requires ValidRequest(s.procs[i].handling.kind, s.procs[i].handling.request)
  {
    var p := s.procs[i];
    SetProc(s, i, p.(handling := p.handling.(accepted := true), servers := p.servers + {NewServer(p.handling)}))
  }

  /** The token of a request that a dispatcher has in hand goes into its answer. */
  lemma Handoff(s: System, cfg: seq<Node>, w: Witness, i: nat, c: nat, t: System, v: Witness)
    requires Inv(s, cfg, w) && i < |cfg| && c < |cfg|
    requires w.loc[c] == InHand(i) && s.procs[c].wait.Initializing?
    requires |v.loc| == |w.loc| && v == w.(loc := w.loc[c := v.loc[c]])
    requires i < |t.procs| == |s.procs| && t == SetProc(s, i, t.procs[i])
    requires t.procs[i] == s.procs[i].(handling := t.procs[i].handling, servers := t.procs[i].servers)
    requires s.procs[i].servers <= t.procs[i].servers
    requires t.procs[i].handling.Handling? ==> t.procs[i].handling.accepted
    requires forall x :: x in t.procs[i].servers ==> x in s.procs[i].servers || ServerOk(cfg, w, i, x)
    ensures Inv(t, cfg, v) && NoToken(t, cfg, v, c)
  {
    NoTokenQueued(s, cfg, w, c);
    FrameQueues(s, cfg, w, t, v, c);
    assert ProcOk(s, cfg, w, i);
    Carry(s, cfg, w, t, v, c, i);
  }

  lemma AcceptMoves(s: System, cfg: seq<Node>, w: Witness, i: nat, c: nat, v: Witness)
    requires Inv(s, cfg, w) && Enabled(s, Accept(i)) && c < |cfg|
    requires ReqOk(s, cfg, w, i, s.procs[i].handling.kind, s.procs[i].handling.request, InHand(i))
    requires c == Owner(cfg, s.procs[i].handling.request.name)
    requires v == w.(loc := w.loc[c := AtRep(i, s.procs[i].handling.kind)])
    requires ServerOk(cfg, w, i, NewServer(s.procs[i].handling))
    ensures Inv(Accepted(s, i), cfg, v) && NoToken(Accepted(s, i), cfg, v, c)
  {
    Handoff(s, cfg, w, i, c, Accepted(s, i), v);
  }

  lemma StepAccept(s: System, cfg: seq<Node>, w: Witness, i: nat) returns (v: Witness)
    requires Inv(s, cfg, w) && Enabled(s, Accept(i))
    ensures Inv(Exec(s, Accept(i)), cfg, v)
  {
    var p := s.procs[i];
    var h := p.handling;
    assert ProcOk(s, cfg, w, i);
    assert ReqOk(s, cfg, w, i, h.kind, h.request, InHand(i));
    var c := Owner(cfg, h.request.name);
    AcceptedSession(s, cfg, w, i, h);
    v := w.(loc := w.loc[c := AtRep(i, h.kind)]);
    var m := Packet(Confirm, h.kind, h.request.name, h.request.lbl, [h.request.objs[0]]);
    var t := Accepted(s, i);
    AcceptMoves(s, cfg, w, i, c, v);
    AnswerAccepted(s, cfg, w, i, h, t, v);
    var o := Peer(p.disp[h.kind]);
    assert DispEnd(v, i, h.kind, p.disp[h.kind]);
    PushInv(t, cfg, v, o, m, c);
    assert Exec(s, Accept(i)) == Push(t, o, m);
  }

  /** The confirmation that the dispatcher sends is a good answer. */
  lemma AnswerAccepted(s: System, cfg: seq<Node>, w: Witness, i: nat, h: Handling, t: System, v: Witness)
    requires h.Handling? && ValidRequest(h.kind, h.request)
    requires Sizes(s, cfg, w) && i < |cfg| && ReqOk(s, cfg, w, i, h.kind, h.request, InHand(i))
    requires ServerOk(cfg, w, i, NewServer(h))
    requires NewServer(h).mem == s.procs[Owner(cfg, h.request.name)].wait.mem
    requires v == w.(loc := w.loc[Owner(cfg, h.request.name) := AtRep(i, h.kind)])
    requires |t.procs| == |s.procs| && NewServer(h) in t.procs[i].servers
    requires t.procs[Owner(cfg, h.request.name)].wait == s.procs[Owner(cfg, h.request.name)].wait
    ensures RepOk(t, cfg, v, i, h.kind, Packet(Confirm, h.kind, h.request.name, h.request.lbl, [h.request.objs[0]]))
  {
    var c := Owner(cfg, h.request.name);
    assert Granted(t, cfg, v, c, i, h.request.objs[0]);
  }

  ghost function Finished(s: System, i: nat): System
    requires i < |s.procs|
  {
    SetProc(s, i, s.procs[i].(handling := NoRequest))
  }

  lemma RefuseMoves(s: System, cfg: seq<Node>, w: Witness, i: nat, c: nat, v: Witness)
    requires Inv(s, cfg, w) && i < |cfg| && s.procs[i].handling.Handling? && c < |cfg|
    requires ReqOk(s, cfg, w, i, s.procs[i].handling.kind, s.procs[i].handling.request, InHand(i))
    requires c == Owner(cfg, s.procs[i].handling.request.name)
    requires v == w.(loc := w.loc[c := AtRep(i, s.procs[i].handling.kind)])
    ensures Inv(Finished(s, i), cfg, v) && NoToken(Finished(s, i), cfg, v, c)
  {
    Handoff(s, cfg, w, i, c, Finished(s, i), v);
  }

  lemma StepFinish(s: System, cfg: seq<Node>, w: Witness, i: nat) returns (v: Witness)
    requires Inv(s, cfg, w) && Enabled(s, Finish(i))
    ensures Inv(Exec(s, Finish(i)), cfg, v)
  {
    var h := s.procs[i].handling;
    var t := Finished(s, i);
    assert ProcOk(s, cfg, w, i);
    if h.accepted {
      v := w;
      NoChange(s, cfg, w, t, i);
    } else {
      var c := Owner(cfg, h.request.name);
      v := w.(loc := w.loc[c := AtRep(i, h.kind)]);
      RefuseMoves(s, cfg, w, i, c, v);
      var o := s.procs[i].disp[h.kind];
      assert DispEnd(w, i, h.kind, o);
      PushInv(t, cfg, v, Peer(o), Packet(Reject, h.kind, h.request.name, h.request.lbl, []), c);
    }
  }

  /** Process `i` gave something up, but no token moved and no server session
      that anybody needs was lost. */
  lemma NoChange(s: System, cfg: seq<Node>, w: Witness, t: System, i: nat)
    requires Inv(s, cfg, w) && i < |cfg| && |t.procs| == |s.procs| && t == SetProc(s, i, t.procs[i])
    requires t.procs[i] == s.procs[i].(alive := t.procs[i].alive, handling := t.procs[i].handling, clients := t.procs[i].clients)
    requires t.procs[i].alive ==> s.procs[i].alive
    requires t.procs[i].handling == s.procs[i].handling || t.procs[i].handling == NoRequest
    requires t.procs[i].clients <= s.procs[i].clients
    ensures Inv(t, cfg, w)
  {
    forall o ensures QueueOk(t, cfg, w, o) {
      assert QueueOk(s, cfg, w, o);
      SameWaits(s, cfg, w, t, o);
    }
    forall j | 0 <= j < |cfg| ensures ProcOk(t, cfg, w, j) {
      assert ProcOk(s, cfg, w, j);
      assert HandOk(t, cfg, w, j, t.procs[j].handling);
      forall x | x in t.procs[j].clients ensures ClientOk(t, cfg, w, j, x) {
        assert ClientOk(s, cfg, w, j, x);
      }
    }
    forall j | 0 <= j < |cfg| ensures CompOk(t, cfg, w, j) { assert CompOk(s, cfg, w, j); }
    forall p | p in w.role ensures RoleOk(t, cfg, w, p) { assert RoleOk(s, cfg, w, p); }
  }

  lemma SameWaits(s: System, cfg: seq<Node>, w: Witness, t: System, o: Object)
    requires QueueOk(s, cfg, w, o) && Queue(t, o) == Queue(s, o) && |t.procs| == |s.procs|
    requires forall j :: 0 <= j < |s.procs| ==> t.procs[j].wait == s.procs[j].wait && t.procs[j].servers == s.procs[j].servers
    ensures QueueOk(t, cfg, w, o)
  {
    var q := Queue(s, o);
    if q != [] && w.role[o.pair].ServRole? {
      var d, k := w.role[o.pair].d, w.role[o.pair].k;
      forall i | 0 <= i < |q|
        ensures if o.second then ReqOk(t, cfg, w, d, k, q[i], AtReq(d, k)) else RepOk(t, cfg, w, d, k, q[i])
      {
        assert if o.second then ReqOk(s, cfg, w, d, k, q[i], AtReq(d, k)) else RepOk(s, cfg, w, d, k, q[i]);
      }
    }
  }

  /** A queue without a reference to the lost session's peer does not need
      the lost session. */
  lemma CleanQueue(s: System, cfg: seq<Node>, w: Witness, t: System, i: nat, x: ServerSession, o: Object)
    requires QueueOk(s, cfg, w, o) && i < |s.procs| && x.end.End?
    requires t == SetProc(s, i, s.procs[i].(servers := s.procs[i].servers - {x}))
    requires forall j :: 0 <= j < |Queue(s, o)| ==> Peer(x.end) !in Queue(s, o)[j].objs
    ensures QueueOk(t, cfg, w, o)
  {
    var q := Queue(s, o);
    assert Queue(t, o) == q;
    if q != [] && w.role[o.pair].ServRole? {
      var d, k := w.role[o.pair].d, w.role[o.pair].k;
      forall j | 0 <= j < |q|
        ensures if o.second then ReqOk(t, cfg, w, d, k, q[j], AtReq(d, k)) else RepOk(t, cfg, w, d, k, q[j])
      {
        if o.second {
          assert ReqOk(s, cfg, w, d, k, q[j], AtReq(d, k));
        } else {
          assert RepOk(s, cfg, w, d, k, q[j]);
          if q[j].action == Confirm {
            assert q[j].objs[0] in q[j].objs;
            assert Granted(t, cfg, w, Owner(cfg, q[j].name), d, q[j].objs[0]);
          }
        }
      }
    } else if q != [] && o.second && q[0].action == Confirm && |q[0].objs| == 1 {
      assert q[0].objs[0] in q[0].objs;
    }
  }

  /** A server session is dropped only when its peer is referenced nowhere. */
  lemma StepCleanup(s: System, cfg: seq<Node>, w: Witness, i: nat, x: ServerSession)
    requires Inv(s, cfg, w) && Enabled(s, Cleanup(i, x))
    ensures Inv(Exec(s, Cleanup(i, x)), cfg, w)
  {
    var t := Exec(s, Cleanup(i, x));
    forall o ensures QueueOk(t, cfg, w, o) {
      assert QueueOk(s, cfg, w, o);
      CleanQueue(s, cfg, w, t, i, x, o);
    }
    forall j | 0 <= j < |cfg| ensures ProcOk(t, cfg, w, j) {
      CleanProc(s, cfg, w, t, i, x, j);
    }
    forall j | 0 <= j < |cfg| ensures CompOk(t, cfg, w, j) { assert CompOk(s, cfg, w, j); }
    forall p | p in w.role ensures RoleOk(t, cfg, w, p) { assert RoleOk(s, cfg, w, p); }
  }

  lemma CleanProc(s: System, cfg: seq<Node>, w: Witness, t: System, i: nat, x: ServerSession, j: nat)
    requires Inv(s, cfg, w) && i < |cfg| && j < |cfg| && x.end.End? && !Referenced(s, Peer(x.end))
    requires t == SetProc(s, i, s.procs[i].(servers := s.procs[i].servers - {x}))
    ensures ProcOk(t, cfg, w, j)
  {
    assert ProcOk(s, cfg, w, j);
    assert HandOk(t, cfg, w, j, t.procs[j].handling);
    forall y | y in t.procs[j].clients ensures ClientOk(t, cfg, w, j, y) {
      assert ClientOk(s, cfg, w, j, y);
      assert y in s.procs[j].clients;
      assert y.end != Peer(x.end);
    }
  }
}
