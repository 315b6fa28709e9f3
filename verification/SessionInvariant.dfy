/** What every run keeps.

    A blocked client has at most one token in the system: its request, or the
    answer to it.  `Witness` says where each client's token is and what each
    socketpair was created for; the invariant says that every packet anywhere
    is such a token, at the place the witness names. */
module SessionInvariant {
  import opened Basics
  import opened Protocol
  import opened Config
  import opened Session
  import B = Broker

  /** What a socketpair is for: a component's broker socket, a dispatcher's
      service socket, or a session of client `c` with server `d`. */
  datatype Role =
    | CompRole(i: nat)
    | ServRole(d: nat, k: Kind)
    | SessRole(c: nat, d: nat, k: Kind, lbl: Text, mem: seq<Object>)

  datatype Loc = Nowhere | Up | AtReq(d: nat, k: Kind) | InHand(d: nat) | AtRep(d: nat, k: Kind) | Down

  /** `resources` is the broker's table, which never changes. */
  datatype Witness = Witness(role: map<nat, Role>, loc: seq<Loc>, resources: seq<Query>)

  ghost predicate Waits(s: System, c: int, k: Kind) {
    0 <= c < |s.procs| && s.procs[c].wait.Initializing? && s.procs[c].wait.kind == k
  }

  ghost predicate IsSession(s: System, w: Witness, p: nat, c: nat, d: nat) {
    && c < |s.procs| && s.procs[c].wait.Initializing?
    && p in w.role
    && w.role[p] == SessRole(c, d, s.procs[c].wait.kind, s.procs[c].wait.lbl, s.procs[c].wait.mem)
  }

  /** A forwarded request carries both ends of the session's pair. */
  ghost predicate ReqOk(s: System, cfg: seq<Node>, w: Witness, d: nat, k: Kind, m: Packet, at: Loc) {
    var c := Owner(cfg, m.name);
    && 0 <= c < |w.loc| && Waits(s, c, k) && w.loc[c] == at
    && m.action == Request && m.kind == k && m.lbl == s.procs[c].wait.lbl
    && |m.objs| >= 2 && m.objs[0].End?
    && m.objs == [m.objs[0], Peer(m.objs[0])] + s.procs[c].wait.mem
    && !m.objs[0].second && IsSession(s, w, m.objs[0].pair, c, d)
  }

  /** A confirmation carries the client's end, and the server already has a
      session on the other one. */
  ghost predicate Granted(s: System, cfg: seq<Node>, w: Witness, c: nat, d: nat, o: Object) {
    && o.End? && !o.second && IsSession(s, w, o.pair, c, d)
    && c < |cfg| && Named(cfg[c]) && d < |s.procs|
    && var wait := s.procs[c].wait;
    ServerSession(wait.kind, NameOf(cfg[c]), wait.lbl, Peer(o), wait.mem) in s.procs[d].servers
  }

  ghost predicate RepOk(s: System, cfg: seq<Node>, w: Witness, d: nat, k: Kind, m: Packet) {
    var c := Owner(cfg, m.name);
    && 0 <= c < |w.loc| && Waits(s, c, k) && w.loc[c] == AtRep(d, k)
    && m.kind == k && m.lbl == s.procs[c].wait.lbl
    && (|| (m.action == Reject && m.objs == [])
        || (m.action == Confirm && |m.objs| == 1 && Granted(s, cfg, w, c, d, m.objs[0])))
  }

  ghost predicate UpOk(s: System, w: Witness, c: nat, m: Packet) {
    && c < |w.loc| && c < |s.procs| && w.loc[c] == Up
    && match s.procs[c].wait
       case Idle => false
       case Initializing(k, lbl, mem) => m == Packet(Request, k, "", lbl, mem)
       case Registering(k) => m == Packet(Protocol.Register, k, "", "", [])
  }

  ghost predicate GrantedBySome(s: System, cfg: seq<Node>, w: Witness, c: nat, o: Object) {
    o.End? && o.pair in w.role && w.role[o.pair].SessRole? && Granted(s, cfg, w, c, w.role[o.pair].d, o)
  }

  ghost predicate DownOk(s: System, cfg: seq<Node>, w: Witness, c: nat, m: Packet) {
    && c < |w.loc| && c < |s.procs| && w.loc[c] == Down
    && (m.action == Reject || m.action == Confirm)
    && (m.action == Reject ==> m.objs == [])
    && match s.procs[c].wait
       case Idle => false
       case Initializing(k, lbl, mem) =>
         && m.kind == k && m.lbl == lbl
         && (m.action == Confirm ==> |m.objs| == 1 && (SessionKind(k) ==> GrantedBySome(s, cfg, w, c, m.objs[0])) && OpenedFor(cfg, w.resources, c, k, lbl, m.objs[0]))
       case Registering(k) =>
         && m.kind == k
         && (m.action == Confirm ==> |m.objs| == 1 && DispEnd(w, c, k, m.objs[0]))
  }

  /** The dispatcher's end of component `c`'s service socket. */
  ghost predicate DispEnd(w: Witness, c: nat, k: Kind, o: Object) {
    o.End? && o.second && o.pair in w.role && w.role[o.pair] == ServRole(c, k)
  }

  ghost predicate QueueOk(s: System, cfg: seq<Node>, w: Witness, o: Object) {
    var q := Queue(s, o);
    q != [] ==>
      && o.End? && o.pair in w.role
      && match w.role[o.pair]
         case CompRole(c) => |q| == 1 && if o.second then DownOk(s, cfg, w, c, q[0]) else UpOk(s, w, c, q[0])
         case ServRole(d, k) =>
           && (forall i :: 0 <= i < |q| ==>
                 if o.second then ReqOk(s, cfg, w, d, k, q[i], AtReq(d, k)) else RepOk(s, cfg, w, d, k, q[i]))
           && (forall i, j :: 0 <= i < j < |q| ==> q[i].name != q[j].name)
         case SessRole(_, _, _, _, _) => false
  }

  /** Whose token is packet `m` in the queue at `o`? */
  ghost function TokenOf(cfg: seq<Node>, w: Witness, o: Object, m: Packet): int {
    if !o.End? || o.pair !in w.role then -1
    else
      match w.role[o.pair]
      case CompRole(c) => c
      case ServRole(_, _) => Owner(cfg, m.name)
      case SessRole(_, _, _, _, _) => -1
  }

  ghost predicate NoToken(s: System, cfg: seq<Node>, w: Witness, c: nat) {
    forall o, i {:trigger TokenOf(cfg, w, o, Queue(s, o)[i])} :: 0 <= i < |Queue(s, o)| ==> TokenOf(cfg, w, o, Queue(s, o)[i]) != c
  }

  ghost predicate QueuesOk(s: System, cfg: seq<Node>, w: Witness) {
    forall o :: QueueOk(s, cfg, w, o)
  }

  /* ---- Broker table ---- */

  ghost predicate CompOk(s: System, cfg: seq<Node>, w: Witness, i: nat)
    requires i < |s.broker.components| && i < |s.procs| && i < |cfg|
  {
    var c := s.broker.components[i];
    Valid(c.fd) ==>
      && c.node == At(cfg[i]) && Named(cfg[i])
      && CompEnd(w, i, s.procs[i].sock)
      && c.fd in s.broker.open && s.broker.open[c.fd] == Peer(s.procs[i].sock)
  }

  ghost predicate CompEnd(w: Witness, i: nat, o: Object) {
    o.End? && o.second && o.pair in w.role && w.role[o.pair] == CompRole(i)
  }

  ghost predicate ServOk(b: B.State, w: Witness, d: nat, k: Kind)
    requires d < |b.components|
  {
    var e := b.components[d].serv[k];
    && (Valid(e.broker) <==> Valid(e.disp))
    && (!Valid(e.broker) ==> e == B.NoEntry)
    && (Valid(e.broker) ==>
          && e.broker in b.open && e.disp in b.open
          && DispEnd(w, d, k, b.open[e.disp])
          && b.open[e.broker] == Peer(b.open[e.disp]))
  }

  /* ---- Processes ---- */

  ghost predicate MemOk(kind: Kind, mem: seq<Object>) {
    if kind == Memory then |mem| == 1 && mem[0].Memfd? else mem == []
  }

  ghost predicate ServerOk(cfg: seq<Node>, w: Witness, d: nat, v: ServerSession) {
    && v.end.End? && v.end.second && v.end.pair in w.role
    && var r := w.role[v.end.pair];
    && r.SessRole? && r.d == d && r.k == v.kind && r.lbl == v.lbl && r.mem == v.mem
    && HasName(cfg, r.c, v.name)
  }

  /** A client's session has its server session on the other end. */
  ghost predicate ClientOk(s: System, cfg: seq<Node>, w: Witness, c: nat, v: ClientSession) {
    && c < |cfg| && Named(cfg[c])
    && v.end.End? && !v.end.second && v.end.pair in w.role
    && var r := w.role[v.end.pair];
    && r.SessRole? && r.c == c && r.k == v.kind && r.lbl == v.lbl && r.mem == v.mem
    && r.d < |s.procs| && MemOk(v.kind, v.mem)
    && ServerSession(v.kind, NameOf(cfg[c]), v.lbl, Peer(v.end), v.mem) in s.procs[r.d].servers
  }

  ghost predicate HandOk(s: System, cfg: seq<Node>, w: Witness, d: nat, h: Handling) {
    h.Handling? && !h.accepted ==> SessionKind(h.kind) && ReqOk(s, cfg, w, d, h.kind, h.request, InHand(d))
  }

  ghost predicate ProcOk(s: System, cfg: seq<Node>, w: Witness, i: nat)
    requires i < |s.procs| && i < |w.loc|
  {
    var p := s.procs[i];
    && p.sock.End?
    && (p.alive ==> CompEnd(w, i, p.sock))
    && (p.wait == Idle ==> w.loc[i] == Nowhere)
    && (p.wait.Initializing? ==> MemOk(p.wait.kind, p.wait.mem))
    && (forall k :: k in p.disp ==> DispEnd(w, i, k, p.disp[k]))
    && HandOk(s, cfg, w, i, p.handling)
    && (forall v :: v in p.servers ==> ServerOk(cfg, w, i, v))
    && (forall v :: v in p.clients ==> ClientOk(s, cfg, w, i, v))
  }

  ghost predicate RoleOk(s: System, cfg: seq<Node>, w: Witness, p: nat)
    requires p in w.role
  {
    && p < s.next
    && match w.role[p]
       case CompRole(i) => i < |s.procs| && s.procs[i].sock == End(p, true)
       case ServRole(d, k) =>
         && d < |s.broker.components|
         && var e := s.broker.components[d].serv[k];
         Valid(e.disp) && e.disp in s.broker.open && s.broker.open[e.disp] == End(p, true)
       case SessRole(c, d, k, lbl, mem) => Configured(cfg, c, k, lbl, d)
  }

  ghost predicate Sizes(s: System, cfg: seq<Node>, w: Witness) {
    |s.procs| == |s.broker.components| == |cfg| == |w.loc| && s.broker.resources == w.resources
  }

  ghost predicate Inv(s: System, cfg: seq<Node>, w: Witness) {
    && Sizes(s, cfg, w)
    && DistinctNames(cfg)
    && QueuesOk(s, cfg, w)
    && (forall i :: 0 <= i < |cfg| ==> CompOk(s, cfg, w, i))
    && (forall d, k :: 0 <= d < |cfg| ==> ServOk(s.broker, w, d, k))
    && (forall i :: 0 <= i < |cfg| ==> ProcOk(s, cfg, w, i))
    && (forall p :: p in w.role ==> RoleOk(s, cfg, w, p))
  }

  /* ---- Moving a token ---- */

  /** Everybody but `c` waits for the same thing at the same place, no pair
      changes its role, and no server session is lost. */
  ghost predicate Agree(s: System, w: Witness, t: System, v: Witness, c: nat) {
    && |t.procs| == |s.procs| && |v.loc| == |w.loc| && v.resources == w.resources
    && (forall p :: p in w.role ==> p in v.role && v.role[p] == w.role[p])
    && (forall j :: 0 <= j < |s.procs| && j != c ==> t.procs[j].wait == s.procs[j].wait)
    && (forall j :: 0 <= j < |w.loc| && j != c ==> v.loc[j] == w.loc[j])
    && (forall j :: 0 <= j < |s.procs| ==> s.procs[j].servers <= t.procs[j].servers)
  }

  lemma FrameQueue(s: System, cfg: seq<Node>, w: Witness, t: System, v: Witness, c: nat, o: Object)
    requires QueueOk(s, cfg, w, o) && Agree(s, w, t, v, c) && Queue(t, o) == Queue(s, o)
    requires forall i :: 0 <= i < |Queue(s, o)| ==> TokenOf(cfg, w, o, Queue(s, o)[i]) != c
    ensures QueueOk(t, cfg, v, o)
    ensures forall i :: 0 <= i < |Queue(t, o)| ==> TokenOf(cfg, v, o, Queue(t, o)[i]) != c
  {
    var q := Queue(s, o);
    if q != [] {
      match w.role[o.pair]
      case CompRole(e) => assert TokenOf(cfg, w, o, q[0]) == e;
      case ServRole(d, k) =>
        forall i | 0 <= i < |q|
          ensures if o.second then ReqOk(t, cfg, v, d, k, q[i], AtReq(d, k)) else RepOk(t, cfg, v, d, k, q[i])
        {
          assert TokenOf(cfg, w, o, q[i]) == Owner(cfg, q[i].name);
        }
    }
  }

  lemma FrameQueues(s: System, cfg: seq<Node>, w: Witness, t: System, v: Witness, c: nat)
    requires QueuesOk(s, cfg, w) && NoToken(s, cfg, w, c) && Agree(s, w, t, v, c) && t.queues == s.queues
    ensures QueuesOk(t, cfg, v) && NoToken(t, cfg, v, c)
  {
    forall o
      ensures QueueOk(t, cfg, v, o) && forall i :: 0 <= i < |Queue(t, o)| ==> TokenOf(cfg, v, o, Queue(t, o)[i]) != c
    {
      FrameQueue(s, cfg, w, t, v, c, o);
    }
  }

  /** A client whose token is nowhere, or in a dispatcher's hands, has none in
      the queues. */
  lemma NoTokenQueued(s: System, cfg: seq<Node>, w: Witness, c: nat)
    requires QueuesOk(s, cfg, w) && c < |w.loc| && (w.loc[c] == Nowhere || w.loc[c].InHand?)
    ensures NoToken(s, cfg, w, c)
  {
    forall o, i | 0 <= i < |Queue(s, o)| ensures TokenOf(cfg, w, o, Queue(s, o)[i]) != c {
      assert QueueOk(s, cfg, w, o);
    }
  }

  /** The place a queue's tokens are at. */
  ghost function Place(w: Witness, o: Object): Loc {
    if !o.End? || o.pair !in w.role then Nowhere
    else
      match w.role[o.pair]
      case CompRole(c) => if o.second then Down else Up
      case ServRole(d, k) => if o.second then AtReq(d, k) else AtRep(d, k)
      case SessRole(_, _, _, _, _) => Nowhere
  }

  /** One role, one pair: two queues with the same place and the same token
      are the same queue. */
  lemma SameQueue(s: System, cfg: seq<Node>, w: Witness, o: Object, i: nat, u: Object, j: nat)
    requires QueuesOk(s, cfg, w)
    requires forall p :: p in w.role ==> RoleOk(s, cfg, w, p)
    requires i < |Queue(s, o)| && j < |Queue(s, u)|
    requires TokenOf(cfg, w, o, Queue(s, o)[i]) == TokenOf(cfg, w, u, Queue(s, u)[j])
    ensures o == u && i == j
  {
    assert QueueOk(s, cfg, w, o) && QueueOk(s, cfg, w, u);
    var c := TokenOf(cfg, w, o, Queue(s, o)[i]);
    assert w.loc[c] == Place(w, o);
    assert w.loc[c] == Place(w, u);
    assert RoleOk(s, cfg, w, o.pair) && RoleOk(s, cfg, w, u.pair);
    if w.role[o.pair].ServRole? {
      assert w.role[u.pair] == w.role[o.pair];
      var q := Queue(s, o);
      assert o == u;
      assert HasName(cfg, c, q[i].name) && HasName(cfg, c, q[j].name);
      assert q[i].name == q[j].name;
    }
  }

  /** Taking the first packet leaves no other token of its owner. */
  lemma PopQueues(s: System, cfg: seq<Node>, w: Witness, o: Object, c: nat)
    requires QueuesOk(s, cfg, w)
    requires forall p :: p in w.role ==> RoleOk(s, cfg, w, p)
    requires Queue(s, o) != [] && TokenOf(cfg, w, o, Queue(s, o)[0]) == c
    ensures QueuesOk(Pop(s, o), cfg, w) && NoToken(Pop(s, o), cfg, w, c)
  {
    var t := Pop(s, o);
    forall u ensures QueueOk(t, cfg, w, u) {
      assert QueueOk(s, cfg, w, u);
      if u == o {
        PopQueue(s, cfg, w, o);
      } else {
        assert Queue(t, u) == Queue(s, u);
        SameQueueOk(s, cfg, w, t, u);
      }
    }
    forall u, i | 0 <= i < |Queue(t, u)| ensures TokenOf(cfg, w, u, Queue(t, u)[i]) != c {
      if TokenOf(cfg, w, u, Queue(t, u)[i]) == c {
        SameQueue(s, cfg, w, o, 0, u, if u == o then i + 1 else i);
      }
    }
  }

  lemma PopQueue(s: System, cfg: seq<Node>, w: Witness, o: Object)
    requires QueueOk(s, cfg, w, o) && Queue(s, o) != []
    ensures QueueOk(Pop(s, o), cfg, w, o)
  {
    var q, t := Queue(s, o), Pop(s, o);
    assert Queue(t, o) == q[1..] && forall i :: 0 <= i < |q| - 1 ==> Queue(t, o)[i] == q[i + 1];
  }

  /** A packet pushed at the right place is the owner's only token. */
  lemma PushQueues(s: System, cfg: seq<Node>, w: Witness, o: Object, m: Packet, c: nat)
    requires QueuesOk(s, cfg, w) && NoToken(s, cfg, w, c)
    requires TokenOf(cfg, w, o, m) == c
    requires o.End? && o.pair in w.role
    requires match w.role[o.pair]
             case CompRole(e) => if o.second then DownOk(s, cfg, w, e, m) else UpOk(s, w, e, m)
             case ServRole(d, k) => if o.second then ReqOk(s, cfg, w, d, k, m, AtReq(d, k)) else RepOk(s, cfg, w, d, k, m)
             case SessRole(_, _, _, _, _) => false
    ensures QueuesOk(Push(s, o, m), cfg, w)
  {
    var t := Push(s, o, m);
    forall u ensures QueueOk(t, cfg, w, u) {
      assert QueueOk(s, cfg, w, u);
      if u == o {
        PushQueue(s, cfg, w, o, m, c);
      } else {
        assert Queue(t, u) == Queue(s, u);
        SameQueueOk(s, cfg, w, t, u);
      }
    }
  }

  lemma SameQueueOk(s: System, cfg: seq<Node>, w: Witness, t: System, u: Object)
    requires QueueOk(s, cfg, w, u) && t == s.(queues := t.queues) && Queue(t, u) == Queue(s, u)
    ensures QueueOk(t, cfg, w, u)
  {
  }

  lemma PushQueue(s: System, cfg: seq<Node>, w: Witness, o: Object, m: Packet, c: nat)
    requires QueueOk(s, cfg, w, o) && NoToken(s, cfg, w, c)
    requires TokenOf(cfg, w, o, m) == c
    requires o.End? && o.pair in w.role
    requires match w.role[o.pair]
             case CompRole(e) => if o.second then DownOk(s, cfg, w, e, m) else UpOk(s, w, e, m)
             case ServRole(d, k) => if o.second then ReqOk(s, cfg, w, d, k, m, AtReq(d, k)) else RepOk(s, cfg, w, d, k, m)
             case SessRole(_, _, _, _, _) => false
    ensures QueueOk(Push(s, o, m), cfg, w, o)
  {
    var q, t := Queue(s, o), Push(s, o, m);
    assert Queue(t, o) == q + [m];
    forall i | 0 <= i < |q| ensures TokenOf(cfg, w, o, q[i]) != c {
      assert TokenOf(cfg, w, o, Queue(s, o)[i]) != c;
    }
    if w.role[o.pair].ServRole? {
      assert forall i :: 0 <= i < |q| ==> q[i].name != m.name;
    } else {
      assert q == [];
    }
  }

  /** Pushing a good token keeps the invariant. */
  lemma PushInv(s: System, cfg: seq<Node>, w: Witness, o: Object, m: Packet, c: nat)
    requires Inv(s, cfg, w) && NoToken(s, cfg, w, c)
    requires TokenOf(cfg, w, o, m) == c
    requires o.End? && o.pair in w.role
    requires match w.role[o.pair]
             case CompRole(e) => if o.second then DownOk(s, cfg, w, e, m) else UpOk(s, w, e, m)
             case ServRole(d, k) => if o.second then ReqOk(s, cfg, w, d, k, m, AtReq(d, k)) else RepOk(s, cfg, w, d, k, m)
             case SessRole(_, _, _, _, _) => false
    ensures Inv(Push(s, o, m), cfg, w)
  {
    PushQueues(s, cfg, w, o, m, c);
    SameButQueues(s, cfg, w, Push(s, o, m));
  }

  /** Taking a token out of a queue keeps it, too. */
  lemma PopInv(s: System, cfg: seq<Node>, w: Witness, o: Object, c: nat)
    requires Inv(s, cfg, w) && Queue(s, o) != [] && TokenOf(cfg, w, o, Queue(s, o)[0]) == c
    ensures Inv(Pop(s, o), cfg, w) && NoToken(Pop(s, o), cfg, w, c)
  {
    PopQueues(s, cfg, w, o, c);
    SameButQueues(s, cfg, w, Pop(s, o));
  }

  lemma SameButQueues(s: System, cfg: seq<Node>, w: Witness, t: System)
    requires Inv(s, cfg, w) && t == s.(queues := t.queues) && QueuesOk(t, cfg, w)
    ensures Inv(t, cfg, w)
  {
    forall j | 0 <= j < |cfg| ensures ProcOk(t, cfg, w, j) {
      assert ProcOk(s, cfg, w, j);
      assert HandOk(t, cfg, w, j, t.procs[j].handling);
      forall x | x in s.procs[j].clients ensures ClientOk(t, cfg, w, j, x) {
        assert ClientOk(s, cfg, w, j, x);
      }
    }
    forall j | 0 <= j < |cfg| ensures CompOk(t, cfg, w, j) { assert CompOk(s, cfg, w, j); }
    forall p | p in w.role ensures RoleOk(t, cfg, w, p) { assert RoleOk(s, cfg, w, p); }
  }
}
