/** Every step of the broker keeps the invariant. */
module SessionBroker {
  import opened Basics
  import opened Protocol
  import opened Config
  import opened Session
  import opened SessionInvariant
  import B = Broker

  /* ---- The broker's table and descriptors ---- */

  /** Only the broker changed, and the roles of existing pairs stayed. */
  lemma BrokerMoves(s: System, cfg: seq<Node>, w: Witness, t: System, v: Witness, c: nat)
    requires Inv(s, cfg, w) && NoToken(s, cfg, w, c)
    requires t == s.(broker := t.broker, next := t.next) && Sizes(t, cfg, v) && v.loc == w.loc && v.resources == w.resources
    requires forall p :: p in w.role ==> p in v.role && v.role[p] == w.role[p]
    requires forall i :: 0 <= i < |cfg| ==> CompOk(t, cfg, v, i)
    requires forall d, k :: 0 <= d < |cfg| ==> ServOk(t.broker, v, d, k)
    requires forall p :: p in v.role ==> RoleOk(t, cfg, v, p)
    ensures Inv(t, cfg, v) && NoToken(t, cfg, v, c)
  {
    FrameQueues(s, cfg, w, t, v, c);
    forall o ensures QueueOk(t, cfg, v, o) { }
    forall j | 0 <= j < |cfg| ensures ProcOk(t, cfg, v, j) {
      assert ProcOk(s, cfg, w, j);
      assert HandOk(t, cfg, v, j, t.procs[j].handling);
      forall x | x in t.procs[j].clients ensures ClientOk(t, cfg, v, j, x) {
        assert ClientOk(s, cfg, w, j, x);
      }
    }
  }

  /** More descriptors are open. */
  lemma OpenMore(s: System, cfg: seq<Node>, w: Witness, t: System, c: nat)
    requires Inv(s, cfg, w) && NoToken(s, cfg, w, c)
    requires t == s.(broker := s.broker.(open := t.broker.open), next := t.next) && s.next <= t.next
    requires Extends(s.broker.open, t.broker.open)
    ensures Inv(t, cfg, w) && NoToken(t, cfg, w, c)
  {
    forall i | 0 <= i < |cfg| ensures CompOk(t, cfg, w, i) { assert CompOk(s, cfg, w, i); }
    forall d, k | 0 <= d < |cfg| ensures ServOk(t.broker, w, d, k) { assert ServOk(s.broker, w, d, k); }
    forall p | p in w.role ensures RoleOk(t, cfg, w, p) { assert RoleOk(s, cfg, w, p); }
    BrokerMoves(s, cfg, w, t, w, c);
  }

  /** A new pair of descriptors for a session, with the role it will have. */
  lemma NewSession(s: System, cfg: seq<Node>, w: Witness, t: System, v: Witness, c: nat, id: nat, r: Role)
    requires Inv(s, cfg, w) && NoToken(s, cfg, w, c)
    requires t == s.(broker := s.broker.(open := t.broker.open), next := t.next) && s.next <= t.next
    requires Extends(s.broker.open, t.broker.open)
    requires id !in w.role && id < t.next && v == w.(role := w.role[id := r])
    requires r.SessRole? && Configured(cfg, r.c, r.k, r.lbl, r.d)
    ensures Inv(t, cfg, v) && NoToken(t, cfg, v, c)
  {
    forall i | 0 <= i < |cfg| ensures CompOk(t, cfg, v, i) { assert CompOk(s, cfg, w, i); }
    forall d, k | 0 <= d < |cfg| ensures ServOk(t.broker, v, d, k) { assert ServOk(s.broker, w, d, k); }
    forall p | p in v.role ensures RoleOk(t, cfg, v, p) { if p in w.role { assert RoleOk(s, cfg, w, p); } }
    BrokerMoves(s, cfg, w, t, v, c);
  }

  /** The state in which component `d` has a new service socket. */
  ghost function WithService(s: System, d: nat, kind: Kind, p: (int, int), id: nat): System
    requires d < |s.broker.components|
  {
    s.(broker := B.SetServ(s.broker.(open := B.InstallPair(s.broker.open, p, id)), d, kind, B.ServiceEntry(p.0, p.1)),
       next := id + 1)
  }

  lemma NewServiceEntry(s: System, cfg: seq<Node>, w: Witness, v: Witness, d: nat, kind: Kind, p: (int, int), id: nat, e: nat, k: Kind)
    requires d < |s.broker.components| && e < |s.broker.components|
    requires ServOk(s.broker, w, e, k)
    requires B.FreshPair(s.broker.open, p) && B.BothValid(p)
    requires id !in w.role && v == w.(role := w.role[id := ServRole(d, kind)])
    ensures ServOk(WithService(s, d, kind, p, id).broker, v, e, k)
  {
    var b := WithService(s, d, kind, p, id).broker;
    var was := s.broker.components[e].serv[k];
    assert b.open == s.broker.open[p.0 := End(id, false)][p.1 := End(id, true)];
    if e == d && k == kind {
      assert b.components[e].serv[k] == B.ServiceEntry(p.0, p.1);
    } else {
      assert b.components[e].serv[k] == was;
      if Valid(was.broker) {
        assert b.open[was.broker] == s.broker.open[was.broker] && b.open[was.disp] == s.broker.open[was.disp];
      }
    }
  }

  lemma NewServiceRole(s: System, cfg: seq<Node>, w: Witness, v: Witness, d: nat, kind: Kind, p: (int, int), id: nat, q: nat)
    requires d < |s.broker.components| && q in w.role && RoleOk(s, cfg, w, q)
    requires B.FreshPair(s.broker.open, p) && B.BothValid(p)
    requires !Valid(s.broker.components[d].serv[kind].disp) && s.next <= id
    requires id !in w.role && v == w.(role := w.role[id := ServRole(d, kind)])
    ensures RoleOk(WithService(s, d, kind, p, id), cfg, v, q)
  {
  }

  /** A new service socket. */
  lemma NewService(s: System, cfg: seq<Node>, w: Witness, v: Witness, c: nat, d: nat, kind: Kind, p: (int, int), id: nat)
    requires Inv(s, cfg, w) && NoToken(s, cfg, w, c) && d < |cfg|
    requires !Valid(s.broker.components[d].serv[kind].broker)
    requires B.FreshPair(s.broker.open, p) && B.BothValid(p) && s.next <= id
    requires id !in w.role && v == w.(role := w.role[id := ServRole(d, kind)])
    ensures Inv(WithService(s, d, kind, p, id), cfg, v) && NoToken(WithService(s, d, kind, p, id), cfg, v, c)
  {
    var t := WithService(s, d, kind, p, id);
    assert ServOk(s.broker, w, d, kind);
    forall i | 0 <= i < |cfg| ensures CompOk(t, cfg, v, i) { assert CompOk(s, cfg, w, i); }
    forall e, k | 0 <= e < |cfg| ensures ServOk(t.broker, v, e, k) {
      NewServiceEntry(s, cfg, w, v, d, kind, p, id, e, k);
    }
    forall q | q in v.role ensures RoleOk(t, cfg, v, q) {
      if q in w.role { NewServiceRole(s, cfg, w, v, d, kind, p, id, q); }
    }
    BrokerMoves(s, cfg, w, t, v, c);
  }

  /** `t` and `v` are what `Setup_Service` makes of `s` and `w`: a service socket,
      or the state as it was. */
  ghost predicate SetUp(s: System, cfg: seq<Node>, w: Witness, c: nat, d: nat, kind: Kind, env: B.Env, t: System, v: Witness)
    requires d < |s.broker.components|
  {
    var (b, ok) := B.SetupService(s.broker, d, kind, env);
    && t == s.(broker := b, next := t.next)
    && (t.next == s.next || t.next == env.servId + 1)
    && Inv(t, cfg, v) && NoToken(t, cfg, v, c) && v.loc == w.loc && Extends(s.broker.open, t.broker.open)
    && (forall f :: f in t.broker.open && f !in s.broker.open ==> f == env.serv.0 || f == env.serv.1)
    && (if ok then Valid(t.broker.components[d].serv[kind].broker) else t == s)
    && (forall p :: p in v.role ==> p in w.role || p == env.servId)
    && (forall p :: p in w.role ==> p in v.role && v.role[p] == w.role[p])
  }

  lemma Setup(s: System, cfg: seq<Node>, w: Witness, c: nat, d: nat, kind: Kind, env: B.Env) returns (t: System, v: Witness)
    requires Inv(s, cfg, w) && NoToken(s, cfg, w, c) && d < |cfg|
    requires B.Kernel(s.broker.open, env) && s.next <= env.servId
    ensures SetUp(s, cfg, w, c, d, kind, env, t, v)
  {
    t, v := s, w;
    EntryWhole(s, cfg, w, d, kind);
    if Valid(s.broker.components[d].serv[kind].broker) {
    } else if B.BothValid(env.serv) && env.epollOk {
      t, v := SetupCreates(s, cfg, w, c, d, kind, env);
      WithServiceIs(s, d, kind, env);
    } else {
      NoEntryAgain(s.broker, d, kind);
    }
  }

  lemma EntryWhole(s: System, cfg: seq<Node>, w: Witness, d: nat, kind: Kind)
    requires Inv(s, cfg, w) && d < |cfg|
    ensures var e := s.broker.components[d].serv[kind]; e == B.NoEntry || (Valid(e.broker) && Valid(e.disp))
  {
    assert ServOk(s.broker, w, d, kind);
  }

  lemma WithServiceIs(s: System, d: nat, kind: Kind, env: B.Env)
    requires d < |s.broker.components| && s.broker.components[d].serv[kind] == B.NoEntry
    requires B.BothValid(env.serv) && env.epollOk
    ensures var t := WithService(s, d, kind, env.serv, env.servId);
            && B.SetupService(s.broker, d, kind, env) == (t.broker, true)
            && t == s.(broker := t.broker, next := t.next) && t.next == env.servId + 1
            && Valid(t.broker.components[d].serv[kind].broker)
  {
  }

  lemma SetupCreates(s: System, cfg: seq<Node>, w: Witness, c: nat, d: nat, kind: Kind, env: B.Env) returns (t: System, v: Witness)
    requires Inv(s, cfg, w) && NoToken(s, cfg, w, c) && d < |cfg|
    requires B.FreshPair(s.broker.open, env.serv) && B.BothValid(env.serv) && s.next <= env.servId
    requires s.broker.components[d].serv[kind] == B.NoEntry
    ensures t == WithService(s, d, kind, env.serv, env.servId)
    ensures v == w.(role := w.role[env.servId := ServRole(d, kind)]) && env.servId !in w.role
    ensures Inv(t, cfg, v) && NoToken(t, cfg, v, c)
    ensures Extends(s.broker.open, t.broker.open)
    ensures t.broker.open.Keys == s.broker.open.Keys + {env.serv.0, env.serv.1}
  {
    assert env.servId !in w.role by {
      forall p | p in w.role ensures p < s.next { assert RoleOk(s, cfg, w, p); }
    }
    t := WithService(s, d, kind, env.serv, env.servId);
    assert t.broker.open == s.broker.open[env.serv.0 := End(env.servId, false)][env.serv.1 := End(env.servId, true)];
    v := w.(role := w.role[env.servId := ServRole(d, kind)]);
    NewService(s, cfg, w, v, c, d, kind, env.serv, env.servId);
  }

  /** Writing the empty entry over an empty entry changes nothing. */
  lemma NoEntryAgain(b: B.State, d: nat, kind: Kind)
    requires d < |b.components| && b.components[d].serv[kind] == B.NoEntry
    ensures B.SetServ(b, d, kind, B.NoEntry) == b
  {
    assert b.components[d].serv[kind := B.NoEntry] == b.components[d].serv;
    assert b.components[d := b.components[d]] == b.components;
  }

  /** `c`'s token, which is in no queue and in no hands, is moved. */
  lemma Relocate(s: System, cfg: seq<Node>, w: Witness, c: nat, l: Loc)
    requires Inv(s, cfg, w) && NoToken(s, cfg, w, c) && c < |cfg|
    requires !w.loc[c].InHand? && s.procs[c].wait != Idle
    ensures Inv(s, cfg, w.(loc := w.loc[c := l])) && NoToken(s, cfg, w.(loc := w.loc[c := l]), c)
  {
    var v := w.(loc := w.loc[c := l]);
    FrameQueues(s, cfg, w, s, v, c);
    forall j | 0 <= j < |cfg| ensures ProcOk(s, cfg, v, j) {
      assert ProcOk(s, cfg, w, j);
      assert HandOk(s, cfg, v, j, s.procs[j].handling);
      forall x | x in s.procs[j].clients ensures ClientOk(s, cfg, v, j, x) {
        assert ClientOk(s, cfg, w, j, x);
      }
    }
    forall j | 0 <= j < |cfg| ensures CompOk(s, cfg, v, j) { assert CompOk(s, cfg, w, j); }
    forall d, k | 0 <= d < |cfg| ensures ServOk(s.broker, v, d, k) { assert ServOk(s.broker, w, d, k); }
    forall p | p in v.role ensures RoleOk(s, cfg, v, p) { assert RoleOk(s, cfg, w, p); }
  }

  lemma HangupTable(s: System, cfg: seq<Node>, w: Witness, i: nat, t: System)
    requires Inv(s, cfg, w) && i < |cfg| && Valid(s.broker.components[i].fd)
    requires t == s.(broker := B.OnExit(s.broker, i))
    ensures forall j :: 0 <= j < |cfg| ==> CompOk(t, cfg, w, j)
    ensures forall d, k :: 0 <= d < |cfg| ==> ServOk(t.broker, w, d, k)
    ensures forall p :: p in w.role ==> RoleOk(t, cfg, w, p)
  {
    assert CompOk(s, cfg, w, i);
    forall j | 0 <= j < |cfg| ensures CompOk(t, cfg, w, j) { assert CompOk(s, cfg, w, j); }
    forall d, k | 0 <= d < |cfg| ensures ServOk(t.broker, w, d, k) { assert ServOk(s.broker, w, d, k); }
    forall p | p in w.role ensures RoleOk(t, cfg, w, p) {
      assert RoleOk(s, cfg, w, p);
      if w.role[p].ServRole? {
        assert ServOk(s.broker, w, w.role[p].d, w.role[p].k);
      }
    }
  }

  lemma StepHangup(s: System, cfg: seq<Node>, w: Witness, i: nat)
    requires Inv(s, cfg, w) && Enabled(s, Hangup(i))
    ensures Inv(Exec(s, Hangup(i)), cfg, w)
  {
    var t := s.(broker := B.OnExit(s.broker, i));
    HangupTable(s, cfg, w, i, t);
    forall o ensures QueueOk(t, cfg, w, o) {
      assert QueueOk(s, cfg, w, o);
      SameProcs(s, cfg, w, t, o);
    }
    forall j | 0 <= j < |cfg| ensures ProcOk(t, cfg, w, j) {
      assert ProcOk(s, cfg, w, j);
      assert HandOk(t, cfg, w, j, t.procs[j].handling);
      forall x | x in t.procs[j].clients ensures ClientOk(t, cfg, w, j, x) {
        assert ClientOk(s, cfg, w, j, x);
      }
    }
  }

  lemma SameProcs(s: System, cfg: seq<Node>, w: Witness, t: System, o: Object)
    requires QueueOk(s, cfg, w, o) && t == s.(broker := t.broker)
    ensures QueueOk(t, cfg, w, o)
  {
    var q := Queue(s, o);
    if q != [] && w.role[o.pair].ServRole? {
      var d, k := w.role[o.pair].d, w.role[o.pair].k;
      forall i | 0 <= i < |q|
        ensures if o.second then ReqOk(t, cfg, w, d, k, q[i], AtReq(d, k)) else RepOk(t, cfg, w, d, k, q[i])
      {
        assert if o.second then ReqOk(s, cfg, w, d, k, q[i], AtReq(d, k)) else RepOk(s, cfg, w, d, k, q[i]);
      }
    }
  }
}
