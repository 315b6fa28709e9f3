/** Which of the requests that the block proxy accepts can be acknowledged. */
module BlockProxyAnswers {
  import opened Basics
  import opened Block
  import opened BlockClient
  import opened BlockProxy
  import opened BlockProxyTheorems

  /** The requests that the backend can execute: reads (1) and writes (2) of at
      least one block. */
  predicate Supported(r: ServerRequest) {
    (r.code == 1 || r.code == 2) && r.length > 0
  }

  /** An accepted request that the backend does not support. */
  ghost predicate Stuck(st: State, i: nat)
    requires st.Sized() && i < Slots
  {
    st.slots[i].s.status == Pending && st.slots[i].c.status == Raw && !Supported(st.slots[i].s)
  }

  lemma StuckVisit(p: Params, st: State, i: nat, env: Env)
    requires st.Sized() && i < Slots && Stuck(st, i)
    ensures Visit(p, st, i, env).hist[i] == st.hist[i] && Stuck(Visit(p, st, i, env), i)
  {
    assert Refused(p, Processed(p, Released(p, st, i), i, env), i, env) == st;
    assert Replied(p, Polled(p, st, i), i, env) == st;
  }

  ghost predicate SameAt(st: State, t: State, j: nat)
    requires st.Sized() && t.Sized() && j < Slots
  {
    st.hist[j] == t.hist[j] && st.slots[j] == t.slots[j]
  }

  lemma TakeLeavesOthers(p: Params, st: State, i: nat, env: Env, j: nat)
    requires st.Sized() && i < Slots && j < Slots && i != j
    ensures SameAt(st, Refused(p, Processed(p, Released(p, st, i), i, env), i, env), j)
  {
    assert SameAt(st, Released(p, st, i), j);
    assert SameAt(st, Processed(p, Released(p, st, i), i, env), j);
  }

  lemma VisitLeavesOthers(p: Params, st: State, i: nat, env: Env, j: nat)
    requires st.Sized() && i < Slots && j < Slots && i != j
    ensures SameAt(st, Visit(p, st, i, env), j)
  {
    var t := Refused(p, Processed(p, Released(p, st, i), i, env), i, env);
    TakeLeavesOthers(p, st, i, env, j);
    var u := Polled(p, t, i);
    assert SameAt(st, u, j);
    var v := Replied(p, u, i, env);
    assert SameAt(st, v, j);
    assert SameAt(st, Issued(p, v, i, env), j);
  }

  /** Such a request is tried again at every visit and never answered. */
  lemma StuckStep(p: Params, st: State, e: Step, i: nat)
    requires Inv(p, st) && Enabled(p, st, e) && i < Slots && Stuck(st, i)
    ensures Next(p, st, e).hist[i] == st.hist[i] && Stuck(Next(p, st, e), i)
  {
    assert SlotFits(p, st, i);
    match e
    case Visited(j, env) =>
      if j == i { StuckVisit(p, st, i, env); } else { VisitLeavesOthers(p, st, j, env, i); }
    case BackendDone(k, _, _) =>
      if st.flight[k].tag == i { NoneInFlight(st.flight, i, k); }
  }

  lemma {:induction false} StuckSteps(p: Params, states: seq<State>, steps: seq<Step>, i: nat, m: nat)
    requires Steps(p, states, steps) && Inv(p, states[0]) && m < |states| && i < Slots && Stuck(states[0], i)
    ensures states[m].Sized() && Stuck(states[m], i) && states[m].hist[i] == states[0].hist[i]
  {
    if m > 0 {
      StuckSteps(p, states, steps, i, m - 1);
      StepsKeep(p, states, steps, m - 1);
      assert Goes(p, states[m - 1], steps[m - 1], states[m - 1 + 1]);
      StuckStep(p, states[m - 1], steps[m - 1], i);
    }
  }

  /** In every run: once an unsupported request is accepted, nothing ever happens
      to it again, whatever the front, the backend and the memory do. */
  lemma UnsupportedIsNeverAnswered(p: Params, states: seq<State>, steps: seq<Step>, k: nat, m: nat, i: nat)
    requires Run(p, states, steps) && k <= m < |states| && i < Slots
    requires states[k].Sized() && states[k].slots[i].s.status == Pending && !Supported(states[k].slots[i].s)
    ensures states[m].Sized() && states[m].slots[i].s.status == Pending && states[m].hist[i] == states[k].hist[i]
  {
    RunKeeps(p, states, steps, k);
    assert SlotFits(p, states[k], i);
    StuckSteps(p, states[k..], steps[k..], i, m - k);
  }

  /** There are such runs: any unsupported request that waits at the first visit. */
  lemma UnsupportedIsAccepted(p: Params, r: Incoming, env: Env, i: nat)
    requires env.incoming == Some(r) && |r.data| == p.blockSize * r.length && i < Slots
    requires !Supported(ServerRequest(r.code, r.start, r.length, Pending, p.server))
    ensures var states, steps := [Start(), Visit(p, Start(), i, env)], [Visited(i, env)];
            && Run(p, states, steps) && Stuck(states[1], i)
            && states[1].hist[i] == [Accepted(r.code, r.start, r.length, r.data)]
  {
    var t := Processed(p, Released(p, Start(), i), i, env);
    assert Stuck(t, i) && Refused(p, t, i, env) == t;
    assert Replied(p, Polled(p, t, i), i, env) == t;
  }

  /** For example a Sync request of one block. */
  lemma SyncIsAccepted(p: Params, env: Env)
    requires env.incoming == Some(Incoming(3, 0, 1, seq(p.blockSize, _ => 0)))
    ensures Run(p, [Start(), Visit(p, Start(), 0, env)], [Visited(0, env)]) && Stuck(Visit(p, Start(), 0, env), 0)
  {
    UnsupportedIsAccepted(p, env.incoming.value, env, 0);
  }

  /** A visit of a slot whose front request was acknowledged takes the request
      that waits, whatever it is. */
  lemma VisitAccepts(p: Params, st: State, i: nat, env: Env)
    requires Inv(p, st) && Enabled(p, st, Visited(i, env)) && i < Slots
    requires st.slots[i].s.status == Raw && env.incoming.Some?
    ensures var t, r := Visit(p, st, i, env), env.incoming.value;
            && t.slots[i].s == ServerRequest(r.code, r.start, r.length, Pending, p.server) && t.slots[i].front == r.data
            && |t.hist[i]| > |st.hist[i]| && t.hist[i][|st.hist[i]|] == Accepted(r.code, r.start, r.length, r.data)
  {
    ReleasedKeeps(p, st, i);
    var r := Released(p, st, i);
    ProcessedKeeps(p, r, i, env);
    var t := Processed(p, r, i, env);
    NothingRefused(p, t, i, env);
    assert Replied(p, Polled(p, t, i), i, env) == t;
    IssuedKeeps(p, t, i, env);
  }

  /* With room for what is needed, a supported request comes through. */

  /** A visit with memory makes the request of the backend. */
  lemma VisitIssues(p: Params, st: State, i: nat, env: Env)
    requires Inv(p, st) && i < Slots && env.room && st.slots[i].s.status == Pending && st.slots[i].c.status == Raw
    ensures var t := Visit(p, st, i, env);
            && t.slots[i].s == st.slots[i].s
            && (t.slots[i].c.status == Pending && InFlight(t.flight, i) == 1 <==> Supported(st.slots[i].s))
            && |t.hist[i]| >= |st.hist[i]|
  {
    assert SlotFits(p, st, i);
    assert Refused(p, Processed(p, Released(p, st, i), i, env), i, env) == st;
    assert Replied(p, Polled(p, st, i), i, env) == st;
    IssuedKeeps(p, st, i, env);
    if Supported(st.slots[i].s) {
      FillCopies(p, st, i, env);
      InFlightAppend(st.flight, Issued(p, st, i, env).slots[i].c.packet, i);
    }
  }

  lemma PolledDone(p: Params, st: State, i: nat)
    requires Inv(p, st) && i < Slots && st.slots[i].s.status == Pending
    requires st.slots[i].c.status != Raw && InFlight(st.flight, i) == 0
    ensures var t := Polled(p, st, i);
            Done(t.slots[i].c.status) && t.slots[i].c.session == p.client && t.slots[i].s == st.slots[i].s && t.hist == st.hist
  {
    assert SlotFits(p, st, i);
    if st.slots[i].c.status == Pending { PolledAcks(p, st, i); }
  }

  lemma RepliedDone(p: Params, t: State, i: nat, env: Env)
    requires t.Sized() && i < Slots && env.ackOk && t.slots[i].s.session == p.server
    requires Done(t.slots[i].c.status) && t.slots[i].c.session == p.client
    ensures var u := Replied(p, t, i, env);
            && u.slots[i].s.status == Raw && u.slots[i].c == t.slots[i].c
            && |u.hist[i]| == |t.hist[i]| + 1 && u.hist[i][|t.hist[i]|].Acknowledged?
  {
  }

  /** A visit after the backend has finished, with room for the acknowledgement,
      gives it. */
  lemma VisitAnswers(p: Params, st: State, i: nat, env: Env)
    requires Inv(p, st) && i < Slots && env.ackOk && st.slots[i].s.status == Pending
    requires st.slots[i].c.status != Raw && InFlight(st.flight, i) == 0
    ensures Answered(st, Visit(p, st, i, env), i)
  {
    assert st.slots[i].s.session == p.server by { assert SlotFits(p, st, i); }
    assert Refused(p, Processed(p, Released(p, st, i), i, env), i, env) == st;
    PolledDone(p, st, i);
    RepliedDone(p, Polled(p, st, i), i, env);
    var u := Replied(p, Polled(p, st, i), i, env);
    assert Flushed(p, Issued(p, u, i, env), i) == u;
  }

  /** Slot `i`'s request was acknowledged in `t`. */
  ghost predicate Answered(st: State, t: State, i: nat)
    requires st.Sized() && i < Slots
  {
    && t.Sized() && t.slots[i].s.status == Raw
    && |t.hist[i]| > |st.hist[i]| && t.hist[i][|t.hist[i]| - 1].Acknowledged?
  }

  /** A continuation of `st` at whose end slot `i`'s request is acknowledged. */
  ghost predicate Answers(p: Params, st: State, i: nat, states: seq<State>, steps: seq<Step>)
    requires st.Sized() && i < Slots
  {
    Steps(p, states, steps) && states[0] == st && Answered(st, states[|steps|], i)
  }

  lemma OneMoreStep(p: Params, st: State, e: Step, i: nat, states: seq<State>, steps: seq<Step>)
    requires st.Sized() && i < Slots && |states| > 0 && Goes(p, st, e, states[0])
    requires states[0].Sized() && Answers(p, states[0], i, states, steps) && |states[0].hist[i]| >= |st.hist[i]|
    ensures Answers(p, st, i, [st] + states, [e] + steps)
  {
    var ss, es := [st] + states, [e] + steps;
    forall k | 0 <= k < |es| ensures Goes(p, ss[k], es[k], ss[k + 1]) {
      if k > 0 {
        assert Goes(p, states[k - 1], steps[k - 1], states[k - 1 + 1]);
        assert ss[k] == states[k - 1] && es[k] == steps[k - 1] && ss[k + 1] == states[k - 1 + 1];
      }
    }
    assert ss[|es|] == states[|steps|];
  }

  /** What a visit needs to go on. */
  function Plenty(): Env { Env(Option.None, true, _ => 0, true) }

  lemma AnsweredFromDone(p: Params, st: State, i: nat) returns (states: seq<State>, steps: seq<Step>)
    requires Inv(p, st) && i < Slots && st.slots[i].s.status == Pending
    requires st.slots[i].c.status != Raw && InFlight(st.flight, i) == 0
    ensures Answers(p, st, i, states, steps)
  {
    VisitAnswers(p, st, i, Plenty());
    states, steps := [st, Visit(p, st, i, Plenty())], [Visited(i, Plenty())];
  }

  lemma {:induction false} FindInFlight(flight: seq<Packet>, tag: nat) returns (k: nat)
    requires InFlight(flight, tag) > 0
    ensures k < |flight| && flight[k].tag == tag
  {
    if flight[0].tag == tag {
      k := 0;
    } else {
      k := FindInFlight(flight[1..], tag);
      k := k + 1;
    }
  }

  lemma AnsweredFromFlight(p: Params, st: State, i: nat) returns (states: seq<State>, steps: seq<Step>)
    requires Inv(p, st) && i < Slots && st.slots[i].s.status == Pending && st.slots[i].c.status == Pending
    ensures Answers(p, st, i, states, steps)
  {
    assert SlotFits(p, st, i);
    if InFlight(st.flight, i) == 0 {
      states, steps := AnsweredFromDone(p, st, i);
    } else {
      var k := FindInFlight(st.flight, i);
      var e := BackendDone(k, true, st.slots[i].c.content);
      FinishedKeeps(p, st, k, true, st.slots[i].c.content);
      InFlightRemove(st.flight, k, i);
      states, steps := AnsweredFromDone(p, Next(p, st, e), i);
      OneMoreStep(p, st, e, i, states, steps);
      states, steps := [st] + states, [e] + steps;
    }
  }

  lemma SupportedIsAnswered(p: Params, st: State, i: nat) returns (states: seq<State>, steps: seq<Step>)
    requires Inv(p, st) && i < Slots && st.slots[i].s.status == Pending && Supported(st.slots[i].s)
    ensures Answers(p, st, i, states, steps)
  {
    assert SlotFits(p, st, i);
    if st.slots[i].c.status == Raw {
      var e := Visited(i, Plenty());
      VisitKeeps(p, st, i, Plenty());
      VisitIssues(p, st, i, Plenty());
      states, steps := AnsweredFromFlight(p, Next(p, st, e), i);
      OneMoreStep(p, st, e, i, states, steps);
      states, steps := [st] + states, [e] + steps;
    } else if st.slots[i].c.status == Pending {
      states, steps := AnsweredFromFlight(p, st, i);
    } else {
      states, steps := AnsweredFromDone(p, st, i);
    }
  }

  /** In every state of every run, an accepted request can still be acknowledged
      if and only if it is a read or a write of at least one block. */
  lemma AcknowledgedIffSupported(p: Params, states: seq<State>, steps: seq<Step>, k: nat, i: nat)
    requires Run(p, states, steps) && k < |states| && i < Slots
    requires states[k].Sized() && states[k].slots[i].s.status == Pending
    ensures (exists more, rest :: Answers(p, states[k], i, more, rest)) <==> Supported(states[k].slots[i].s)
  {
    var st := states[k];
    RunKeeps(p, states, steps, k);
    assert SlotFits(p, st, i);
    if Supported(st.slots[i].s) {
      var more, rest := SupportedIsAnswered(p, st, i);
    } else {
      forall more, rest | Steps(p, more, rest) && more[0] == st ensures !Answers(p, st, i, more, rest) {
        StuckSteps(p, more, rest, i, |rest|);
      }
    }
  }
}
