/** Startup: the configuration's components are given a socket and a table
    entry each, and its resources are collected. */
module Startup {
  import opened Basics
  import opened Protocol
  import opened Config
  import opened Broker
  import T = BrokerTheorems
  import S = Session

  /** The kernel's answers for one component: its socketpair, and the process
      number that `fork` returns to the parent. */
  datatype Fork = Fork(pair: (int, int), id: nat, pid: int)

  predicate Tagged(n: Node, tag: Text) { n.Element? && n.tag == tag }

  /** The elements with this tag, in order. */
  function Select(children: seq<Node>, tag: Text): (r: seq<Node>)
    ensures forall i :: 0 <= i < |r| ==> Tagged(r[i], tag)
  {
    if children == [] then []
    else (if Tagged(children[0], tag) then [children[0]] else []) + Select(children[1..], tag)
  }

  /** The node itself, if it has the tag. */
  function One(n: Node, tag: Text): seq<Node> { if Tagged(n, tag) then [n] else [] }

  lemma SelectStep(n: Node, rest: seq<Node>, tag: Text)
    ensures Select([n] + rest, tag) == One(n, tag) + Select(rest, tag)
  {
    assert ([n] + rest)[1..] == rest;
  }

  lemma {:induction false} SelectAppend(a: seq<Node>, b: seq<Node>, tag: Text)
    ensures Select(a + b, tag) == Select(a, tag) + Select(b, tag)
  {
    if a == [] {
      assert a + b == b;
    } else {
      var n, rest := a[0], a[1..];
      assert a == [n] + rest && a + b == [n] + (rest + b);
      SelectStep(n, rest, tag);
      SelectStep(n, rest + b, tag);
      SelectAppend(rest, b, tag);
    }
  }

  /** `Find_Sibling`: the first element with this tag at or after `from`. */
  method FindTagged(children: seq<Node>, from: nat, tag: Text) returns (q: nat)
    requires from <= |children|
    ensures from <= q <= |children|
    ensures q < |children| ==> Tagged(children[q], tag)
    ensures Select(children[from..q], tag) == []
    ensures forall j :: from <= j < q ==> !Tagged(children[j], tag)
  {
    q := from;
    while q < |children| && !Tagged(children[q], tag)
      invariant from <= q <= |children|
      invariant Select(children[from..q], tag) == []
      invariant forall j :: from <= j < q ==> !Tagged(children[j], tag)
    {
      SelectAppend(children[from..q], [children[q]], tag);
      assert children[from..q + 1] == children[from..q] + [children[q]];
      assert Select([children[q]], tag) == [] by { assert [children[q]][1..] == []; }
      q := q + 1;
    }
  }

  /** The next element with this tag is the next selected one. */
  method NextTagged(children: seq<Node>, from: nat, tag: Text, ghost all: seq<Node>, ghost index: nat) returns (q: nat)
    requires from <= |children| && index <= |all| && Select(children[from..], tag) == all[index..]
    ensures from <= q <= |children|
    ensures q == |children| <==> index == |all|
    ensures q < |children| ==> children[q] == all[index] && Select(children[q + 1..], tag) == all[index + 1..]
  {
    q := FindTagged(children, from, tag);
    SelectedNext(children, from, q, tag, all, index);
  }

  lemma SelectedNext(children: seq<Node>, from: nat, q: nat, tag: Text, all: seq<Node>, index: nat)
    requires from <= q <= |children| && index <= |all| && Select(children[from..], tag) == all[index..]
    requires Select(children[from..q], tag) == [] && (q < |children| ==> Tagged(children[q], tag))
    ensures q == |children| <==> index == |all|
    ensures q < |children| ==> children[q] == all[index] && Select(children[q + 1..], tag) == all[index + 1..]
  {
    var rest := children[q..];
    assert Select(rest, tag) == all[index..] by {
      SelectAppend(children[from..q], rest, tag);
      assert children[from..] == children[from..q] + rest;
    }
    if q < |children| {
      assert rest[0] == children[q] && rest[1..] == children[q + 1..];
      assert Select(rest, tag) == [children[q]] + Select(children[q + 1..], tag);
      assert all[index] == all[index..][0] && all[index + 1..] == all[index..][1..];
    } else {
      assert rest == [];
    }
  }

  /** Component `j` gets a process exactly if it has a name and a socket, and
      its fork and all forks before it succeeded. */
  ghost predicate Runs(comps: seq<Node>, forks: seq<Fork>, j: nat)
    requires |forks| > j
  {
    && Tries(comps, forks, j)
    && forall i :: 0 <= i <= j ==> !Failed(comps, forks, i)
  }

  /** Component `i` is named and has a socket, so the broker forks for it. */
  predicate Tries(comps: seq<Node>, forks: seq<Fork>, i: nat)
    requires |forks| > i
  {
    i < |comps| && Attribute(comps[i], "name", MaxText).Found? && BothValid(forks[i].pair)
  }

  ghost predicate Failed(comps: seq<Node>, forks: seq<Fork>, i: nat)
    requires |forks| > i
  {
    Tries(comps, forks, i) && forks[i].pid < 0
  }

  ghost predicate EntryFor(c: Component, comps: seq<Node>, forks: seq<Fork>, open: map<int, Object>, j: nat)
    requires |forks| > j
  {
    if Runs(comps, forks, j)
    then c == Component(forks[j].pair.0, At(comps[j]), forks[j].pid, NoServices)
         && c.fd in open && open[c.fd] == End(forks[j].id, false)
    else c.fd == -1 && c.serv == NoServices
  }

  /** The kernel hands out numbers that are not in use, and forks the parent
      with a positive process number or fails. */
  ghost predicate Answers(open: map<int, Object>, forks: seq<Fork>) {
    && (forall j :: 0 <= j < |forks| ==> FreshPair(open, forks[j].pair) && forks[j].pid != 0)
    && (forall i, j :: 0 <= i < j < |forks| && BothValid(forks[i].pair) ==>
          forks[i].pair.0 != forks[j].pair.0 && forks[i].pair.0 != forks[j].pair.1)
  }

  /** `Start_Components`, as seen by the parent. */
  method StartComponents(children: seq<Node>, forks: seq<Fork>, base: map<int, Object>)
    returns (components: seq<Component>, open: map<int, Object>)
    requires Answers(base, forks)
    ensures |components| == |forks|
    ensures forall j :: 0 <= j < |forks| ==> EntryFor(components[j], Select(children, "component"), forks, open, j)
    ensures forall f :: f in base ==> f in open && open[f] == base[f]
  {
    components, open := StartTagged(children, "component", forks, base);
  }

  /** Its loop, over the elements with a tag. */
  method StartTagged(children: seq<Node>, tag: Text, forks: seq<Fork>, base: map<int, Object>)
    returns (components: seq<Component>, open: map<int, Object>)
    requires Answers(base, forks)
    ensures |components| == |forks|
    ensures forall j :: 0 <= j < |forks| ==> EntryFor(components[j], Select(children, tag), forks, open, j)
    ensures forall f :: f in base ==> f in open && open[f] == base[f]
  {
    ghost var comps := Select(children, tag);
    components := seq(|forks|, _ => NoComponent);
    open := base;
    var index, q := 0, 0;
    assert children[0..] == children && comps[0..] == comps;
    while index < |forks|
      invariant 0 <= q <= |children| && 0 <= index <= |forks|
      invariant index <= |comps| && Select(children[q..], tag) == comps[index..]
      invariant Filled(components, comps, forks, base, open, index)
    {
      q := NextTagged(children, q, tag, comps, index);
      if q == |children| {
        break;
      }
      var failed;
      components, open, failed := StartOne(components, comps, forks, base, open, index, children[q]);
      if failed {
        break;
      }
      index, q := index + 1, q + 1;
    }
    KeepEntries(components, comps, forks, base, open, index);
  }

  /** One round: a process for a component element. */
  method StartOne(components: seq<Component>, ghost comps: seq<Node>, forks: seq<Fork>, ghost base: map<int, Object>, open: map<int, Object>, index: nat, node: Node)
    returns (components': seq<Component>, open': map<int, Object>, failed: bool)
    requires Answers(base, forks) && index < |forks| && index < |comps| && node == comps[index]
    requires Filled(components, comps, forks, base, open, index)
    ensures failed ==> Filled(components', comps, forks, base, open', index) && Failed(comps, forks, index)
    ensures !failed ==> Filled(components', comps, forks, base, open', index + 1)
  {
    var name := Attribute(node, "name", MaxText);
    var fork := forks[index];
    components', open', failed := components, open, false;
    FillEntry(components, comps, forks, base, open, index);
    if name.Found? && BothValid(fork.pair) {
      if fork.pid < 0 {
        open', failed := InstallPair(open, fork.pair, fork.id), true;
      } else {
        open' := Install(open, fork.pair.0, End(fork.id, false));
        components' := components[index := Component(fork.pair.0, At(node), fork.pid, NoServices)];
      }
    }
  }

  /** The first `index` entries are as they should be, the others empty. */
  ghost predicate Filled(components: seq<Component>, comps: seq<Node>, forks: seq<Fork>, base: map<int, Object>, open: map<int, Object>, index: nat) {
    && |components| == |forks| && index <= |forks|
    && (forall j :: 0 <= j < index ==> EntryFor(components[j], comps, forks, open, j) && !Failed(comps, forks, j))
    && (forall j :: index <= j < |forks| ==> components[j] == NoComponent)
    && (forall f :: f in base ==> f in open && open[f] == base[f])
  }

  /** The entry just written, or left empty, is the right one. */
  lemma NewEntry(c: Component, comps: seq<Node>, forks: seq<Fork>, open: map<int, Object>, index: nat)
    requires index < |forks| && index < |comps| && forks[index].pid != 0
    requires forall j :: 0 <= j < index ==> !Failed(comps, forks, j)
    requires if Tries(comps, forks, index)
             then forks[index].pid > 0 && c == Component(forks[index].pair.0, At(comps[index]), forks[index].pid, NoServices)
                  && c.fd in open && open[c.fd] == End(forks[index].id, false)
             else c == NoComponent
    ensures EntryFor(c, comps, forks, open, index) && !Failed(comps, forks, index)
  {
    if Tries(comps, forks, index) {
      assert Runs(comps, forks, index);
    }
  }

  /** A new socketpair does not disturb the entries before. */
  lemma PairIsNew(c: Component, comps: seq<Node>, forks: seq<Fork>, base: map<int, Object>, open: map<int, Object>, index: nat, j: nat)
    requires Answers(base, forks) && j < index < |forks| && BothValid(forks[index].pair)
    requires EntryFor(c, comps, forks, open, j)
    ensures EntryFor(c, comps, forks, Install(open, forks[index].pair.0, End(forks[index].id, false)), j)
    ensures EntryFor(c, comps, forks, InstallPair(open, forks[index].pair, forks[index].id), j)
  {
    if Runs(comps, forks, j) {
      assert c.fd == forks[j].pair.0 && forks[j].pair.0 != forks[index].pair.0 && forks[j].pair.0 != forks[index].pair.1;
    }
  }

  /** One round of the loop: the entry is filled, stays empty, or is the one
      whose fork failed. */
  lemma FillEntry(components: seq<Component>, comps: seq<Node>, forks: seq<Fork>, base: map<int, Object>, open: map<int, Object>, index: nat)
    requires Answers(base, forks) && index < |forks| && index < |comps| && Filled(components, comps, forks, base, open, index)
    ensures Tries(comps, forks, index) && forks[index].pid < 0 ==>
              && Filled(components, comps, forks, base, InstallPair(open, forks[index].pair, forks[index].id), index)
              && Failed(comps, forks, index)
    ensures Tries(comps, forks, index) && forks[index].pid >= 0 ==>
              Filled(components[index := Component(forks[index].pair.0, At(comps[index]), forks[index].pid, NoServices)], comps, forks, base,
                     Install(open, forks[index].pair.0, End(forks[index].id, false)), index + 1)
    ensures !Tries(comps, forks, index) ==> Filled(components, comps, forks, base, open, index + 1)
  {
    var fork := forks[index];
    if BothValid(fork.pair) {
      forall j | 0 <= j < index
        ensures EntryFor(components[j], comps, forks, Install(open, fork.pair.0, End(fork.id, false)), j)
        ensures EntryFor(components[j], comps, forks, InstallPair(open, fork.pair, fork.id), j)
      {
        PairIsNew(components[j], comps, forks, base, open, index, j);
      }
    }
    if Tries(comps, forks, index) {
      if fork.pid > 0 {
        NewEntry(Component(fork.pair.0, At(comps[index]), fork.pid, NoServices), comps, forks, Install(open, fork.pair.0, End(fork.id, false)), index);
      }
    } else {
      NewEntry(components[index], comps, forks, open, index);
    }
  }

  /** Entries after the last one that was filled are empty, as they should be. */
  lemma KeepEntries(components: seq<Component>, comps: seq<Node>, forks: seq<Fork>, base: map<int, Object>, open: map<int, Object>, index: nat)
    requires Filled(components, comps, forks, base, open, index)
    requires index == |forks| || index >= |comps| || Failed(comps, forks, index)
    ensures forall j :: 0 <= j < |forks| ==> EntryFor(components[j], comps, forks, open, j)
  {
    forall j | index <= j < |forks| ensures !Runs(comps, forks, j) {
      if j < |comps| { assert index <= j; }
    }
  }

  /** The resource elements that `Parse_Resources` visits: its loop ends when
      the node right after a resource is text. */
  function Collect(children: seq<Node>): (r: seq<Node>)
    ensures forall i :: 0 <= i < |r| ==> Tagged(r[i], "resource")
  {
    if children == [] then []
    else if !Tagged(children[0], "resource") then Collect(children[1..])
    else if |children| > 1 && children[1].Element? then [children[0]] + Collect(children[1..])
    else [children[0]]
  }

  lemma {:induction false} CollectSkips(children: seq<Node>, from: nat, q: nat)
    requires from <= q <= |children| && forall j :: from <= j < q ==> !Tagged(children[j], "resource")
    ensures Collect(children[from..]) == Collect(children[q..])
    decreases q - from
  {
    if from < q {
      CollectSkips(children, from + 1, q);
      assert children[from..][0] == children[from] && children[from..][1..] == children[from + 1..];
    }
  }

  /** `Parse_Resources`. */
  method ParseResources(children: seq<Node>, size: nat) returns (resources: seq<Query>)
    ensures |resources| == size && ResourcesValid(resources)
    ensures var rs := Collect(children);
            forall j :: 0 <= j < size ==> resources[j] == if j < |rs| then At(rs[j]) else Invalid
  {
    ghost var rs := Collect(children);
    resources := seq(size, _ => Invalid);
    var index, q := 0, 0;
    var more := true;
    assert children[0..] == children && rs[0..] == rs;
    while index < size && more
      invariant 0 <= q <= |children| && 0 <= index <= size && |resources| == size
      invariant index <= |rs|
      invariant if more then Collect(children[q..]) == rs[index..] else index == |rs|
      invariant forall j :: 0 <= j < size ==> resources[j] == if j < index then At(rs[j]) else Invalid
      decreases size - index, more
    {
      var f := FindTagged(children, q, "resource");
      CollectSkips(children, q, f);
      if f == |children| {
        assert children[f..] == [];
        more := false;
      } else {
        var rest := children[f..];
        assert rest[0] == children[f] && rest[1..] == children[f + 1..];
        assert rs[index] == rs[index..][0] && rs[index + 1..] == rs[index..][1..];
        resources := resources[index := At(children[f])];
        more := f + 1 < |children| && children[f + 1].Element?;
        index, q := index + 1, f + 1;
      }
    }
  }

  /** A resource directly followed by text. */
  ghost predicate Breaks(children: seq<Node>, i: int) {
    0 <= i < |children| - 1 && Tagged(children[i], "resource") && !children[i + 1].Element?
  }

  /** A resource directly followed by text has another resource after it. */
  ghost predicate Interrupted(children: seq<Node>) {
    exists i, j :: Breaks(children, i) && i < j < |children| && Tagged(children[j], "resource")
  }

  /** All resources are found if and only if no text interrupts them. */
  lemma {:induction false} CollectsAll(children: seq<Node>)
    ensures |Collect(children)| <= |Select(children, "resource")|
    ensures Collect(children) == Select(children, "resource") <==> !Interrupted(children)
  {
    if children != [] {
      var rest := children[1..];
      CollectsAll(rest);
      SelectsSome(rest);
      InterruptedCons(children);
      var c, x := Collect(rest), Select(rest, "resource");
      if Tagged(children[0], "resource") {
        assert ([children[0]] + c)[1..] == c && ([children[0]] + x)[1..] == x;
        assert Select(children, "resource") == [children[0]] + x;
        if rest == [] || !rest[0].Element? {
          assert [children[0]][1..] == [];
        }
      }
    }
  }

  /** For example, a text between two resources hides the second. */
  lemma TextHidesResource(r: Node, t: Text, q: Node)
    requires Tagged(r, "resource") && Tagged(q, "resource")
    ensures var children := [r, Content(t), q];
            Collect(children) == [r] && Select(children, "resource") == [r, q] && Interrupted(children)
  {
    var children := [r, Content(t), q];
    assert Breaks(children, 0);
    assert children[1..] == [Content(t), q] && children[1..][1..] == [q];
    assert Select([q], "resource") == [q] && Select(children[1..], "resource") == [q];
  }

  lemma InterruptedCons(children: seq<Node>)
    requires children != []
    ensures Interrupted(children) <==>
              || Interrupted(children[1..])
              || (Breaks(children, 0)
                  && exists j :: 0 <= j < |children[1..]| && Tagged(children[1..][j], "resource"))
  {
    var rest := children[1..];
    if Interrupted(rest) {
      var i, j :| Breaks(rest, i) && i < j < |rest| && Tagged(rest[j], "resource");
      assert Breaks(children, i + 1) && Tagged(children[j + 1], "resource");
    }
    if Breaks(children, 0) {
      if j :| 0 <= j < |rest| && Tagged(rest[j], "resource") {
        assert Tagged(children[j + 1], "resource");
      }
    }
    if Interrupted(children) {
      var i, j :| Breaks(children, i) && i < j < |children| && Tagged(children[j], "resource");
      assert Tagged(rest[j - 1], "resource");
      if i > 0 {
        assert Breaks(rest, i - 1);
      }
    }
  }

  lemma {:induction false} SelectsSome(children: seq<Node>)
    ensures Select(children, "resource") != [] <==> exists j :: 0 <= j < |children| && Tagged(children[j], "resource")
  {
    if children != [] {
      SelectsSome(children[1..]);
      if j :| 0 <= j < |children[1..]| && Tagged(children[1..][j], "resource") {
        assert Tagged(children[j + 1], "resource");
      }
      if j :| 0 < j < |children| && Tagged(children[j], "resource") {
        assert Tagged(children[1..][j - 1], "resource");
      }
    }
  }

  /** The table that startup leaves satisfies the broker's invariant. */
  lemma StartupTable(st: State, children: seq<Node>, forks: seq<Fork>, base: map<int, Object>)
    requires Answers(base, forks) && |st.components| == |forks| && ResourcesValid(st.resources)
    requires forall j :: 0 <= j < |forks| ==> EntryFor(st.components[j], Select(children, "component"), forks, st.open, j)
    ensures T.TableOk(st)
  {
    var comps := Select(children, "component");
    forall s ensures Valid(T.FdAt(st.components, s)) ==> s.CompSlot? && s.i < |forks| && Runs(comps, forks, s.i) && T.FdAt(st.components, s) == forks[s.i].pair.0 {
      if s.i < |forks| { assert EntryFor(st.components[s.i], comps, forks, st.open, s.i); }
    }
    forall i, k | 0 <= i < |st.components| ensures st.components[i].serv[k] == NoEntry {
      assert EntryFor(st.components[i], comps, forks, st.open, i);
    }
    forall i | 0 <= i < |st.components| && Valid(st.components[i].fd) ensures st.components[i].node.At? && st.components[i].node.node.Element? {
      assert EntryFor(st.components[i], comps, forks, st.open, i);
    }
  }

  /** The configuration node of each table entry. */
  ghost function Nodes(children: seq<Node>, forks: seq<Fork>, root: Node): seq<Node> {
    var comps := Select(children, "component");
    seq(|forks|, j requires 0 <= j => if j < |comps| then comps[j] else root)
  }

  /** The processes that startup leaves, each with its end of its socket. */
  ghost function Procs(children: seq<Node>, forks: seq<Fork>): seq<S.Proc> {
    seq(|forks|, j requires 0 <= j < |forks| =>
      S.Proc(Runs(Select(children, "component"), forks, j), End(forks[j].id, true), S.Idle, map[], S.NoRequest, {}, {}))
  }

  /** Startup leads to a system from which runs start. */
  lemma StartupStarts(st: State, children: seq<Node>, forks: seq<Fork>, base: map<int, Object>, next: nat)
    requires Answers(base, forks) && |st.components| == |forks|
    requires forall j :: 0 <= j < |forks| ==> EntryFor(st.components[j], Select(children, "component"), forks, st.open, j)
    requires forall j :: 0 <= j < |forks| ==> forks[j].id < next
    requires forall i, j :: 0 <= i < j < |forks| ==> forks[i].id != forks[j].id
    ensures S.Start(S.System(st, map[], Procs(children, forks), next), Nodes(children, forks, st.root))
  {
    var s := S.System(st, map[], Procs(children, forks), next);
    var cfg := Nodes(children, forks, st.root);
    forall i | 0 <= i < |cfg| ensures S.Started(s, cfg, i) && st.components[i].serv == NoServices {
      assert EntryFor(st.components[i], Select(children, "component"), forks, st.open, i);
    }
  }
}
