/** The message server's table of sessions: each slot has a server session and
    a metadata record, and the dispatcher fills and frees them. */
module SlotTable {
  import opened Basics
  import opened Protocol

  /** A server session: its descriptor, the index it was given, and whether it
      has an event capability. */
  datatype Slot = Slot(fd: int, index: Option<nat>, cap: bool)

  const Empty := Slot(-1, None, false)

  /** `open` are the descriptors open in the server's process. */
  datatype Table = Table(slots: seq<Slot>, ready: seq<bool>, idents: seq<Text>, open: set<int>)

  datatype Answer = Confirmed(name: Text, lbl: Text, fd: int) | Rejected(name: Text, lbl: Text)

  /** The dispatcher's event: a request with the client's and the server's
      descriptor (-1 if it was not valid), or a closed session. */
  datatype Event = Asked(client: int, server: int, name: Text, lbl: Text) | Closed(fd: int)

  /** The length of a slot's identifier. */
  const IdentLast: nat := 513

  predicate Initialized(s: Slot) { Valid(s.fd) && s.index.Some? && s.cap }

  /** The component's `Ready`: the session's own index says ready. */
  predicate Ready(t: Table, s: Slot) {
    s.index.Some? && s.index.value < |t.ready| && t.ready[s.index.value]
  }

  /** A slot that a request with this name and label may use. */
  predicate Usable(t: Table, i: nat, name: Text, lbl: Text)
    requires i < |t.slots|
  {
    && !Ready(t, t.slots[i]) && !Initialized(t.slots[i])
    && |name| < IdentLast && |lbl| < IdentLast && |name| + |lbl| + 1 <= IdentLast
  }

  /** The first such slot, or the number of slots. */
  function FirstUsable(t: Table, name: Text, lbl: Text, i: nat): (r: nat)
    requires i <= |t.slots|
    ensures i <= r <= |t.slots|
    ensures r < |t.slots| ==> Usable(t, r, name, lbl)
    ensures forall j :: i <= j < r ==> !Usable(t, j, name, lbl)
    decreases |t.slots| - i
  {
    if i == |t.slots| || Usable(t, i, name, lbl) then i else FirstUsable(t, name, lbl, i + 1)
  }

  lemma {:induction false} OpenIsNotAsked(t: Table, u: Table, name: Text, lbl: Text, i: nat)
    requires i <= |t.slots| && u == t.(open := u.open)
    ensures FirstUsable(t, name, lbl, i) == FirstUsable(u, name, lbl, i)
    decreases |t.slots| - i
  {
    if i < |t.slots| && !Usable(t, i, name, lbl) { OpenIsNotAsked(t, u, name, lbl, i + 1); }
  }

  /** The one array index range, and identifiers of fixed length. */
  ghost predicate Sized(t: Table) {
    |t.slots| == |t.ready| == |t.idents| && forall i :: 0 <= i < |t.idents| ==> |t.idents[i]| == IdentLast
  }

  /** The new text over the beginning of a fixed-length string. */
  function Overwrite(was: Text, text: Text): (r: Text)
    requires |text| <= |was|
    ensures |r| == |was| && text <= r
  {
    text + was[|text|..]
  }

  /** What every event keeps: a slot is ready exactly if it is initialized, and
      then under its own index with its own metadata; live descriptors are open
      and distinct. */
  ghost predicate Good(t: Table) {
    && Sized(t)
    && (forall i :: 0 <= i < |t.slots| ==> SlotOk(t, i))
    && (forall i, j :: 0 <= i < j < |t.slots| && Initialized(t.slots[i]) ==> t.slots[i].fd != t.slots[j].fd)
  }

  ghost predicate SlotOk(t: Table, i: nat)
    requires i < |t.slots| == |t.ready|
  {
    if t.ready[i]
    then Initialized(t.slots[i]) && t.slots[i].index == Some(i) && t.slots[i].fd in t.open
    else t.slots[i] == Empty
  }

  lemma ReadyIffInitialized(t: Table, i: nat)
    requires Good(t) && i < |t.slots|
    ensures Ready(t, t.slots[i]) <==> Initialized(t.slots[i])
    ensures Initialized(t.slots[i]) <==> t.ready[i]
    ensures Initialized(t.slots[i]) ==> t.slots[i].index == Some(i)
  {
    assert SlotOk(t, i);
  }

  predicate ValidRequest(e: Event) { e.Asked? && Valid(e.client) && Valid(e.server) }

  /** Descriptors arrive in pairs, under numbers that are not in use. */
  predicate Possible(t: Table, e: Event) {
    e.Asked? ==>
      && |e.name| <= MaxText && |e.lbl| <= MaxText
      && ((e.client == -1 && e.server == -1)
          || (ValidRequest(e) && e.client != e.server && e.client !in t.open && e.server !in t.open))
  }

  function Arrived(t: Table, e: Event): Table {
    if ValidRequest(e) then t.(open := t.open + {e.client, e.server}) else t
  }

  /** Session `i` is made for the request. */
  function Taken(t: Table, e: Event, i: nat): Table
    requires e.Asked? && i < |t.slots| && Sized(t) && Usable(t, i, e.name, e.lbl)
  {
    t.(slots := t.slots[i := Slot(e.server, Some(i), true)],
       ready := t.ready[i := true],
       idents := t.idents[i := Overwrite(t.idents[i], e.name + ":" + e.lbl)])
  }

  /** Session `i`, whose descriptor was closed, is given up. */
  function Freed(t: Table, i: nat): Table
    requires i < |t.slots| && t.slots[i].index.Some? && t.slots[i].index.value < |t.ready|
  {
    t.(slots := t.slots[i := Empty],
       ready := t.ready[t.slots[i].index.value := false],
       open := t.open - {t.slots[i].fd})
  }

  /** The slot with this descriptor, or the number of slots. */
  function FindFd(t: Table, fd: int, i: nat): (r: nat)
    requires i <= |t.slots|
    ensures i <= r <= |t.slots|
    ensures r < |t.slots| ==> Initialized(t.slots[r]) && t.slots[r].fd == fd
    ensures forall j :: i <= j < r ==> !(Initialized(t.slots[j]) && t.slots[j].fd == fd)
    decreases |t.slots| - i
  {
    if i == |t.slots| || (Initialized(t.slots[i]) && t.slots[i].fd == fd) then i else FindFd(t, fd, i + 1)
  }

  /** The table after an event. */
  ghost function After(t: Table, e: Event): Table
    requires Good(t)
  {
    match e
    case Asked(_, _, name, lbl) =>
      var i := FirstUsable(t, name, lbl, 0);
      if ValidRequest(e) && i < |t.slots| then Taken(Arrived(t, e), e, i) else Arrived(t, e)
    case Closed(fd) =>
      var i := FindFd(t, fd, 0);
      if i < |t.slots| then assert SlotOk(t, i); Freed(t, i) else t
  }

  /** The answers that an event leads to. */
  ghost function Answers(t: Table, e: Event): seq<Answer>
    requires Good(t)
  {
    match e
    case Asked(client, _, name, lbl) =>
      if ValidRequest(e) && FirstUsable(t, name, lbl, 0) < |t.slots| then [Confirmed(name, lbl, client)] else [Rejected(name, lbl)]
    case Closed(_) => []
  }

  lemma AfterSized(t: Table, e: Event)
    requires Good(t)
    ensures Sized(After(t, e)) && |After(t, e).slots| == |t.slots|
  {
    match e
    case Asked(_, _, name, lbl) =>
      var i := FirstUsable(t, name, lbl, 0);
      if ValidRequest(e) && i < |t.slots| {
        assert After(t, e) == Taken(Arrived(t, e), e, i);
      } else {
        assert After(t, e) == Arrived(t, e);
      }
    case Closed(fd) =>
      var i := FindFd(t, fd, 0);
      if i < |t.slots| {
        assert SlotOk(t, i);
        assert After(t, e) == Freed(t, i);
      }
  }

  /** Every event keeps what the table promises. */
  lemma EventKeeps(t: Table, e: Event)
    requires Good(t) && Possible(t, e)
    ensures Good(After(t, e)) && |After(t, e).slots| == |t.slots|
  {
    var u := After(t, e);
    AfterSized(t, e);
    forall i | 0 <= i < |t.slots| ensures SlotOk(u, i) {
      assert SlotOk(t, i);
      match e
      case Asked(_, _, name, lbl) =>
      case Closed(fd) =>
        var f := FindFd(t, fd, 0);
        if f < |t.slots| {
          assert SlotOk(t, f);
          if i < f && Initialized(t.slots[i]) { assert t.slots[i].fd != t.slots[f].fd; }
          if f < i && Initialized(t.slots[i]) { assert t.slots[f].fd != t.slots[i].fd; }
        }
    }
    forall i, j | 0 <= i < j < |t.slots| && Initialized(u.slots[i]) ensures u.slots[i].fd != u.slots[j].fd {
      assert SlotOk(t, i) && SlotOk(t, j);
    }
  }

  /** Slot `i` is the first free one, the request gets it under its own index
      with its own descriptor and identifier, and no other slot changes. */
  ghost predicate TakesSlot(t: Table, e: Event, i: nat)
    requires Good(t) && e.Asked?
  {
    && i < |t.slots| == |After(t, e).idents|
    && !t.ready[i] && (forall j :: 0 <= j < i ==> t.ready[j])
    && After(t, e).slots == t.slots[i := Slot(e.server, Some(i), true)]
    && After(t, e).ready == t.ready[i := true]
    && e.name + ":" + e.lbl <= After(t, e).idents[i]
    && (forall j :: 0 <= j < |t.slots| && j != i ==> After(t, e).idents[j] == t.idents[j])
  }

  /** A valid request is confirmed exactly if some slot is free; it then gets
      the first free slot, with its own descriptor, and no other slot changes.
      Otherwise it is rejected and no slot changes. */
  lemma AcceptedIffFree(t: Table, e: Event)
    requires Good(t) && Possible(t, e) && e.Asked?
    ensures |Answers(t, e)| == 1
    ensures Answers(t, e)[0].Confirmed? <==> ValidRequest(e) && exists i :: 0 <= i < |t.slots| && !t.ready[i]
    ensures Answers(t, e)[0].name == e.name && Answers(t, e)[0].lbl == e.lbl
    ensures Answers(t, e)[0].Confirmed? ==> Answers(t, e)[0].fd == e.client
    ensures Answers(t, e)[0].Confirmed? ==> exists i: nat :: TakesSlot(t, e, i)
    ensures Answers(t, e)[0].Rejected? ==> After(t, e).slots == t.slots && After(t, e).ready == t.ready
  {
    forall i | 0 <= i < |t.slots| ensures Usable(t, i, e.name, e.lbl) <==> !t.ready[i] {
      assert SlotOk(t, i);
    }
    var i := FirstUsable(t, e.name, e.lbl, 0);
    if ValidRequest(e) && i < |t.slots| {
      assert TakesSlot(t, e, i);
    }
  }

  /** A closed session frees the slot with that descriptor, and only that. */
  lemma CloseFreesOne(t: Table, fd: int, i: nat)
    requires Good(t) && i < |t.slots|
    ensures Answers(t, Closed(fd)) == []
    ensures var u := After(t, Closed(fd));
            |u.slots| == |t.slots| == |u.ready| && Sized(t)
            && if Initialized(t.slots[i]) && t.slots[i].fd == fd
               then u.slots[i] == Empty && !u.ready[i] && fd !in u.open
               else u.slots[i] == t.slots[i] && u.ready[i] == t.ready[i]
  {
    var f := FindFd(t, fd, 0);
    assert SlotOk(t, i);
    if f < |t.slots| { assert SlotOk(t, f); }
  }

  /* ---- Event sequences ---- */

  ghost predicate Run(tables: seq<Table>, events: seq<Event>) {
    && |tables| == |events| + 1 && Good(tables[0])
    && forall k :: 0 <= k < |events| ==> Possible(tables[k], events[k]) && (Good(tables[k]) ==> tables[k + 1] == After(tables[k], events[k]))
  }

  lemma {:induction false} TableStaysGood(tables: seq<Table>, events: seq<Event>, k: nat)
    requires Run(tables, events) && k < |tables|
    ensures Good(tables[k]) && |tables[k].slots| == |tables[0].slots|
  {
    if k > 0 {
      TableStaysGood(tables, events, k - 1);
      EventKeeps(tables[k - 1], events[k - 1]);
      assert tables[k - 1 + 1] == After(tables[k - 1], events[k - 1]);
    }
  }

  /* ---- The component ---- */

  class Server {
    var slots: seq<Slot>
    var ready: seq<bool>
    var idents: seq<Text>
    var open: set<int>
    var accepted: bool
    var sent: seq<Answer>

    constructor (n: nat)
      ensures Good(Now()) && |slots| == n && sent == []
    {
      slots := seq(n, _ => Empty);
      ready := seq(n, _ => false);
      idents := seq(n, _ => seq(IdentLast, _ => 0 as char));
      open, accepted, sent := {}, false, [];
    }

    function Now(): Table
      reads this
    {
      Table(slots, ready, idents, open)
    }

    /** `Session_Initialize` of slot `i` under an index, with the component's
        `Initialize` and `Ready`: an index outside the table is given up. */
    method SessionInitialize(server: int, i: nat, index: nat)
      requires i < |slots|
      modifies this`slots, this`ready, this`open
      ensures index < |ready| ==> slots == old(slots)[i := Slot(server, Some(index), true)] && open == old(open)
      ensures index >= |ready| ==> slots == old(slots)[i := Empty] && open == old(open) - {server}
      ensures ready == if index < |old(ready)| then old(ready)[index := true] else old(ready)
    {
      slots := slots[i := Slot(server, Some(index), true)];
      if index < |ready| {
        ready := ready[index := true];
      }
      if !Ready(Now(), slots[i]) {
        open := open - {server};
        slots := slots[i := Empty];
      }
    }

    /** `Session_Cleanup` of slot `i`. */
    method SessionCleanup(cleanFd: int, i: nat)
      requires i < |slots| && Sized(Now())
      requires Initialized(slots[i]) ==> slots[i].index.value < |ready|
      modifies this`slots, this`ready, this`open
      ensures Now() == if Initialized(old(slots[i])) && old(slots[i].fd) == cleanFd then Freed(old(Now()), i) else old(Now())
    {
      if Valid(cleanFd) && cleanFd == slots[i].fd && Initialized(slots[i]) {
        var index := slots[i].index.value;
        if index < |ready| {
          ready := ready[index := false];
        }
        open := open - {slots[i].fd};
        slots := slots[i := Empty];
      }
    }

    /** `Session_Accept`: the client's descriptor goes out with the answer. */
    method SessionAccept(client: int, name: Text, lbl: Text)
      modifies this`sent, this`accepted
      ensures sent == old(sent) + [Confirmed(name, lbl, client)] && accepted
    {
      sent := sent + [Confirmed(name, lbl, client)];
      accepted := true;
    }

    /** The component's `Dispatch`: first the free slot, then the clean-up. */
    method Dispatch(client: int, server: int, cleanFd: int, name: Text, lbl: Text)
      requires Good(Now())
      requires Valid(client) && Valid(server) ==> server in open && !Valid(cleanFd) && forall i :: 0 <= i < |slots| ==> slots[i].fd != server
      modifies this
      ensures var t, e := old(Now()), Asked(client, server, name, lbl);
              var i := FirstUsable(t, name, lbl, 0);
              if ValidRequest(e) && i < |t.slots|
              then Now() == Taken(t, e, i) && sent == old(sent) + [Confirmed(name, lbl, client)] && accepted
              else && Now() == (if Valid(cleanFd) && !ValidRequest(e) then After(t, Closed(cleanFd)) else t)
                   && sent == old(sent) && accepted == old(accepted)
    {
      ghost var t, f := Now(), FirstUsable(Now(), name, lbl, 0);
      if Valid(client) && Valid(server) {
        var i := 0;
        while i < |slots|
          invariant i <= |slots| && t == Now() && f == FirstUsable(t, name, lbl, i)
          invariant sent == old(sent) && accepted == old(accepted)
        {
          assert SlotOk(t, i);
          if !Ready(Now(), slots[i]) && !Initialized(slots[i])
             && |name| < IdentLast && |lbl| < IdentLast && |name| + |lbl| + 1 <= IdentLast {
            SessionInitialize(server, i, i);
            if Ready(Now(), slots[i]) && Initialized(slots[i]) {
              idents := idents[i := Overwrite(idents[i], name + ":" + lbl)];
              SessionAccept(client, name, lbl);
              break;
            }
          }
          i := i + 1;
        }
      }
      forall j | 0 <= j < |slots| && Initialized(slots[j]) ensures slots[j].index.value < |ready| {
        assert SlotOk(t, j);
      }
      Cleanup(cleanFd);
    }

    /** The loop over all sessions that ends `Dispatch`. */
    method Cleanup(cleanFd: int)
      requires Sized(Now())
      requires Valid(cleanFd) ==> Good(Now())
      requires forall i :: 0 <= i < |slots| && Initialized(slots[i]) ==> slots[i].index.value < |ready|
      modifies this`slots, this`ready, this`open
      ensures Now() == if Valid(cleanFd) then After(old(Now()), Closed(cleanFd)) else old(Now())
    {
      ghost var t, f := Now(), FindFd(Now(), cleanFd, 0);
      var j := 0;
      while j < |slots|
        invariant j <= |slots| == |t.slots|
        invariant Valid(cleanFd) && f < j ==> Good(t) && t.slots[f].index.value < |t.ready| && Now() == Freed(t, f)
        invariant !Valid(cleanFd) || j <= f ==> Now() == t
      {
        if Valid(cleanFd) {
          assert SlotOk(t, j);
        }
        SessionCleanup(cleanFd, j);
        j := j + 1;
      }
    }

    /** `Dispatch_Event`. Whatever the event, the table moves as `After` says
        and the answers of the event, and no others, are sent. */
    method DispatchEvent(e: Event)
      requires Good(Now()) && Possible(Now(), e)
      modifies this
      ensures Now() == After(old(Now()), e) && Good(Now())
      ensures sent == old(sent) + Answers(old(Now()), e)
    {
      EventKeeps(Now(), e);
      match e
      case Asked(client, server, name, lbl) =>
        ghost var t := Now();
        accepted := false;
        if Valid(client) && Valid(server) {
          open := open + {client, server};
        }
        forall i | 0 <= i < |slots| ensures SlotOk(Now(), i) && (Valid(client) && Valid(server) ==> slots[i].fd != server) {
          assert SlotOk(t, i);
        }
        OpenIsNotAsked(t, Now(), name, lbl, 0);
        Dispatch(client, server, -1, name, lbl);
        if !accepted {
          sent := sent + [Rejected(name, lbl)];
        }
      case Closed(fd) =>
        Dispatch(-1, -1, fd, "", "");
    }
  }
}
