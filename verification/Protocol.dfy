/** Vocabulary of the session protocol spoken between the broker and its
    components: what a packet says, and the kernel objects that descriptors
    refer to. */
module Protocol {

  /** An 8-bit character, as in Ada's Character. */
  type Latin = c: char | c as int < 256 witness 'a'

  type Text = seq<Latin>

  datatype Action = Request | Confirm | Reject | Register

  datatype Kind = Message | Log | Memory | Rom | Timer

  /** A session label or component name holds at most 255 characters. */
  const MaxText := 255

  /** What a descriptor refers to.  Both ends of one socketpair share `pair`;
      end `false` is the first descriptor that the call returned. */
  datatype Object =
    | End(pair: nat, second: bool)
    | Memfd(id: nat)
    | Timerfd(id: nat)
    | File(path: Text)

  function Peer(o: Object): Object
    requires o.End?
  {
    End(o.pair, !o.second)
  }

  /** A packet in a socket's queue: the decoded message and the objects whose
      descriptors travel with it. */
  datatype Packet = Packet(action: Action, kind: Kind, name: Text, lbl: Text, objs: seq<Object>)

  predicate Valid(fd: int) { fd > -1 }

  /** The kinds of session that a component serves. */
  predicate SessionKind(k: Kind) { k == Message || k == Log || k == Memory }

  /** Everything that was open still is. */
  ghost predicate Extends(open: map<int, Object>, more: map<int, Object>) {
    forall f :: f in open ==> f in more && more[f] == open[f]
  }
}
