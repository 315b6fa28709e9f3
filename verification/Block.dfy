/** What block clients and block servers share. */
module Block {
  datatype RequestKind = None | Read | Write | Sync | Trim | Undefined

  datatype Status = Raw | Allocated | Pending | Ok | Error

  datatype Result = Success | Retry | OutOfMemory | Unsupported

  /** The status that reports success or failure. */
  function StatusOf(success: bool): Status { if success then Ok else Error }

  /** A server's request code. */
  function ServerKind(code: nat): RequestKind {
    if code == 1 then Read else if code == 2 then Write else if code == 3 then Sync else if code == 4 then Trim else RequestKind.None
  }

  /** A client's operation code, and back. */
  function Opcode(k: RequestKind): int {
    match k
    case Read => 0
    case Write => 1
    case Sync => 2
    case Trim => 3
    case _ => -1
  }

  function ClientKind(opcode: int): RequestKind {
    if opcode == 0 then Read else if opcode == 1 then Write else if opcode == 2 then Sync else if opcode == 3 then Trim else RequestKind.None
  }
}
