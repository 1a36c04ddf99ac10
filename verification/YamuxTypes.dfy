/** 32-bit arithmetic, stream states and frames, with the decisions of stream.go that depend on nothing else. */
module YamuxTypes {
  import opened Bytes

  // ---- unsigned 32-bit arithmetic ----

  const U32: nat := 0x1_0000_0000

  type u32 = x: nat | x < U32

  const INITIAL_STREAM_WINDOW: u32 := 256 * 1024

  function Add32(x: u32, y: u32): u32 {
    (x + y) % U32
  }

  function Sub32(x: u32, y: u32): u32 {
    (x + U32 - y) % U32
  }

  function Not32(x: u32): u32 {
    U32 - 1 - x
  }

  function Min(a: nat, b: nat): nat {
    if a < b then a else b
  }

  /** `atomic.AddUint32(&w, ^uint32(n-1))`: the idiom both windows use to subtract. */
  function AtomicSub(w: u32, n: u32): u32 {
    Add32(w, Not32(Sub32(n, 1)))
  }

  /** The idiom takes `n` away modulo 2^32, also for n = 0, where n-1 wraps. */
  lemma AtomicSubIsSubtraction(w: u32, n: u32)
    ensures AtomicSub(w, n) == (w + U32 - n) % U32
    ensures n <= w ==> AtomicSub(w, n) == w - n
  {
    if n == 0 {
      assert Sub32(0, 1) == U32 - 1;
    } else {
      assert Sub32(n, 1) == n - 1;
    }
  }

  /** A window update that arrives before the subtraction may wrap the stored window; the subtraction
      brings the true value back. */
  lemma ReduceUnwraps(credit: u32, n: u32)
    ensures AtomicSub((credit + n) % U32, n) == credit
  {
    AtomicSubIsSubtraction((credit + n) % U32, n);
  }

  // ---- streams ----

  datatype State = Init | SynSent | SynReceived | Established | LocalClose | RemoteClose | Closed | Reset

  datatype Flags = Flags(syn: bool, ack: bool, fin: bool, rst: bool)

  const NONE := Flags(false, false, false, false)
  const SYN := Flags(true, false, false, false)
  const ACK := Flags(false, true, false, false)
  const FIN := Flags(false, false, true, false)
  const RST := Flags(false, false, false, true)

  /** The bits of the header's 16-bit flag field. */
  function FlagBits(f: Flags): (n: nat)
    ensures n < 16
  {
    (if f.syn then 1 else 0) + (if f.ack then 2 else 0) + (if f.fin then 4 else 0) + (if f.rst then 8 else 0)
  }

  function FlagsOf(n: nat): Flags {
    Flags(n % 2 == 1, n / 2 % 2 == 1, n / 4 % 2 == 1, n / 8 % 2 == 1)
  }

  /** A frame's Length field has 32 bits. */
  type Payload = s: seq<byte> | |s| < U32

  datatype Frame =
    | Data(flags: Flags, payload: Payload)
    | WindowUpdate(flags: Flags, delta: u32)

  function Size(f: Frame): nat {
    if f.Data? then |f.payload| else 0
  }

  function Grant(f: Frame): nat {
    if f.WindowUpdate? then f.delta else 0
  }

  datatype Error = UnexpectedFlag | RecvWindowExceeded | DuplicateStream | UnhandledState | RemoteError

  // ---- decisions ----

  /** sendFlags: the flags the next frame must carry, and the state after announcing them. */
  function SendFlags(state: State): (r: (Flags, State)) {
    match state
    case Init => (SYN, SynSent)
    case SynReceived => (ACK, Established)
    case _ => (NONE, state)
  }

  /** The outcome of processFlags; `leaves` says that the stream is taken out of its session's table. */
  datatype Processed = Processed(state: State, leaves: bool, wakes: bool) | Rejected

  function ProcessFlags(state: State, flags: Flags): Processed {
    if flags.ack then
      Processed(if state.SynSent? then Established else state, false, false)
    else if flags.fin then
      match state
      case SynSent => Processed(RemoteClose, false, true)
      case SynReceived => Processed(RemoteClose, false, true)
      case Established => Processed(RemoteClose, false, true)
      case LocalClose => Processed(Closed, true, true)
      case _ => Rejected
    else if flags.rst then
      Processed(Reset, true, true)
    else
      Processed(state, false, false)
  }

  predicate Notifies(p: Processed) {
    p.Processed? && p.wakes
  }

  /** The locked part of Close; `sendsFin` says that sendClose is still to run. */
  datatype Closing = Closing(state: State, leaves: bool, sendsFin: bool) | Panics

  function CloseState(state: State): Closing {
    match state
    case SynSent => Closing(LocalClose, false, true)
    case SynReceived => Closing(LocalClose, false, true)
    case Established => Closing(LocalClose, false, true)
    case RemoteClose => Closing(Closed, true, true)
    case LocalClose => Closing(state, false, false)
    case Closed => Closing(state, false, false)
    case Reset => Closing(state, false, false)
    case Init => Panics
  }

  /** The delta that sendWindowUpdate computes. */
  function UpdateDelta(max: u32, recvWindow: u32): u32 {
    Sub32(max, recvWindow)
  }

  predicate OmitsUpdate(max: u32, delta: u32, flags: Flags) {
    delta < max / 2 && flags == NONE
  }

  predicate MayWrite(state: State) {
    !state.LocalClose? && !state.Closed? && !state.Reset?
  }

  /** How many bytes one `write` puts into its frame: `uint32(len(b))` truncates the length. */
  function WriteSize(window: u32, length: nat): (n: u32)
    ensures n <= window && n <= length
  {
    Min(window, length % U32)
  }
}
