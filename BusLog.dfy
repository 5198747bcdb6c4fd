/** The two-wire bus as the bias-board code sees it: a log of calls into the
    transport, and the repeater protocol every such log must follow. */
module BusLog {
  import opened Wrappers

  /** One call into the transport. The handle that the transport's setup call
      returns is represented by the 7-bit device address it was opened on. */
  datatype Txn =
    | ByteWrite(dev: int, value: int)             // write(fd, value)
    | RegWrite8(dev: int, reg: int, value: int)   // write8(fd, reg, value)
    | RegWrite16(dev: int, reg: int, value: int)  // write16(fd, reg, value)
    | RegRead16(dev: int, reg: int)               // read16(fd, reg)

  /** Command bytes of the LTC4302 bus repeater. */
  const INSTR_LTCCONNECT := 0xE0     // 0b11100000
  const INSTR_LTCDISCONNECT := 0x60  // 0b01100000

  predicate IsRepeaterTxn(rep: int, t: Txn)
  {
    t.ByteWrite? && t.dev == rep
  }

  /** No call in `inner` is addressed to the repeater `rep`. */
  predicate DeviceOnly(rep: int, inner: seq<Txn>)
  {
    forall i :: 0 <= i < |inner| ==> !IsRepeaterTxn(rep, inner[i])
  }

  /** One device operation: connect the board's bus through repeater `rep`,
      the device calls, then disconnect. */
  function Framed(rep: int, inner: seq<Txn>): (log: seq<Txn>)
    ensures |log| == |inner| + 2
    ensures log[0] == ByteWrite(rep, INSTR_LTCCONNECT)
    ensures log[|log| - 1] == ByteWrite(rep, INSTR_LTCDISCONNECT)
    ensures log[1..|log| - 1] == inner
  {
    [ByteWrite(rep, INSTR_LTCCONNECT)] + inner + [ByteWrite(rep, INSTR_LTCDISCONNECT)]
  }

  /** The repeater link as a two-state machine: `up` says whether the board's bus
      is connected. None means the call breaks the protocol: a device call while
      disconnected, a connect while connected, a disconnect while disconnected,
      or an unknown repeater command. */
  function LinkStep(rep: int, up: bool, t: Txn): (r: Option<bool>)
    ensures !IsRepeaterTxn(rep, t) ==> (r == Some(true) <==> up) && (r == None <==> !up)
    ensures IsRepeaterTxn(rep, t) && t.value == INSTR_LTCCONNECT ==> r == (if up then None else Some(true))
    ensures IsRepeaterTxn(rep, t) && t.value == INSTR_LTCDISCONNECT ==> r == (if up then Some(false) else None)
  {
    if IsRepeaterTxn(rep, t) then
      if t.value == INSTR_LTCCONNECT && !up then Some(true)
      else if t.value == INSTR_LTCDISCONNECT && up then Some(false)
      else None
    else if up then Some(true)
    else None
  }

  /** How many calls of `log` are addressed to the repeater `rep`. */
  function RepeaterCalls(rep: int, log: seq<Txn>): (n: nat)
    ensures n <= |log|
  {
    if log == [] then 0
    else (if IsRepeaterTxn(rep, log[0]) then 1 else 0) + RepeaterCalls(rep, log[1..])
  }

  /** Runs the link machine over a whole log from state `up`: the final state,
      or None if some call breaks the protocol. In a log that keeps the
      protocol, every repeater call toggles the link and nothing else does. */
  function LinkRun(rep: int, up: bool, log: seq<Txn>): (r: Option<bool>)
    ensures r.Some? ==> (r.value <==> (up != (RepeaterCalls(rep, log) % 2 == 1)))
    decreases |log|
  {
    if log == [] then Some(up)
    else
      match LinkStep(rep, up, log[0])
      case None => None
      case Some(next) => LinkRun(rep, next, log[1..])
  }

  /** Running the machine over `a + b` runs it over `a`, then over `b`. */
  lemma {:induction false} LinkRunAppend(rep: int, up: bool, a: seq<Txn>, b: seq<Txn>)
    ensures LinkRun(rep, up, a + b) ==
            match LinkRun(rep, up, a)
            case None => None
            case Some(mid) => LinkRun(rep, mid, b)
    decreases |a|
  {
    if a == [] {
      assert a + b == b;
    } else {
      assert (a + b)[0] == a[0];
      assert (a + b)[1..] == a[1..] + b;
      match LinkStep(rep, up, a[0])
      case None =>
      case Some(next) => LinkRunAppend(rep, next, a[1..], b);
    }
  }

  /** While connected, device calls keep the link connected. */
  lemma {:induction false} LinkRunDevices(rep: int, inner: seq<Txn>)
    requires DeviceOnly(rep, inner)
    ensures LinkRun(rep, true, inner) == Some(true)
    decreases |inner|
  {
    if inner != [] {
      assert !IsRepeaterTxn(rep, inner[0]);
      assert DeviceOnly(rep, inner[1..]) by {
        forall i | 0 <= i < |inner[1..]| ensures !IsRepeaterTxn(rep, inner[1..][i]) {
          assert inner[1..][i] == inner[i + 1];
        }
      }
      LinkRunDevices(rep, inner[1..]);
    }
  }

  /** Appending a connect, device calls and a disconnect appends one framed
      operation; appended to a log that respects the protocol and ends
      disconnected, it gives a log that respects it and ends disconnected. */
  lemma FramedKeepsProtocol(rep: int, log: seq<Txn>, inner: seq<Txn>)
    requires LinkRun(rep, false, log) == Some(false)
    requires DeviceOnly(rep, inner)
    ensures log + [ByteWrite(rep, INSTR_LTCCONNECT)] + inner + [ByteWrite(rep, INSTR_LTCDISCONNECT)]
            == log + Framed(rep, inner)
    ensures LinkRun(rep, false, log + Framed(rep, inner)) == Some(false)
  {
    var c, d := [ByteWrite(rep, INSTR_LTCCONNECT)], [ByteWrite(rep, INSTR_LTCDISCONNECT)];
    LinkRunAppend(rep, false, log, Framed(rep, inner));
    LinkRunAppend(rep, false, c, inner + d);
    assert Framed(rep, inner) == c + (inner + d);
    assert LinkRun(rep, false, c) == Some(true) by {
      assert c[1..] == [];
    }
    LinkRunAppend(rep, true, inner, d);
    LinkRunDevices(rep, inner);
    assert LinkRun(rep, true, d) == Some(false) by {
      assert d[1..] == [];
    }
  }
}
