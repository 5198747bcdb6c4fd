/** User-facing LNA bias control over the 18 boards of the crate: global
    channel numbers 1..144 and the wiper hill-climb that tunes a channel's
    current or voltage to a set point. */
module ALPACABias {
  import opened Wrappers
  import opened BusLog
  import opened BiasBoardControl

  const NUM_BOARDS := 18
  const CHANNELS_PER_BOARD := 8
  const NUM_CHANNELS := 144

  /** Relative tolerances of the current and voltage loops (5 %). */
  const ITOLERANCE: real := 0.05
  const VTOLERANCE: real := 0.05

  const MAXITER := 256

  /** The iteration guard of the tuning loops reads the module-level `i`,
      which the loop that builds the 18 boards leaves at 18 and which nothing
      increments. */
  const BOARD_LOOP_INDEX := 18

  /** Global channel of board channel `boardchan` (1..8) on board `board` (1..18). */
  function GlobalChannel(board: int, boardchan: int): (c: int)
  {
    (board - 1) * CHANNELS_PER_BOARD + boardchan
  }

  /** Board number `ceil(channel / 8)` and board channel `((channel - 1) % 8) + 1`. */
  function GetBoard(channel: int): (r: (int, int))
    requires 1 <= channel <= NUM_CHANNELS
    ensures 1 <= r.0 <= NUM_BOARDS && 1 <= r.1 <= CHANNELS_PER_BOARD
    ensures (r.0 - 1) * 8 < channel <= r.0 * 8
    ensures GlobalChannel(r.0, r.1) == channel
  {
    ((channel + 7) / 8, (channel - 1) % 8 + 1)
  }

  /** Every board channel of every board is the image of exactly one global channel. */
  lemma GetBoardInverse(board: int, boardchan: int)
    requires 1 <= board <= NUM_BOARDS && 1 <= boardchan <= CHANNELS_PER_BOARD
    ensures 1 <= GlobalChannel(board, boardchan) <= NUM_CHANNELS
    ensures GetBoard(GlobalChannel(board, boardchan)) == (board, boardchan)
  {
  }

  /** Distinct global channels map to distinct (board, board channel) pairs. */
  lemma GetBoardInjective(c: int, c': int)
    requires 1 <= c <= NUM_CHANNELS && 1 <= c' <= NUM_CHANNELS
    ensures GetBoard(c) == GetBoard(c') ==> c == c'
  {
  }

  /** Pot and wiper that drive board channel `ch`: channels 1..4 are the
      wipers of pot 1, channels 5..8 those of pot 2. */
  function PotSelect(ch: int): (r: (int, int))
    requires 1 <= ch <= CHANNELS_PER_BOARD
    ensures r.0 == 1 || r.0 == 2
    ensures 1 <= r.1 <= 4
    ensures (r.0 - 1) * 4 + r.1 == ch
  {
    (if ch <= 4 then 1 else 2, if ch <= 4 then ch else ch - 4)
  }

  function Abs(x: real): (a: real)
  {
    if x < 0.0 then -x else x
  }

  /** `abs(val - target) / target`. */
  function RelErr(val: real, target: real): (e: real)
    requires target != 0.0
    ensures e == 0.0 <==> val == target
    ensures target > 0.0 ==> e >= 0.0
    ensures e * target == Abs(val - target)
  {
    Abs(val - target) / target
  }

  /** `diff < tol` as the loop evaluates it. With a set point of 0 the
      quotient of the numpy measurement by 0 is inf or nan, and the comparison
      is false: a zero set point is never within the tolerance. */
  predicate WithinTolerance(val: real, target: real, tol: real)
  {
    target != 0.0 && RelErr(val, target) < tol
  }

  /** Why a tuning loop stopped: within tolerance, at the top of the wiper range
      while the measurement is low, at the bottom while it is high, the
      iteration guard, or no more measurements to take. */
  datatype Outcome = Converged | AtTop | AtBottom | IterLimit | OutOfReadings

  datatype Decision = Stop(outcome: Outcome) | Move(next: int)

  /** One pass of the loop body at wiper position `pos` with measurement `val`. */
  function Step(pos: int, val: real, target: real, tol: real): (d: Decision)
    ensures d == Stop(Converged) <==> WithinTolerance(val, target, tol)
    ensures d == Stop(AtTop) <==> !WithinTolerance(val, target, tol) && val < target && pos >= 255
    ensures d == Stop(AtBottom) <==> !WithinTolerance(val, target, tol) && val >= target && pos <= 0
    ensures d.Stop? ==> d.outcome in {Converged, AtTop, AtBottom}
    ensures d.Move? ==> (val < target ==> d.next == pos + 1) && (val >= target ==> d.next == pos - 1)
    ensures d.Move? && 0 <= pos <= 255 ==> 0 <= d.next <= 255
  {
    if WithinTolerance(val, target, tol) then Stop(Converged)
    else if val < target then
      if pos >= 255 then Stop(AtTop) else Move(pos + 1)
    else
      if pos <= 0 then Stop(AtBottom) else Move(pos - 1)
  }

  /** A run of the loop: how it stopped, the final wiper position, and the
      positions written to the pot, in order. */
  datatype Run = Run(outcome: Outcome, final: int, written: seq<int>)

  /** The loop from wiper position `pos` over the measurements `readings`;
      `loopIndex` is the value of the module-level `i` that the guard reads. */
  function Climb(pos: int, target: real, tol: real, loopIndex: int, readings: seq<real>): (r: Run)
    ensures |r.written| <= |readings|
    ensures r.outcome == IterLimit <==> loopIndex > MAXITER
    decreases |readings|
  {
    if loopIndex > MAXITER then Run(IterLimit, pos, [])
    else if readings == [] then Run(OutOfReadings, pos, [])
    else
      match Step(pos, readings[0], target, tol)
      case Stop(why) => Run(why, pos, [])
      case Move(next) =>
        var rest := Climb(next, target, tol, loopIndex, readings[1..]);
        Run(rest.outcome, rest.final, [next] + rest.written)
  }

  /** The run, step by step: the i-th measurement moves the wiper from the
      i-th position to the next, the final position is the last one, and the
      run stops exactly where `Step` says so, on the guard, or when the
      measurements run out. */
  lemma {:induction false} ClimbTrace(pos: int, target: real, tol: real, loopIndex: int, readings: seq<real>)
    ensures var r := Climb(pos, target, tol, loopIndex, readings);
            var pts := [pos] + r.written;
            && |r.written| <= |readings|
            && r.final == pts[|pts| - 1]
            && (forall k :: 0 <= k < |r.written| ==> Step(pts[k], readings[k], target, tol) == Move(pts[k + 1]))
            && (r.outcome == IterLimit <==> loopIndex > MAXITER)
            && (r.outcome == IterLimit ==> r.written == [])
            && (r.outcome == OutOfReadings ==> |r.written| == |readings|)
            && (r.outcome in {Converged, AtTop, AtBottom} ==>
                  |r.written| < |readings| && Step(r.final, readings[|r.written|], target, tol) == Stop(r.outcome))
    decreases |readings|
  {
    if loopIndex <= MAXITER && readings != [] {
      match Step(pos, readings[0], target, tol)
      case Stop(why) =>
      case Move(next) =>
        ClimbTrace(next, target, tol, loopIndex, readings[1..]);
        var rest := Climb(next, target, tol, loopIndex, readings[1..]);
        var pts, pts' := [pos] + ([next] + rest.written), [next] + rest.written;
        forall k | 0 <= k < |[next] + rest.written|
          ensures Step(pts[k], readings[k], target, tol) == Move(pts[k + 1])
        {
          if k > 0 {
            assert pts[k] == pts'[k - 1] && pts[k + 1] == pts'[k] && readings[k] == readings[1..][k - 1];
          }
        }
    }
  }

  /** Each write moves the wiper by exactly one: up after a measurement below
      the set point, down after one at or above it, and only after a
      measurement outside the tolerance. */
  lemma ClimbUnitSteps(pos: int, target: real, tol: real, loopIndex: int, readings: seq<real>)
    ensures var r := Climb(pos, target, tol, loopIndex, readings);
            var pts := [pos] + r.written;
            |r.written| <= |readings| &&
            forall k :: 0 <= k < |r.written| ==>
              && !WithinTolerance(readings[k], target, tol)
              && (readings[k] < target ==> pts[k + 1] == pts[k] + 1)
              && (readings[k] >= target ==> pts[k + 1] == pts[k] - 1)
  {
    ClimbTrace(pos, target, tol, loopIndex, readings);
    var r := Climb(pos, target, tol, loopIndex, readings);
    var pts := [pos] + r.written;
    forall k | 0 <= k < |r.written|
      ensures !WithinTolerance(readings[k], target, tol)
      ensures readings[k] < target ==> pts[k + 1] == pts[k] + 1
      ensures readings[k] >= target ==> pts[k + 1] == pts[k] - 1
    {
      var d := Step(pts[k], readings[k], target, tol);
      assert d == Move(pts[k + 1]);
    }
  }

  /** Started inside the wiper range, the loop only ever writes positions in 0..255. */
  lemma {:induction false} ClimbInRange(pos: int, target: real, tol: real, loopIndex: int, readings: seq<real>)
    requires 0 <= pos <= 255
    ensures var r := Climb(pos, target, tol, loopIndex, readings);
            0 <= r.final <= 255 && forall k :: 0 <= k < |r.written| ==> 0 <= r.written[k] <= 255
    decreases |readings|
  {
    if loopIndex <= MAXITER && readings != [] {
      match Step(pos, readings[0], target, tol)
      case Stop(why) =>
      case Move(next) =>
        ClimbInRange(next, target, tol, loopIndex, readings[1..]);
        var rest := Climb(next, target, tol, loopIndex, readings[1..]);
        forall k | 0 <= k < |[next] + rest.written| ensures 0 <= ([next] + rest.written)[k] <= 255 {
          if k > 0 {
            assert ([next] + rest.written)[k] == rest.written[k - 1];
          }
        }
    }
  }

  /** With the value the module actually leaves in `i`, the guard never fires. */
  lemma BoardLoopIndexNeverStops(pos: int, target: real, tol: real, readings: seq<real>)
    ensures Climb(pos, target, tol, BOARD_LOOP_INDEX, readings).outcome != IterLimit
  {
  }

  /** `n` pairs of measurements, one below the set point, then one above it. */
  function Oscillating(lo: real, hi: real, n: nat): (rs: seq<real>)
    ensures |rs| == 2 * n
  {
    if n == 0 then [] else [lo, hi] + Oscillating(lo, hi, n - 1)
  }

  /** No bound on the loop: measurements that alternate around the set point,
      each outside the tolerance, move the wiper up and back down forever, so
      however many are supplied, the loop consumes them all. */
  lemma {:induction false} OscillationNeverStops(pos: int, target: real, tol: real, lo: real, hi: real, n: nat)
    requires 0 <= pos < 255
    requires lo < target <= hi
    requires !WithinTolerance(lo, target, tol) && !WithinTolerance(hi, target, tol)
    ensures var r := Climb(pos, target, tol, BOARD_LOOP_INDEX, Oscillating(lo, hi, n));
            r.outcome == OutOfReadings && r.final == pos && |r.written| == 2 * n
  {
    if n > 0 {
      var rest := Oscillating(lo, hi, n - 1);
      var rs := Oscillating(lo, hi, n);
      assert rs[0] == lo && rs[1..] == [hi] + rest;
      assert ([hi] + rest)[0] == hi && ([hi] + rest)[1..] == rest;
      OscillationNeverStops(pos, target, tol, lo, hi, n - 1);
    }
  }

  /** Unfolding `Climb` at a measurement that moves the wiper. */
  lemma ClimbMoves(pos: int, target: real, tol: real, loopIndex: int, readings: seq<real>, next: int)
    requires loopIndex <= MAXITER && readings != []
    requires Step(pos, readings[0], target, tol) == Move(next)
    ensures var rest := Climb(next, target, tol, loopIndex, readings[1..]);
            Climb(pos, target, tol, loopIndex, readings) == Run(rest.outcome, rest.final, [next] + rest.written)
  {
  }

  /** Unfolding `Climb` at a measurement that stops the loop. */
  lemma ClimbStops(pos: int, target: real, tol: real, loopIndex: int, readings: seq<real>)
    requires loopIndex <= MAXITER && readings != []
    requires Step(pos, readings[0], target, tol).Stop?
    ensures Climb(pos, target, tol, loopIndex, readings) == Run(Step(pos, readings[0], target, tol).outcome, pos, [])
  {
  }

  /** A set point of 0 is never reached: with measurements that are not
      negative, every pass moves the wiper one step down and writes it, until
      the loop stops at the bottom of the range. */
  lemma {:induction false} ZeroSetPointWalksDown(pos: int, tol: real, readings: seq<real>)
    requires 0 <= pos < |readings|
    requires forall k :: 0 <= k < |readings| ==> readings[k] >= 0.0
    ensures var r := Climb(pos, 0.0, tol, BOARD_LOOP_INDEX, readings);
            && r.outcome == AtBottom && r.final == 0 && |r.written| == pos
            && forall k :: 0 <= k < pos ==> r.written[k] == pos - 1 - k
    decreases pos
  {
    if pos > 0 {
      var rest := readings[1..];
      assert forall k :: 0 <= k < |rest| ==> rest[k] == readings[k + 1];
      ZeroSetPointWalksDown(pos - 1, tol, rest);
      var r' := Climb(pos - 1, 0.0, tol, BOARD_LOOP_INDEX, rest);
      var w := [pos - 1] + r'.written;
      forall k | 0 <= k < pos ensures w[k] == pos - 1 - k {
        if k > 0 {
          assert w[k] == r'.written[k - 1];
        }
      }
    }
  }

  /** `total` is the run `rest` preceded by the positions `written`. */
  predicate Resumes(total: Run, written: seq<int>, rest: Run)
  {
    total == Run(rest.outcome, rest.final, written + rest.written)
  }

  lemma {:induction false} PotFramesAppend(addr: int, pot: int, wiper: int, values: seq<int>, v: int)
    requires 1 <= addr <= 18
    ensures PotFrames(addr, pot, wiper, values + [v]) == PotFrames(addr, pot, wiper, values) + PotFrame(addr, pot, wiper, v)
    decreases |values|
  {
    if values == [] {
      assert [] + [v] == [v];
    } else {
      assert (values + [v])[1..] == values[1..] + [v];
      PotFramesAppend(addr, pot, wiper, values[1..], v);
    }
  }

  /** Since the start of the run, only wiper `wipernum` of pot `potnum` has
      changed, to `pos`, and each position in `written` was sent with one
      framed pot write. */
  twostate predicate Persisted(bd: BiasBoard, potnum: int, wipernum: int, pos: int, written: seq<int>)
    reads bd
    requires old(bd.Valid()) && (potnum == 1 || potnum == 2) && 1 <= wipernum <= 4
  {
    && bd.Valid()
    && bd.GetPot(potnum, wipernum) == pos
    && (bd.pot1, bd.pot2) == WriteWiper(old(bd.pot1), old(bd.pot2), potnum, wipernum, pos)
    && bd.pinstate == old(bd.pinstate)
    && bd.bus == old(bd.bus) + PotFrames(bd.addr, potnum, wipernum, written)
  }

  /** The state a tuning run leaves: the outcome and final position are those
      of `Climb` from the shadowed wiper position, and the run's positions are
      persisted to the selected wiper. */
  twostate predicate Tuned(bd: BiasBoard, ch: int, target: real, tol: real, loopIndex: int,
                           readings: seq<real>, outcome: Outcome, wiperpos: int)
    reads bd
    requires old(bd.Valid()) && 1 <= ch <= CHANNELS_PER_BOARD
  {
    var (potnum, wipernum) := PotSelect(ch);
    var r := Climb(old(bd.GetPot(potnum, wipernum)), target, tol, loopIndex, readings);
    && outcome == r.outcome
    && wiperpos == r.final
    && Persisted(bd, potnum, wipernum, r.final, r.written)
  }

  /** The loop shared by `iLNA` and `vLNA`: starting from the shadowed wiper
      position, step the wiper by one towards the set point after each
      measurement in `readings` until the relative error is below `tol` or
      the wiper range is exhausted. */
  method Tune(bd: BiasBoard, ch: int, target: real, tol: real, loopIndex: int, readings: seq<real>)
    returns (outcome: Outcome, wiperpos: int)
    requires bd.Valid()
    requires 1 <= ch <= CHANNELS_PER_BOARD
    modifies bd
    ensures bd.Valid()
    ensures Tuned(bd, ch, target, tol, loopIndex, readings, outcome, wiperpos)
  {
    var (potnum, wipernum) := PotSelect(ch);
    wiperpos := bd.GetPot(potnum, wipernum);
    ghost var total := Climb(wiperpos, target, tol, loopIndex, readings);
    ghost var written: seq<int> := [];
    var pending := readings;
    assert WriteWiper(bd.pot1, bd.pot2, potnum, wipernum, wiperpos) == (bd.pot1, bd.pot2);
    assert Resumes(total, written, Climb(wiperpos, target, tol, loopIndex, pending));
    while true
      invariant 0 <= wiperpos <= 255
      invariant Resumes(total, written, Climb(wiperpos, target, tol, loopIndex, pending))
      invariant Persisted(bd, potnum, wipernum, wiperpos, written)
      decreases |pending|
    {
      if loopIndex > MAXITER {
        outcome := IterLimit;
        assert written + [] == written;
        break;
      }
      if pending == [] {
        outcome := OutOfReadings;
        assert written + [] == written;
        break;
      }
      ghost var prev, rs := wiperpos, pending;
      var val := pending[0];
      pending := pending[1..];
      match Step(wiperpos, val, target, tol)
      case Stop(why) =>
        outcome := why;
        ClimbStops(wiperpos, target, tol, loopIndex, rs);
        assert written + [] == written;
        break;
      case Move(next) =>
        wiperpos := next;
        bd.SetPot(potnum, wipernum, wiperpos);
        ClimbMoves(prev, target, tol, loopIndex, rs, wiperpos);
        ghost var rest := Climb(wiperpos, target, tol, loopIndex, pending);
        assert written + ([wiperpos] + rest.written) == (written + [wiperpos]) + rest.written;
        WriteWiperTwice(old(bd.pot1), old(bd.pot2), potnum, wipernum, prev, wiperpos);
        PotFramesAppend(bd.addr, potnum, wipernum, written, wiperpos);
        written := written + [wiperpos];
    }
  }

  /** `iLNA`: tune global channel `chan` to the set current `setCurrent` (mA);
      `currents` are the successive current measurements of that channel. */
  method ILna(boards: seq<BiasBoard>, chan: int, setCurrent: real, currents: seq<real>)
    returns (outcome: Outcome, wiperpos: int)
    requires |boards| == NUM_BOARDS
    requires 1 <= chan <= NUM_CHANNELS
    requires forall k :: 0 <= k < NUM_BOARDS ==> boards[k].addr == k + 1
    requires boards[GetBoard(chan).0 - 1].Valid()
    modifies boards[GetBoard(chan).0 - 1]
    ensures boards[GetBoard(chan).0 - 1].addr == GetBoard(chan).0
    ensures boards[GetBoard(chan).0 - 1].Valid()
    ensures Tuned(boards[GetBoard(chan).0 - 1], GetBoard(chan).1, setCurrent, ITOLERANCE, BOARD_LOOP_INDEX,
                  currents, outcome, wiperpos)
    ensures outcome != IterLimit
  {
    var (b, ch) := GetBoard(chan);
    var bd := boards[b - 1];
    BoardLoopIndexNeverStops(bd.GetPot(PotSelect(ch).0, PotSelect(ch).1), setCurrent, ITOLERANCE, currents);
    outcome, wiperpos := Tune(bd, ch, setCurrent, ITOLERANCE, BOARD_LOOP_INDEX, currents);
  }

  /** `vLNA`: tune global channel `chan` to the set voltage `setVoltage` (V);
      `voltages` are the successive bus-voltage measurements of that channel. */
  method VLna(boards: seq<BiasBoard>, chan: int, setVoltage: real, voltages: seq<real>)
    returns (outcome: Outcome, wiperpos: int)
    requires |boards| == NUM_BOARDS
    requires 1 <= chan <= NUM_CHANNELS
    requires forall k :: 0 <= k < NUM_BOARDS ==> boards[k].addr == k + 1
    requires boards[GetBoard(chan).0 - 1].Valid()
    modifies boards[GetBoard(chan).0 - 1]
    ensures boards[GetBoard(chan).0 - 1].addr == GetBoard(chan).0
    ensures boards[GetBoard(chan).0 - 1].Valid()
    ensures Tuned(boards[GetBoard(chan).0 - 1], GetBoard(chan).1, setVoltage, VTOLERANCE, BOARD_LOOP_INDEX,
                  voltages, outcome, wiperpos)
    ensures outcome != IterLimit
  {
    var (b, ch) := GetBoard(chan);
    var bd := boards[b - 1];
    BoardLoopIndexNeverStops(bd.GetPot(PotSelect(ch).0, PotSelect(ch).1), setVoltage, VTOLERANCE, voltages);
    outcome, wiperpos := Tune(bd, ch, setVoltage, VTOLERANCE, BOARD_LOOP_INDEX, voltages);
  }
}
