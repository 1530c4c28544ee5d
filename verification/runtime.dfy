/**
  The tape state of a Mojikun program: an instruction pointer, a data pointer
  and a vector of signed 8-bit cells.

  Every manipulator is a pure update. The points where the Rust code panics
  (an unsigned underflow or overflow of a pointer, a checked `i8` overflow in a
  debug build, an out-of-bounds index into the cell vector) are preconditions:
  nothing here wraps, clamps or reports a typed error, because the code does
  none of that.
*/
module Runtime {

  /** `usize` on a 64-bit target. */
  const USIZE_MAX: int := 0xFFFF_FFFF_FFFF_FFFF
  type Usize = x: int | 0 <= x <= USIZE_MAX

  const I8_MIN: int := -128
  const I8_MAX: int := 127
  /** A cell of the data array, Rust's `i8`. */
  type Cell = x: int | I8_MIN <= x <= I8_MAX

  /** Number of cells a fresh runtime has. */
  const TAPE_LENGTH: nat := 30000

  datatype Runtime = Runtime(ip: Usize, dp: Usize, data: seq<Cell>)

  /** A runtime with both pointers at 0 and `TAPE_LENGTH` zero cells. */
  function New(): (r: Runtime)
    ensures r.ip == 0 && r.dp == 0
    ensures |r.data| == TAPE_LENGTH
    ensures forall i :: 0 <= i < |r.data| ==> r.data[i] == 0
  {
    Runtime(0, 0, seq(TAPE_LENGTH, _ => 0))
  }

  // MANIPULATORS

  function IncrementInstructionPointer(rt: Runtime): Runtime
    requires rt.ip < USIZE_MAX
  {
    rt.(ip := rt.ip + 1)
  }

  function SetInstructionPointer(rt: Runtime, val: Usize): Runtime
  {
    rt.(ip := val)
  }

  function IncrementDataPointer(rt: Runtime): Runtime
    requires rt.dp < USIZE_MAX
  {
    rt.(dp := rt.dp + 1)
  }

  /** Underflows (and so panics) when the data pointer is 0. */
  function DecrementDataPointer(rt: Runtime): Runtime
    requires rt.dp > 0
  {
    rt.(dp := rt.dp - 1)
  }

  /** Overwrites the cell under the data pointer and nothing else. */
  function SetData(rt: Runtime, val: Cell): (r: Runtime)
    requires rt.dp < |rt.data|
    ensures r.ip == rt.ip && r.dp == rt.dp && |r.data| == |rt.data|
    ensures r.data[rt.dp] == val
    ensures forall i :: 0 <= i < |rt.data| && i != rt.dp ==> r.data[i] == rt.data[i]
  {
    rt.(data := rt.data[rt.dp := val])
  }

  /** Checked `+= 1` on the cell under the data pointer: 127 overflows. */
  function IncrementData(rt: Runtime): Runtime
    requires rt.dp < |rt.data|
    requires rt.data[rt.dp] < I8_MAX
  {
    rt.(data := rt.data[rt.dp := rt.data[rt.dp] + 1])
  }

  /** Checked `-= 1` on the cell under the data pointer: -128 overflows. */
  function DecrementData(rt: Runtime): Runtime
    requires rt.dp < |rt.data|
    requires rt.data[rt.dp] > I8_MIN
  {
    rt.(data := rt.data[rt.dp := rt.data[rt.dp] - 1])
  }

  // ACCESSORS

  function InstructionPointer(rt: Runtime): Usize
  {
    rt.ip
  }

  function DataPointer(rt: Runtime): Usize
  {
    rt.dp
  }

  /** The cell under the data pointer. */
  function Data(rt: Runtime): Cell
    requires rt.dp < |rt.data|
  {
    rt.data[rt.dp]
  }

  // PROPERTIES OF SINGLE MANIPULATORS

  /** `increment_instruction_pointer` is `set_instruction_pointer(ip + 1)`;
      neither touches the data pointer or the cells. */
  lemma InstructionPointerManipulators(rt: Runtime, val: Usize)
    ensures var r := SetInstructionPointer(rt, val);
      InstructionPointer(r) == val && r.dp == rt.dp && r.data == rt.data
    ensures rt.ip < USIZE_MAX ==>
      var r := IncrementInstructionPointer(rt);
      r == SetInstructionPointer(rt, rt.ip + 1)
      && InstructionPointer(r) == InstructionPointer(rt) + 1
      && r.dp == rt.dp && r.data == rt.data
  {
  }

  /** Moving the data pointer right then left (or left then right) restores
      the whole runtime. */
  lemma DataPointerRoundTrip(rt: Runtime)
    ensures rt.dp < USIZE_MAX ==>
      DataPointer(IncrementDataPointer(rt)) == DataPointer(rt) + 1
      && DecrementDataPointer(IncrementDataPointer(rt)) == rt
    ensures rt.dp > 0 ==>
      DataPointer(DecrementDataPointer(rt)) == DataPointer(rt) - 1
      && IncrementDataPointer(DecrementDataPointer(rt)) == rt
  {
  }

  /** `set_data(v)` then `data()` yields `v`; storing the value just read
      changes nothing; a second store overrides the first. */
  lemma SetDataThenData(rt: Runtime, v: Cell, w: Cell)
    requires rt.dp < |rt.data|
    ensures Data(SetData(rt, v)) == v
    ensures SetData(rt, Data(rt)) == rt
    ensures SetData(SetData(rt, v), w) == SetData(rt, w)
  {
  }

  /** Incrementing or decrementing the cell is storing its successor or
      predecessor, and the two undo each other. */
  lemma IncrementDecrementData(rt: Runtime)
    requires rt.dp < |rt.data|
    ensures rt.data[rt.dp] < I8_MAX ==>
      IncrementData(rt) == SetData(rt, Data(rt) + 1)
      && Data(IncrementData(rt)) == Data(rt) + 1
      && DecrementData(IncrementData(rt)) == rt
    ensures rt.data[rt.dp] > I8_MIN ==>
      DecrementData(rt) == SetData(rt, Data(rt) - 1)
      && Data(DecrementData(rt)) == Data(rt) - 1
      && IncrementData(DecrementData(rt)) == rt
  {
  }

  // SEQUENCES OF MANIPULATOR CALLS

  /** One call of a manipulator on a `Runtime`. */
  datatype Manipulator =
    | IncrementIp
    | SetIp(ipVal: Usize)
    | IncrementDp
    | DecrementDp
    | SetCell(cellVal: Cell)
    | IncrementCell
    | DecrementCell
  {
    predicate MovesIp() { IncrementIp? || SetIp? }
    predicate MovesDp() { IncrementDp? || DecrementDp? }
    predicate WritesCell() { SetCell? || IncrementCell? || DecrementCell? }
  }

  /** The call returns on `rt` instead of panicking. */
  predicate Defined(rt: Runtime, m: Manipulator)
  {
    match m
    case IncrementIp => rt.ip < USIZE_MAX
    case SetIp(_) => true
    case IncrementDp => rt.dp < USIZE_MAX
    case DecrementDp => rt.dp > 0
    case SetCell(_) => rt.dp < |rt.data|
    case IncrementCell => rt.dp < |rt.data| && rt.data[rt.dp] < I8_MAX
    case DecrementCell => rt.dp < |rt.data| && rt.data[rt.dp] > I8_MIN
  }

  /** Each manipulator changes one part of the runtime: the instruction
      pointer, the data pointer, or the single cell under the data pointer. */
  function Apply(rt: Runtime, m: Manipulator): (r: Runtime)
    requires Defined(rt, m)
    ensures |r.data| == |rt.data|
    ensures !m.MovesIp() ==> r.ip == rt.ip
    ensures !m.MovesDp() ==> r.dp == rt.dp
    ensures m.MovesDp() ==> r.dp != rt.dp
    ensures !m.WritesCell() ==> r.data == rt.data
    ensures forall i :: 0 <= i < |rt.data| && i != rt.dp ==> r.data[i] == rt.data[i]
  {
    match m
    case IncrementIp => IncrementInstructionPointer(rt)
    case SetIp(v) => SetInstructionPointer(rt, v)
    case IncrementDp => IncrementDataPointer(rt)
    case DecrementDp => DecrementDataPointer(rt)
    case SetCell(v) => SetData(rt, v)
    case IncrementCell => IncrementData(rt)
    case DecrementCell => DecrementData(rt)
  }

  /** No call of `ms`, made in order from `rt`, panics. */
  predicate Succeeds(rt: Runtime, ms: seq<Manipulator>)
    decreases |ms|
  {
    |ms| == 0 || (Defined(rt, ms[0]) && Succeeds(Apply(rt, ms[0]), ms[1..]))
  }

  /** The positions of the cells the calls `ms`, made in order from `rt`,
      write to: the data pointer at the time of each write. */
  function WrittenCells(rt: Runtime, ms: seq<Manipulator>): set<int>
    requires Succeeds(rt, ms)
    decreases |ms|
  {
    if |ms| == 0 then {}
    else
      (if ms[0].WritesCell() then {rt.dp} else {})
      + WrittenCells(Apply(rt, ms[0]), ms[1..])
  }

  /** The runtime after the calls `ms`. Whatever the calls, the cell vector
      keeps its length, a cell no call writes keeps its value, and a part of
      the runtime no call manipulates keeps its value. */
  function Run(rt: Runtime, ms: seq<Manipulator>): (r: Runtime)
    requires Succeeds(rt, ms)
    ensures |r.data| == |rt.data|
    ensures forall i :: 0 <= i < |rt.data| && i !in WrittenCells(rt, ms) ==> r.data[i] == rt.data[i]
    ensures (forall k :: 0 <= k < |ms| ==> !ms[k].MovesIp()) ==> r.ip == rt.ip
    ensures (forall k :: 0 <= k < |ms| ==> !ms[k].MovesDp()) ==> r.dp == rt.dp
    ensures (forall k :: 0 <= k < |ms| ==> !ms[k].WritesCell()) ==> r.data == rt.data
    decreases |ms|
  {
    if |ms| == 0 then rt
    else
      var r := Run(Apply(rt, ms[0]), ms[1..]);
      assert forall k :: 0 <= k < |ms| - 1 ==> ms[1..][k] == ms[k + 1];
      r
  }

  /** Running `a` then `b` is running `a + b`, and it succeeds exactly when
      both halves do. */
  lemma {:induction false} RunAppend(rt: Runtime, a: seq<Manipulator>, b: seq<Manipulator>)
    ensures Succeeds(rt, a + b) <==> Succeeds(rt, a) && Succeeds(Run(rt, a), b)
    ensures Succeeds(rt, a + b) ==> Run(rt, a + b) == Run(Run(rt, a), b)
    decreases |a|
  {
    if |a| == 0 {
      assert a + b == b;
    } else {
      assert (a + b)[0] == a[0];
      assert (a + b)[1..] == a[1..] + b;
      if Defined(rt, a[0]) {
        RunAppend(Apply(rt, a[0]), a[1..], b);
      }
    }
  }

  /** Every runtime reached from `New()` by manipulator calls has exactly
      `TAPE_LENGTH` cells. So `set_data` panics exactly when the data pointer
      is at or beyond `TAPE_LENGTH`, and `increment_data`/`decrement_data`
      panic exactly then or when the cell is at 127/-128. The first move left
      from a fresh runtime underflows. */
  lemma ReachableTape(ms: seq<Manipulator>, v: Cell)
    requires Succeeds(New(), ms)
    ensures |Run(New(), ms).data| == TAPE_LENGTH
    ensures var r := Run(New(), ms);
      && (Defined(r, SetCell(v)) <==> r.dp < TAPE_LENGTH)
      && (Defined(r, IncrementCell) <==> r.dp < TAPE_LENGTH && r.data[r.dp] < I8_MAX)
      && (Defined(r, DecrementCell) <==> r.dp < TAPE_LENGTH && r.data[r.dp] > I8_MIN)
    ensures !Defined(New(), DecrementDp)
  {
  }

  /** The unit tests of the runtime, stated of the model. */
  lemma RuntimeUnitTests()
    ensures InstructionPointer(New()) == 0 && DataPointer(New()) == 0
    ensures New().data == seq(TAPE_LENGTH, _ => 0) && Data(New()) == 0
    ensures DataPointer(IncrementDataPointer(New())) == 1
    ensures DataPointer(Run(New(), [IncrementDp, IncrementDp, DecrementDp])) == 1
    ensures Data(IncrementData(New())) == 1
    ensures Data(DecrementData(New())) == -1
    ensures Data(SetData(New(), 127)) == 127
    ensures InstructionPointer(SetInstructionPointer(New(), 2)) == 2
    ensures InstructionPointer(IncrementInstructionPointer(New())) == 1
  {
    var r0 := New();
    var r1 := Apply(r0, IncrementDp);
    var r2 := Apply(r1, IncrementDp);
    var ms := [IncrementDp, IncrementDp, DecrementDp];
    assert ms[1..][1..] == [DecrementDp];
    assert Succeeds(r2, [DecrementDp]);
    assert Succeeds(r0, ms);
  }
}
