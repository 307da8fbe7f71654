/**
 The RP2040/RP2350 PIO state machine, as far as the two programs of the firmware use it: decoding of the
 16-bit instruction words, and the effect of one instruction on registers, pins, FIFOs and the cycle count.
 Both programs are interpreted from the words pioasm generated.
 */
module PioMachine {
  import opened Bits

  datatype Condition = Always | XDec | NotY | YDec
  datatype Register = Pins | X | Y | PinDirs | Pc | Isr | Osr

  datatype Operation =
    | Jmp(condition: Condition, target: nat)
    | In(bits: nat)
    | Out(dest: Register, bits: nat)
    | PushNoblock
    | PullBlock
    | Mov(dest: Register, invert: bool, src: Register)
    | Set(dest: Register, value: nat)
    | Unused  // an encoding neither program contains

  datatype Instruction = Instruction(op: Operation, delay: nat)

  /** Instruction fields: opcode in bits 15-13, delay in 12-8, two operand fields in 7-5 and 4-0. */
  function Decode(word: nat): Instruction {
    var opcode, delay, high, low := word / 8192, (word / 256) % 32, (word / 32) % 8, word % 32;
    var op :=
      if opcode == 0 then
        (if high == 0 then Jmp(Always, low)
         else if high == 2 then Jmp(XDec, low)
         else if high == 3 then Jmp(NotY, low)
         else if high == 4 then Jmp(YDec, low)
         else Unused)
      else if opcode == 2 then (if high == 0 then In(low) else Unused)
      else if opcode == 3 then
        (match RegisterOf(high) case Known(r) => Out(r, low) case Reserved => Unused)
      else if opcode == 4 then
        (if high == 0 && low == 0 then PushNoblock
         else if high == 5 && low == 0 then PullBlock
         else Unused)
      else if opcode == 5 then
        (match (RegisterOf(high), RegisterOf(low % 8))
         case (Known(d), Known(s)) => if low / 8 <= 1 then Mov(d, low / 8 == 1, s) else Unused
         case (_, _) => Unused)
      else if opcode == 7 then
        (match RegisterOf(high) case Known(r) => Set(r, low) case Reserved => Unused)
      else Unused;
    Instruction(op, delay)
  }

  datatype Operand = Reserved | Known(register: Register)

  function RegisterOf(code: nat): Operand {
    match code
    case 0 => Known(Pins)
    case 1 => Known(X)
    case 2 => Known(Y)
    case 4 => Known(PinDirs)
    case 5 => Known(Pc)
    case 6 => Known(Isr)
    case 7 => Known(Osr)
    case _ => Reserved
  }

  /** What an observer of the STEP and DIR pins sees, with the cycle at which it happens. */
  datatype Edge =
    | Rise(at: nat, dir: nat)  // STEP goes high while DIR has level dir
    | Fall(at: nat)            // STEP goes low
    | Turn(at: nat, dir: nat)  // DIR changes to level dir

  const FIFO_DEPTH := 4

  /**
   One state machine. The SET pins are the STEP pin, the OUT pins the DIR pin; log is the history of their edges.
   */
  datatype Sm = Sm(pc: nat, x: nat, y: nat, isr: nat, osr: nat, step: nat, dir: nat,
                   tx: seq<nat>, rx: seq<nat>, cycles: nat, log: seq<Edge>)

  function Dec(r: nat): nat {
    if r == 0 then WORD - 1 else r - 1
  }

  function Not(r: nat): (n: nat)
  {
    if r < WORD then WORD - 1 - r else 0
  }

  function Read(s: Sm, r: Register, pins: nat): nat {
    match r
    case Pins => pins
    case X => s.x
    case Y => s.y
    case PinDirs => 0
    case Pc => s.pc
    case Isr => s.isr
    case Osr => s.osr
  }

  /** Writes a register other than pc. Writing the OUT pins drives DIR. */
  function Write(s: Sm, r: Register, v: nat): Sm {
    match r
    case Pins => if s.dir == v % 2 then s else s.(dir := v % 2, log := s.log + [Turn(s.cycles, v % 2)])
    case X => s.(x := v)
    case Y => s.(y := v)
    case PinDirs => s
    case Pc => s
    case Isr => s.(isr := v)
    case Osr => s.(osr := v)
  }

  /** Writing the SET pins drives STEP. */
  function Drive(s: Sm, v: nat): Sm {
    if s.step == v % 2 then s
    else s.(step := v % 2, log := s.log + [if v % 2 == 1 then Rise(s.cycles, s.dir) else Fall(s.cycles)])
  }

  function Quotient(v: nat, p: nat): nat
    requires p > 0
  {
    v / p
  }

  function LowBits(v: nat, bits: nat): nat {
    v % Pow2(bits)
  }

  function HighBits(v: nat, bits: nat): nat {
    Quotient(v, Pow2(bits))
  }

  /** Shifts the low bits of the input pins into a 32-bit register from the right. */
  function ShiftIn(r: nat, bits: nat, pins: nat): nat {
    U32(r * Pow2(bits) + LowBits(pins, bits))
  }

  /** Leaves an instruction: the cycles it took, and the next address with program wrap-around. */
  function Leave(s: Sm, next: nat, delay: nat): Sm {
    s.(pc := next, cycles := s.cycles + 1 + delay)
  }

  /** One instruction. `wrapTarget` follows `wrap`; `pins` is the level of the input pins. */
  function Exec(i: Instruction, wrapTarget: nat, wrap: nat, pins: nat, s: Sm): Sm {
    var next := if s.pc == wrap then wrapTarget else s.pc + 1;
    match i.op
    case Jmp(Always, target) => Leave(s, target, i.delay)
    case Jmp(XDec, target) => Leave(s.(x := Dec(s.x)), if s.x != 0 then target else next, i.delay)
    case Jmp(NotY, target) => Leave(s, if s.y == 0 then target else next, i.delay)
    case Jmp(YDec, target) => Leave(s.(y := Dec(s.y)), if s.y != 0 then target else next, i.delay)
    case In(bits) => Leave(s.(isr := ShiftIn(s.isr, bits, pins)), next, i.delay)
    case Out(dest, bits) =>
      Leave(Write(s, dest, LowBits(s.osr, bits)).(osr := HighBits(s.osr, bits)), next, i.delay)
    case PushNoblock =>
      Leave(s.(rx := if |s.rx| < FIFO_DEPTH then s.rx + [s.isr] else s.rx, isr := 0), next, i.delay)
    case PullBlock =>
      if s.tx == [] then s.(cycles := s.cycles + 1)  // stalls
      else Leave(s.(osr := s.tx[0], tx := s.tx[1..]), next, i.delay)
    case Mov(dest, invert, src) =>
      var v := Read(s, src, pins);
      var v := if invert then Not(v) else v;
      if dest == Pc then Leave(s, v % 32, i.delay) else Leave(Write(s, dest, v), next, i.delay)
    case Set(dest, value) =>
      Leave(if dest == Pins then Drive(s, value) else Write(s, dest, value), next, i.delay)
    case Unused => Leave(s, next, i.delay)
  }
}
