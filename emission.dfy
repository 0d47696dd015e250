/**
 * What the generator appends to its line buffer for each DSL operation.
 *
 * A DSL body is a sequence of Commands, one per builder invocation, replayed
 * in order. The variants are the operations of RbPIC::RSM; `Call` is the
 * method_missing fallback, which turns any other name into a subroutine call.
 * Emit gives the lines an invocation appends and the error, if any, that
 * stops the run there.
 */
module Emission {
  import opened Wrappers
  import opened Text
  import Pins

  /**
   * Why a run stops: set_io's abort on an unknown port, the ArgumentError of
   * a send with the wrong arity, or the TypeError of `send(nil, nil)` when a
   * decrement_and_test is itself sent by decrement_and_test with no operation.
   */
  datatype Error = InvalidPort(port: string) | ArgumentError | TypeError

  /**
   * The text abort prints for an invalid port; for the two exceptions, the
   * opening words of Ruby's message (Ruby goes on with the argument counts
   * for the ArgumentError, which the model does not track).
   */
  function Message(e: Error): string {
    match e
    case InvalidPort(p) => "Invalid port " + p + " specified"
    case ArgumentError => "wrong number of arguments"
    case TypeError => "nil is not a symbol nor a string"
  }

  /** The lines a run appended, and the error that stopped it, if one did. */
  datatype Trace = Trace(lines: seq<string>, error: Option<Error>) {
    predicate Ok() {
      error.None?
    }

    /** This run followed by `next`; nothing runs after an error. */
    function Then(next: Trace): Trace {
      if error.Some? then this else Trace(lines + next.lines, next.error)
    }
  }

  /** Lines appended by straight-line code that cannot fail. */
  function Lines(ls: seq<string>): Trace {
    Trace(ls, None)
  }

  datatype Command =
    | Subr(name: string, body: seq<Command>)
    | Done(w: nat)
    | Constants(names: seq<string>)
    | InitClock
    | ConfigIo(pins: seq<Pins.Entry>)
    | Set(sym: string, val: nat)
    | Loop(name: string, body: seq<Command>)
    | Block(name: string, body: seq<Command>)
    | SetIo(ports: seq<Pins.Entry>)
    | SetBit(sym: string, bit: nat)
    | ClearBit(sym: string, bit: nat)
    | Test(sym: string, bit: nat, target: string)
    | DecrementBy(val: nat, sym: string)
    | IncrementBy(val: nat, sym: string)
    | Copy(src: string, dst: string)
    | TestCarry(target: string)
    | Add(val: nat, reg: string)
    | Subtract(val: nat, reg: string)
    | SubtractAndSet(sym: string, reg: string)
    | Delay(calls: nat)
    | DecrementAndTest(sym: string, op: Command)
    | Jump(target: string)
    | Increment(sym: string)
    | Decrement(sym: string)
    | EndCode
    | Call(name: string)

  /** The operations that take exactly one argument, so that `send(op, arg)` can reach them. */
  predicate SingleArgument(op: Command) {
    op.Done? || op.ConfigIo? || op.SetIo? || op.TestCarry? || op.Delay? ||
    op.Jump? || op.Increment? || op.Decrement?
  }

  /** The operations with no body and no failure: one or two instructions on a register, a bit or a label. */
  predicate IsInstruction(c: Command) {
    c.Set? || c.SetBit? || c.ClearBit? || c.Test? || c.DecrementBy? || c.IncrementBy? ||
    c.Copy? || c.TestCarry? || c.Add? || c.Subtract? || c.SubtractAndSet? || c.Jump? ||
    c.Increment? || c.Decrement?
  }

  function Size(c: Command): nat {
    match c
    case Subr(_, body) => 1 + SizeAll(body)
    case Loop(_, body) => 1 + SizeAll(body)
    case Block(_, body) => 1 + SizeAll(body)
    case DecrementAndTest(_, op) => 1 + Size(op)
    case _ => 1
  }

  function SizeAll(cs: seq<Command>): nat {
    if cs == [] then 0 else Size(cs[0]) + SizeAll(cs[1..])
  }

  /** The name of the built-in delay subroutine, as the constructor passes it to subr. */
  const DelayRoutine: string := "four_microsecond_delay"

  /** The call line delay repeats. */
  const DelayCall: string := "\tcall\tFour_microsecond_delay"

  /** `0x` followed by Integer#to_s(16). */
  function HexOperand(n: nat): string {
    "0x" + Hex(n)
  }

  function DelayCalls(n: nat): seq<string> {
    seq(n, _ => DelayCall)
  }

  function ConstantLines(names: seq<string>): seq<string> {
    seq(|names|, i requires 0 <= i < |names| => "\t\t" + names[i])
  }

  /** The lines set_io writes for one entry, or the abort for a port other than gp0 to gp2. */
  function PortTrace(e: Pins.Entry): Trace {
    match Pins.PortLine(e.0, e.1)
    case Some(line) => Lines([line])
    case None => Trace([], Some(InvalidPort(e.0)))
  }

  /** set_io's loop over the entries, in order. */
  function PortsTrace(ports: seq<Pins.Entry>): Trace {
    if ports == [] then Lines([])
    else PortsTrace(ports[..|ports| - 1]).Then(PortTrace(ports[|ports| - 1]))
  }

  /** block (and subr, which is the same code): the label, the body in place, a blank line. */
  function BlockTrace(name: string, body: seq<Command>): Trace
    decreases SizeAll(body), 2
  {
    Lines([Capitalize(name)]).Then(EmitAll(body)).Then(Lines([""]))
  }

  /** What one invocation appends. */
  function Emit(c: Command): Trace
    decreases Size(c), 0
  {
    match c
    case Subr(name, body) => BlockTrace(name, body)
    case Done(w) => Lines(["\tretlw\t" + HexOperand(w), ""])
    case Constants(names) => Lines(["\tcblock 0x08"] + ConstantLines(names) + ["\tendc", ""])
    case InitClock => Lines(["\tmovwf\tOSCCAL", "\tmovlw\tb'10011000'", "\toption", ""])
    case ConfigIo(pins) => Lines(["\tmovlw\tb'" + Bin8(Pins.Mask(pins)) + "'", "\ttris\tGPIO", ""])
    case Set(sym, val) => Lines(["\tmovlw\t" + HexOperand(val), "\tmovwf\t" + sym, ""])
    case Loop(name, body) => BlockTrace(name, body).Then(Lines(["\tgoto\t" + Capitalize(name), ""]))
    case Block(name, body) => BlockTrace(name, body)
    case SetIo(ports) => PortsTrace(ports).Then(Lines([""]))
    case SetBit(sym, bit) => Lines(["\tbsf\t" + sym + ", " + HexOperand(bit), ""])
    case ClearBit(sym, bit) => Lines(["\tbcf\t" + sym + ", " + HexOperand(bit), ""])
    case Test(sym, bit, target) =>
      Lines(["\tbtfss\t" + sym + ", " + HexOperand(bit), "\tgoto\t" + Capitalize(target), ""])
    case DecrementBy(val, sym) => Lines(["\tmovlw\t" + HexOperand(val), "\tsubwf\t" + sym + ", f", ""])
    case IncrementBy(val, sym) => Lines(["\tmovlw\t" + HexOperand(val), "\taddwf\t" + sym + ", f", ""])
    case Copy(src, dst) => Lines(["\tmovf\t" + src + ", w", "\tmovwf\t" + dst, ""])
    case TestCarry(target) => Lines(["\tbtfss\tSTATUS, 0", "\tgoto\t" + Capitalize(target), ""])
    case Add(val, reg) => Lines(["\tmovlw\t" + HexOperand(val), "\taddwf\t" + reg + ", w", ""])
    case Subtract(val, reg) => Lines(["\tmovlw\t" + HexOperand(val), "\tsubwf\t" + reg + ", w", ""])
    case SubtractAndSet(sym, reg) => Lines(["\tmovf\t" + sym + ", w", "\tsubwf\t" + reg + ", f"])
    case Delay(n) => Lines(DelayCalls(n) + [""])
    case DecrementAndTest(sym, op) =>
      Lines(["\tdecfsz\t" + sym + ", f"])
        .Then(
          if SingleArgument(op) then Emit(op)
          else if op.DecrementAndTest? then Trace(["\tdecfsz\t" + op.sym + ", f"], Some(TypeError))
          else Trace([], Some(ArgumentError)))
        .Then(Lines([""]))
    case Jump(target) => Lines(["\tgoto\t" + Capitalize(target), ""])
    case Increment(sym) => Lines(["\tincf\t" + sym + ", f", ""])
    case Decrement(sym) => Lines(["\tdecf\t" + sym + ", f", ""])
    case EndCode => Lines(["\tend", ""])
    case Call(name) => Lines(["\tcall\t" + Capitalize(name)])
  }

  /** What a body appends when it is replayed in order; it stops at the first error. */
  function EmitAll(cs: seq<Command>): Trace
    decreases SizeAll(cs), 1
  {
    if cs == [] then Lines([]) else Emit(cs[0]).Then(EmitAll(cs[1..]))
  }

  /** The directives the constructor writes before the delay routine. */
  function Header(): seq<string> {
    ["\t#include \"p10f202.inc\"", "\t__config _WDT_OFF & _CP_OFF & _MCLRE_OFF", "", "\torg\t0x00", "\tgoto\t$+2", ""]
  }

  /** Everything the constructor writes: the header, `subr(:four_microsecond_delay) { done 0 }`, a blank line. */
  function Preamble(): seq<string> {
    Header() + Emit(Subr(DelayRoutine, [Done(0)])).lines + [""]
  }

  /** What a successful load returns: the preamble, the body, and `end` followed by one blank line. */
  function Program(body: seq<Command>): seq<string> {
    Preamble() + EmitAll(body).lines + ["\tend", ""]
  }

  // ---------------------------------------------------------------------------
  // Lemmas the generator's replay relies on

  /** Appending to an appended buffer. */
  lemma ConcatAssoc(a: seq<string>, b: seq<string>, c: seq<string>)
    ensures a + b + c == a + (b + c)
  {
  }

  /**
   * The outcomes of decrement_and_test: a nested decrement_and_test that finds
   * no operation, an operation refused, one that failed, or one written. It
   * succeeds exactly when a one-argument operation does.
   */
  lemma DecrementAndTestStep(sym: string, op: Command)
    ensures Emit(DecrementAndTest(sym, op)).Ok() <==> SingleArgument(op) && Emit(op).Ok()
    ensures var d := "\tdecfsz\t" + sym + ", f";
      var t := Emit(DecrementAndTest(sym, op));
      if op.DecrementAndTest? then t == Trace([d, "\tdecfsz\t" + op.sym + ", f"], Some(TypeError))
      else if !SingleArgument(op) then t == Trace([d], Some(ArgumentError))
      else if Emit(op).Ok() then t == Lines([d] + Emit(op).lines + [""])
      else t == Trace([d] + Emit(op).lines, Emit(op).error)
  {
  }

  lemma ThenAssoc(a: Trace, b: Trace, c: Trace)
    ensures a.Then(b).Then(c) == a.Then(b.Then(c))
  {
  }

  lemma ThenEmpty(a: Trace)
    ensures a.Then(Lines([])) == a
  {
  }

  /** Replaying a + b is replaying a and then b: bodies append in invocation order. */
  lemma {:induction false} EmitAllAppend(a: seq<Command>, b: seq<Command>)
    ensures EmitAll(a + b) == EmitAll(a).Then(EmitAll(b))
    decreases |a|
  {
    if a == [] {
      assert a + b == b;
    } else {
      assert (a + b)[0] == a[0];
      assert (a + b)[1..] == a[1..] + b;
      EmitAllAppend(a[1..], b);
      ThenAssoc(Emit(a[0]), EmitAll(a[1..]), EmitAll(b));
    }
  }

  lemma EmitAllSnoc(cs: seq<Command>, c: Command)
    ensures EmitAll(cs + [c]) == EmitAll(cs).Then(Emit(c))
  {
    EmitAllAppend(cs, [c]);
    assert [c][1..] == [];
    ThenEmpty(Emit(c));
  }

  /** Once a prefix of the body has failed, the rest of it appends nothing. */
  lemma EmitAllStops(cs: seq<Command>, i: nat)
    requires i <= |cs| && !EmitAll(cs[..i]).Ok()
    ensures EmitAll(cs) == EmitAll(cs[..i])
  {
    assert cs == cs[..i] + cs[i..];
    EmitAllAppend(cs[..i], cs[i..]);
  }

  /**
   * One step of replaying a body: after a prefix that ran cleanly, the next
   * invocation adds its lines and its error.
   */
  lemma EmitAllStep(cs: seq<Command>, i: nat)
    requires i < |cs| && EmitAll(cs[..i]).Ok()
    ensures EmitAll(cs[..i + 1]).lines == EmitAll(cs[..i]).lines + Emit(cs[i]).lines
    ensures EmitAll(cs[..i + 1]).error == Emit(cs[i]).error
  {
    assert cs[..i + 1] == cs[..i] + [cs[i]];
    EmitAllSnoc(cs[..i], cs[i]);
  }

  /** The same for set_io's entries. */
  lemma PortsTraceStep(ports: seq<Pins.Entry>, i: nat)
    requires i < |ports| && PortsTrace(ports[..i]).Ok()
    ensures PortsTrace(ports[..i + 1]).lines == PortsTrace(ports[..i]).lines + PortTrace(ports[i]).lines
    ensures PortsTrace(ports[..i + 1]).error == PortTrace(ports[i]).error
    ensures !PortTrace(ports[i]).Ok() ==> PortsTrace(ports) == PortsTrace(ports[..i + 1])
  {
    PortsTraceSnoc(ports, i);
    if !PortTrace(ports[i]).Ok() {
      PortsTraceStops(ports, i + 1);
    }
  }

  lemma {:induction false} SizeAllBound(cs: seq<Command>, i: nat)
    requires i < |cs|
    ensures Size(cs[i]) <= SizeAll(cs)
  {
    if i > 0 {
      SizeAllBound(cs[1..], i - 1);
    }
  }

  lemma PortsTraceSnoc(ports: seq<Pins.Entry>, i: nat)
    requires i < |ports|
    ensures PortsTrace(ports[..i + 1]) == PortsTrace(ports[..i]).Then(PortTrace(ports[i]))
  {
    assert ports[..i + 1][..i] == ports[..i];
  }

  /** Once set_io has aborted on an entry, the entries after it add nothing. */
  lemma {:induction false} PortsTraceStops(ports: seq<Pins.Entry>, i: nat)
    requires i <= |ports| && !PortsTrace(ports[..i]).Ok()
    ensures PortsTrace(ports) == PortsTrace(ports[..i])
    decreases |ports| - i
  {
    if i < |ports| {
      PortsTraceSnoc(ports, i);
      PortsTraceStops(ports, i + 1);
    } else {
      assert ports[..i] == ports;
    }
  }
}
