/**
 * RbPIC::RSMConstant and RbPIC::RSM: the two builder contexts, both appending
 * to one line buffer. Every operation appends its template to the buffer and
 * is specified by Emission.Emit; the nested bodies of subr, block, loop and
 * decrement_and_test are replayed into the same buffer by Run and Execute,
 * which stand for instance_eval and send.
 */
module Generator {
  import opened Wrappers
  import opened Text
  import opened Emission
  import Pins

  /** The Ruby Array @code: a single object that RSM owns and RSMConstant is handed. */
  class LineBuffer {
    var lines: seq<string>

    constructor ()
      ensures lines == []
    {
      lines := [];
    }

    /** Array#<< */
    method Append(s: string)
      modifies this
      ensures lines == old(lines) + [s]
    {
      lines := lines + [s];
    }
  }

  /** The context of a `constants` block: every name invoked in it becomes a reserved name. */
  class RSMConstant {
    const code: LineBuffer

    constructor (buffer: LineBuffer)
      modifies buffer
      ensures code == buffer
      ensures buffer.lines == old(buffer.lines) + ["\tcblock 0x08"]
    {
      code := buffer;
      new;
      code.Append("\tcblock 0x08");
    }

    method MethodMissing(name: string)
      modifies code
      ensures code.lines == old(code.lines) + ["\t\t" + name]
    {
      code.Append("\t\t" + name);
    }
  }

  class RSM {
    const code: LineBuffer

    /**
     * RSM.load with a block: build a generator, replay the body, close with
     * end_code and hand back the lines; a run that aborts returns its error.
     */
    static method Load(body: seq<Command>) returns (r: Result<seq<string>, Error>)
      ensures r.Success? <==> EmitAll(body).Ok()
      ensures r.Failure? ==> r.error == EmitAll(body).error.value
      ensures r.Success? ==> r.value == Program(body)
    {
      var c := new RSM();
      var err := c.Run(body);
      if err.Some? {
        return Failure(err.value);
      }
      c.EndCode();
      return Success(c.code.lines);
    }

    constructor ()
      ensures fresh(code)
      ensures code.lines == Preamble()
    {
      code := new LineBuffer();
      new;
      EmitLine("\t#include \"p10f202.inc\"");
      EmitLine("\t__config _WDT_OFF & _CP_OFF & _MCLRE_OFF");
      EmitLine("");
      EmitLine("\torg\t0x00");
      EmitLine("\tgoto\t$+2");
      EmitLine("");
      assert code.lines == Header();
      var _ := Subr(DelayRoutine, [Command.Done(0)]);
      EmitLine("");
    }

    /** instance_eval of a body: the invocations in order, stopping at the first error. */
    method Run(body: seq<Command>) returns (err: Option<Error>)
      modifies code
      ensures code.lines == old(code.lines) + EmitAll(body).lines
      ensures err == EmitAll(body).error
      decreases SizeAll(body), 1
    {
      var i := 0;
      while i < |body|
        invariant 0 <= i <= |body|
        invariant code.lines == old(code.lines) + EmitAll(body[..i]).lines
        invariant EmitAll(body[..i]).Ok()
      {
        SizeAllBound(body, i);
        err := Execute(body[i]);
        EmitAllStep(body, i);
        ConcatAssoc(old(code.lines), EmitAll(body[..i]).lines, Emit(body[i]).lines);
        if err.Some? {
          EmitAllStops(body, i + 1);
          return;
        }
        i := i + 1;
      }
      assert body[..i] == body;
      err := None;
    }

    /** One invocation, dispatched on the operation's name; any other name reaches MethodMissing. */
    method Execute(c: Command) returns (err: Option<Error>)
      modifies code
      ensures code.lines == old(code.lines) + Emit(c).lines
      ensures err == Emit(c).error
      decreases Size(c), 0
    {
      err := None;
      match c
      case Subr(name, body) => err := Subr(name, body);
      case Done(w) => Done(w);
      case Constants(names) => Constants(names);
      case InitClock => InitClock();
      case ConfigIo(pins) => ConfigIo(pins);
      case Loop(name, body) => err := Loop(name, body);
      case Block(name, body) => err := Block(name, body);
      case SetIo(ports) => err := SetIo(ports);
      case Delay(n) => Delay(n);
      case DecrementAndTest(sym, op) => err := DecrementAndTest(sym, op);
      case EndCode => EndCode();
      case Call(name) => MethodMissing(name);
      case _ => ExecuteInstruction(c);
    }

    /** The operations that each write one or two instructions on a register, a bit or a label. */
    method ExecuteInstruction(c: Command)
      requires IsInstruction(c)
      modifies code
      ensures code.lines == old(code.lines) + Emit(c).lines
      ensures Emit(c).Ok()
    {
      match c
      case Set(sym, val) => Set(sym, val);
      case SetBit(sym, bit) => SetBit(sym, bit);
      case ClearBit(sym, bit) => ClearBit(sym, bit);
      case Test(sym, bit, target) => Test(sym, bit, target);
      case DecrementBy(val, sym) => DecrementBy(val, sym);
      case IncrementBy(val, sym) => IncrementBy(val, sym);
      case Copy(src, dst) => Copy(src, dst);
      case TestCarry(target) => TestCarry(target);
      case Add(val, reg) => Add(val, reg);
      case Subtract(val, reg) => Subtract(val, reg);
      case SubtractAndSet(sym, reg) => SubtractAndSet(sym, reg);
      case Jump(target) => Jump(target);
      case Increment(sym) => Increment(sym);
      case Decrement(sym) => Decrement(sym);
    }

    method Subr(name: string, body: seq<Command>) returns (err: Option<Error>)
      modifies code
      ensures code.lines == old(code.lines) + Emit(Command.Subr(name, body)).lines
      ensures err == Emit(Command.Subr(name, body)).error
      decreases SizeAll(body), 2
    {
      EmitLine(Capitalize(name));
      err := Run(body);
      if err.None? {
        EmitLine("");
      }
    }

    method Done(w: nat)
      modifies code
      ensures code.lines == old(code.lines) + Emit(Command.Done(w)).lines
    {
      EmitLine("\tretlw\t" + HexOperand(w));
      EmitLine("");
    }

    method Constants(names: seq<string>)
      modifies code
      ensures code.lines == old(code.lines) + Emit(Command.Constants(names)).lines
    {
      var c := new RSMConstant(code);
      var i := 0;
      while i < |names|
        invariant 0 <= i <= |names|
        invariant c.code == code
        invariant code.lines == old(code.lines) + ["\tcblock 0x08"] + ConstantLines(names[..i])
      {
        c.MethodMissing(names[i]);
        assert ConstantLines(names[..i + 1]) == ConstantLines(names[..i]) + ["\t\t" + names[i]];
        i := i + 1;
      }
      assert names[..i] == names;
      EmitLine("\tendc");
      EmitLine("");
    }

    /** Moves the oscillator calibration value into OSCCAL and loads the OPTION register. */
    method InitClock()
      modifies code
      ensures code.lines == old(code.lines) + Emit(Command.InitClock).lines
    {
      EmitLine("\tmovwf\tOSCCAL");
      EmitLine("\tmovlw\tb'10011000'");
      EmitLine("\toption");
      EmitLine("");
    }

    method ConfigIo(pins: seq<Pins.Entry>)
      modifies code
      ensures code.lines == old(code.lines) + Emit(Command.ConfigIo(pins)).lines
    {
      var tris: nat := 0;
      var i := 0;
      while i < |pins|
        invariant 0 <= i <= |pins|
        invariant tris == Pins.Mask(pins[..i])
        invariant code.lines == old(code.lines)
      {
        var pin, state := pins[i].0, pins[i].1;
        if pin == "gp0" {
          if state == "out" { tris := Pins.ClearMask(tris, 0x1); } else { tris := Pins.SetMask(tris, 0x1); }
        } else if pin == "gp1" {
          if state == "out" { tris := Pins.ClearMask(tris, 0x2); } else { tris := Pins.SetMask(tris, 0x2); }
        } else if pin == "gp2" {
          if state == "out" { tris := Pins.ClearMask(tris, 0x4); } else { tris := Pins.SetMask(tris, 0x4); }
        } else if pin == "gp3" {
          if state == "out" { tris := Pins.ClearMask(tris, 0x8); } else { tris := Pins.SetMask(tris, 0x8); }
        }
        Pins.MaskStep(pins[..i], pin, state);
        assert pins[..i + 1] == pins[..i] + [(pin, state)];
        i := i + 1;
      }
      assert pins[..i] == pins;
      EmitLine("\tmovlw\tb'" + Bin8(tris) + "'");
      EmitLine("\ttris\tGPIO");
      EmitLine("");
    }

    method Set(sym: string, val: nat)
      modifies code
      ensures code.lines == old(code.lines) + Emit(Command.Set(sym, val)).lines
    {
      EmitLine("\tmovlw\t" + HexOperand(val));
      EmitLine("\tmovwf\t" + sym);
      EmitLine("");
    }

    method Loop(name: string, body: seq<Command>) returns (err: Option<Error>)
      modifies code
      ensures code.lines == old(code.lines) + Emit(Command.Loop(name, body)).lines
      ensures err == Emit(Command.Loop(name, body)).error
      decreases SizeAll(body), 3
    {
      err := Block(name, body);
      if err.None? {
        EmitLine("\tgoto\t" + Capitalize(name));
        EmitLine("");
      }
    }

    method Block(name: string, body: seq<Command>) returns (err: Option<Error>)
      modifies code
      ensures code.lines == old(code.lines) + Emit(Command.Block(name, body)).lines
      ensures err == Emit(Command.Block(name, body)).error
      decreases SizeAll(body), 2
    {
      EmitLine(Capitalize(name));
      err := Run(body);
      if err.None? {
        EmitLine("");
      }
    }

    /** Drives gp0 to gp2 high or low, entry by entry; any other port aborts the run. */
    method SetIo(ports: seq<Pins.Entry>) returns (err: Option<Error>)
      modifies code
      ensures code.lines == old(code.lines) + Emit(Command.SetIo(ports)).lines
      ensures err == Emit(Command.SetIo(ports)).error
    {
      var i := 0;
      while i < |ports|
        invariant 0 <= i <= |ports|
        invariant code.lines == old(code.lines) + PortsTrace(ports[..i]).lines
        invariant PortsTrace(ports[..i]).Ok()
      {
        var p, state := ports[i].0, ports[i].1;
        PortsTraceStep(ports, i);
        ConcatAssoc(old(code.lines), PortsTrace(ports[..i]).lines, PortTrace(ports[i]).lines);
        if p == "gp0" {
          if state == "hi" { EmitLine("\tbsf\tGPIO, 0"); } else { EmitLine("\tbcf\tGPIO, 0"); }
        } else if p == "gp1" {
          if state == "hi" { EmitLine("\tbsf\tGPIO, 1"); } else { EmitLine("\tbcf\tGPIO, 1"); }
        } else if p == "gp2" {
          if state == "hi" { EmitLine("\tbsf\tGPIO, 2"); } else { EmitLine("\tbcf\tGPIO, 2"); }
        } else {
          return Some(InvalidPort(p));
        }
        i := i + 1;
      }
      assert ports[..i] == ports;
      EmitLine("");
      err := None;
    }

    method SetBit(sym: string, bit: nat)
      modifies code
      ensures code.lines == old(code.lines) + Emit(Command.SetBit(sym, bit)).lines
    {
      EmitLine("\tbsf\t" + sym + ", " + HexOperand(bit));
      EmitLine("");
    }

    method ClearBit(sym: string, bit: nat)
      modifies code
      ensures code.lines == old(code.lines) + Emit(Command.ClearBit(sym, bit)).lines
    {
      EmitLine("\tbcf\t" + sym + ", " + HexOperand(bit));
      EmitLine("");
    }

    method Test(sym: string, bit: nat, target: string)
      modifies code
      ensures code.lines == old(code.lines) + Emit(Command.Test(sym, bit, target)).lines
    {
      EmitLine("\tbtfss\t" + sym + ", " + HexOperand(bit));
      EmitLine("\tgoto\t" + Capitalize(target));
      EmitLine("");
    }

    method DecrementBy(val: nat, sym: string)
      modifies code
      ensures code.lines == old(code.lines) + Emit(Command.DecrementBy(val, sym)).lines
    {
      EmitLine("\tmovlw\t" + HexOperand(val));
      EmitLine("\tsubwf\t" + sym + ", f");
      EmitLine("");
    }

    method IncrementBy(val: nat, sym: string)
      modifies code
      ensures code.lines == old(code.lines) + Emit(Command.IncrementBy(val, sym)).lines
    {
      EmitLine("\tmovlw\t" + HexOperand(val));
      EmitLine("\taddwf\t" + sym + ", f");
      EmitLine("");
    }

    method Copy(src: string, dst: string)
      modifies code
      ensures code.lines == old(code.lines) + Emit(Command.Copy(src, dst)).lines
    {
      EmitLine("\tmovf\t" + src + ", w");
      EmitLine("\tmovwf\t" + dst);
      EmitLine("");
    }

    method TestCarry(target: string)
      modifies code
      ensures code.lines == old(code.lines) + Emit(Command.TestCarry(target)).lines
    {
      EmitLine("\tbtfss\tSTATUS, 0");
      EmitLine("\tgoto\t" + Capitalize(target));
      EmitLine("");
    }

    method Add(val: nat, reg: string)
      modifies code
      ensures code.lines == old(code.lines) + Emit(Command.Add(val, reg)).lines
    {
      EmitLine("\tmovlw\t" + HexOperand(val));
      EmitLine("\taddwf\t" + reg + ", w");
      EmitLine("");
    }

    method Subtract(val: nat, reg: string)
      modifies code
      ensures code.lines == old(code.lines) + Emit(Command.Subtract(val, reg)).lines
    {
      EmitLine("\tmovlw\t" + HexOperand(val));
      EmitLine("\tsubwf\t" + reg + ", w");
      EmitLine("");
    }

    /** The one operation besides the fallback call that writes no blank line after itself. */
    method SubtractAndSet(sym: string, reg: string)
      modifies code
      ensures code.lines == old(code.lines) + Emit(Command.SubtractAndSet(sym, reg)).lines
    {
      EmitLine("\tmovf\t" + sym + ", w");
      EmitLine("\tsubwf\t" + reg + ", f");
    }

    /** `n.times` calls of the built-in 4 microsecond routine, then a blank line. */
    method Delay(n: nat)
      modifies code
      ensures code.lines == old(code.lines) + Emit(Command.Delay(n)).lines
    {
      var k := 0;
      while k < n
        invariant 0 <= k <= n
        invariant code.lines == old(code.lines) + DelayCalls(k)
      {
        EmitLine("\tcall\tFour_microsecond_delay");
        assert DelayCalls(k + 1) == DelayCalls(k) + [DelayCall];
        k := k + 1;
      }
      EmitLine("");
    }

    /** decfsz on the register, then `send(op, arg)` on this same generator, then a blank line. */
    method DecrementAndTest(sym: string, op: Command) returns (err: Option<Error>)
      modifies code
      ensures code.lines == old(code.lines) + Emit(Command.DecrementAndTest(sym, op)).lines
      ensures err == Emit(Command.DecrementAndTest(sym, op)).error
      decreases Size(op), 1
    {
      ghost var before := code.lines;
      var d := "\tdecfsz\t" + sym + ", f";
      DecrementAndTestStep(sym, op);
      EmitLine(d);
      if SingleArgument(op) {
        err := Execute(op);
        ConcatAssoc(before, [d], Emit(op).lines);
        if err.Some? {
          return;
        }
      } else if op.DecrementAndTest? {
        // decrement_and_test(op.sym) with no operation: decfsz, then send(nil, nil).
        EmitLine("\tdecfsz\t" + op.sym + ", f");
        return Some(TypeError);
      } else {
        return Some(ArgumentError);
      }
      EmitLine("");
      ConcatAssoc(before, [d] + Emit(op).lines, [""]);
    }

    method Jump(target: string)
      modifies code
      ensures code.lines == old(code.lines) + Emit(Command.Jump(target)).lines
    {
      EmitLine("\tgoto\t" + Capitalize(target));
      EmitLine("");
    }

    method Increment(sym: string)
      modifies code
      ensures code.lines == old(code.lines) + Emit(Command.Increment(sym)).lines
    {
      EmitLine("\tincf\t" + sym + ", f");
      EmitLine("");
    }

    method Decrement(sym: string)
      modifies code
      ensures code.lines == old(code.lines) + Emit(Command.Decrement(sym)).lines
    {
      EmitLine("\tdecf\t" + sym + ", f");
      EmitLine("");
    }

    method EndCode()
      modifies code
      ensures code.lines == old(code.lines) + ["\tend", ""]
    {
      EmitLine("\tend");
      EmitLine("");
    }

    /** The fallback for a name that is no operation: a call to the label of that name. */
    method MethodMissing(name: string)
      modifies code
      ensures code.lines == old(code.lines) + Emit(Command.Call(name)).lines
    {
      EmitLine("\tcall\t" + Capitalize(name));
    }

    /** _emit */
    method EmitLine(s: string)
      modifies code
      ensures code.lines == old(code.lines) + [s]
    {
      code.Append(s);
    }
  }
}
