/**
 * What the generated assembly looks like: the preamble every program starts
 * with, the shape of each operation's output, the agreement between label
 * definitions and the gotos and calls that name them, the operand formats,
 * and instances of some of the fragments the generator's own tests look for:
 * the header, the loop, the three config_io cases, decrement_and_test and
 * the subroutine call.
 */
module Properties {
  import opened Wrappers
  import opened Text
  import opened Emission
  import Pins

  // ---------------------------------------------------------------------------
  // The preamble and the end of a program

  /**
   * The constructor writes eleven lines: four directives with their blank
   * lines, then the delay routine, a return of 0 and the blank lines written
   * by done, subr and the constructor itself.
   */
  lemma PreambleLines()
    ensures Preamble() == [
      "\t#include \"p10f202.inc\"",
      "\t__config _WDT_OFF & _CP_OFF & _MCLRE_OFF",
      "",
      "\torg\t0x00",
      "\tgoto\t$+2",
      "",
      "Four_microsecond_delay",
      "\tretlw\t0x0",
      "",
      "",
      ""]
  {
    DelayRoutineLabel();
    assert Hex(0) == [DigitChar(0)] == "0";
    assert HexOperand(0) == "0x0";
    assert "\tretlw\t" + HexOperand(0) == "\tretlw\t0x0";
    var done := Emit(Done(0));
    assert done == Lines(["\tretlw\t0x0", ""]);
    assert EmitAll([Done(0)]) == done.Then(EmitAll([]));
    assert EmitAll([Done(0)]) == done;
  }

  /** A lower-case identifier's label, once its rest is known to have no capitals. */
  lemma LabelOfIdentifier(c: char, rest: string, heading: string)
    requires NoUpper(rest) && [Upper(c)] + rest == heading
    ensures Capitalize([c] + rest) == heading
  {
    CapitalizeIdentifier(c, rest);
  }

  lemma DelayRoutineLabel()
    ensures Capitalize(DelayRoutine) == "Four_microsecond_delay"
  {
    DelayRoutineSplit();
    DelayRoutineRest();
    DelayRoutineRaised();
    LabelOfIdentifier('f', "our_microsecond_delay", "Four_microsecond_delay");
  }

  // The three literal facts DelayRoutineLabel combines; see the note before JoinDelayCall.
  lemma DelayRoutineSplit()
    ensures DelayRoutine == ['f'] + "our_microsecond_delay"
  {
  }

  lemma DelayRoutineRest()
    ensures NoUpper("our_microsecond_delay")
  {
  }

  lemma DelayRoutineRaised()
    ensures [Upper('f')] + "our_microsecond_delay" == "Four_microsecond_delay"
  {
  }

  /** The delay calls land on the label the constructor defines. */
  lemma DelayCallsBuiltInRoutine()
    ensures DelayCall == "\tcall\t" + Preamble()[6]
    ensures DelayCall == Emit(Call(DelayRoutine)).lines[0]
  {
    PreambleLines();
    DelayRoutineLabel();
    CallLineOf(DelayRoutine, "Four_microsecond_delay");
    JoinDelayCall();
  }

  /** A program opens with the eleven preamble lines and closes with `end` and one blank line. */
  lemma ProgramFrame(body: seq<Command>)
    ensures var p := Program(body);
      |p| >= 13 && p[..11] == Preamble() && p[|p| - 2] == "\tend" && p[|p| - 1] == ""
  {
    PreambleLines();
    var p := Program(body);
    assert p[..11] == Preamble();
  }

  // ---------------------------------------------------------------------------
  // Every operation appends a fixed template

  /** Cutting a common prefix off two lines. */
  lemma PrefixCancel(p: string, x: string, y: string)
    ensures p + x == p + y <==> x == y
  {
    if p + x == p + y {
      assert (p + x)[|p|..] == x && (p + y)[|p|..] == y;
    }
  }

  /**
   * A finished operation leaves a blank line after itself, except the
   * fallback call and subtract_and_set, which end on their last instruction.
   */
  lemma EndsWithBlank(c: Command)
    requires Emit(c).Ok()
    ensures |Emit(c).lines| >= 1
    ensures var ls := Emit(c).lines;
      ls[|ls| - 1] == "" <==> !c.Call? && !c.SubtractAndSet?
  {
    if IsInstruction(c) {
      InstructionEndsWithBlank(c);
    } else {
      OperationEndsWithBlank(c);
    }
  }

  lemma InstructionEndsWithBlank(c: Command)
    requires IsInstruction(c)
    ensures |Emit(c).lines| >= 1
    ensures var ls := Emit(c).lines;
      ls[|ls| - 1] == "" <==> !c.SubtractAndSet?
  {
    if c.SubtractAndSet? {
      assert Emit(c).lines[1] == "\tsubwf\t" + c.reg + ", f";
    }
  }

  lemma OperationEndsWithBlank(c: Command)
    requires !IsInstruction(c) && Emit(c).Ok()
    ensures |Emit(c).lines| >= 1
    ensures var ls := Emit(c).lines;
      ls[|ls| - 1] == "" <==> !c.Call?
  {
    if c.Call? {
      assert Emit(c).lines == ["\tcall\t" + Capitalize(c.name)];
    }
  }

  /**
   * block writes its label, the lines of its body in place, then a blank line;
   * subr is the same code. An error in the body stops the block there.
   */
  lemma BlockShape(name: string, body: seq<Command>)
    ensures Emit(Subr(name, body)) == Emit(Block(name, body))
    ensures Emit(Block(name, body)).error == EmitAll(body).error
    ensures Emit(Block(name, body)).lines ==
      [Capitalize(name)] + EmitAll(body).lines + (if EmitAll(body).Ok() then [""] else [])
  {
  }

  /** loop is a block followed by a jump back to its own label. */
  lemma LoopShape(name: string, body: seq<Command>)
    ensures Emit(Loop(name, body)).error == EmitAll(body).error
    ensures Emit(Loop(name, body)).Ok() ==>
      Emit(Loop(name, body)).lines == Emit(Block(name, body)).lines + ["\tgoto\t" + Capitalize(name), ""]
    ensures var ls := Emit(Loop(name, body)).lines;
      Emit(Loop(name, body)).Ok() ==> ls[|ls| - 2] == "\tgoto\t" + ls[0]
  {
    BlockShape(name, body);
  }

  /** Nested bodies append to the one buffer in invocation order. */
  lemma NestedInOrder(outer: seq<Command>, name: string, inner: seq<Command>, rest: seq<Command>)
    requires EmitAll(outer).Ok() && EmitAll(inner).Ok()
    ensures EmitAll(outer + [Block(name, inner)] + rest).lines ==
      EmitAll(outer).lines + [Capitalize(name)] + EmitAll(inner).lines + [""] + EmitAll(rest).lines
  {
    EmitAllAppend(outer + [Block(name, inner)], rest);
    EmitAllSnoc(outer, Block(name, inner));
  }

  // ---------------------------------------------------------------------------
  // Labels

  /**
   * A goto written by jump, test or test_carry, or a call written by the
   * fallback, names the label of a block, subr or loop exactly when the two
   * identifiers differ at most in case.
   */
  lemma LabelsAgree(t: string, l: string, body: seq<Command>, sym: string, bit: nat)
    ensures |Emit(Block(l, body)).lines| >= 1 && |Emit(Subr(l, body)).lines| >= 1
    ensures |Emit(Loop(l, body)).lines| >= 1
    ensures Emit(Block(l, body)).lines[0] == Capitalize(l)
    ensures Emit(Subr(l, body)).lines[0] == Capitalize(l)
    ensures Emit(Loop(l, body)).lines[0] == Capitalize(l)
    ensures Emit(Jump(t)).lines[0] == "\tgoto\t" + Capitalize(l) <==> SameIgnoringCase(t, l)
    ensures Emit(Test(sym, bit, t)).lines[1] == "\tgoto\t" + Capitalize(l) <==> SameIgnoringCase(t, l)
    ensures Emit(TestCarry(t)).lines[1] == "\tgoto\t" + Capitalize(l) <==> SameIgnoringCase(t, l)
    ensures Emit(Call(t)).lines[0] == "\tcall\t" + Capitalize(l) <==> SameIgnoringCase(t, l)
  {
    Headings(l, body);
    GotoTargets(t, l, sym, bit);
    CallTarget(t, l);
  }

  /** block, subr and loop open with the capitalized name. */
  lemma Headings(l: string, body: seq<Command>)
    ensures |Emit(Block(l, body)).lines| >= 1 && |Emit(Subr(l, body)).lines| >= 1
    ensures |Emit(Loop(l, body)).lines| >= 1
    ensures Emit(Block(l, body)).lines[0] == Capitalize(l)
    ensures Emit(Subr(l, body)).lines[0] == Capitalize(l)
    ensures Emit(Loop(l, body)).lines[0] == Capitalize(l)
  {
  }

  /** The goto of jump, test and test_carry reaches l's heading exactly when t names l up to case. */
  lemma GotoTargets(t: string, l: string, sym: string, bit: nat)
    ensures Emit(Jump(t)).lines[0] == "\tgoto\t" + Capitalize(l) <==> SameIgnoringCase(t, l)
    ensures Emit(Test(sym, bit, t)).lines[1] == "\tgoto\t" + Capitalize(l) <==> SameIgnoringCase(t, l)
    ensures Emit(TestCarry(t)).lines[1] == "\tgoto\t" + Capitalize(l) <==> SameIgnoringCase(t, l)
  {
    CapitalizeSameLabel(t, l);
    PrefixCancel("\tgoto\t", Capitalize(t), Capitalize(l));
  }

  /** The fallback's call reaches l's heading exactly when t names l up to case. */
  lemma CallTarget(t: string, l: string)
    ensures Emit(Call(t)).lines[0] == "\tcall\t" + Capitalize(l) <==> SameIgnoringCase(t, l)
  {
    CapitalizeSameLabel(t, l);
    PrefixCancel("\tcall\t", Capitalize(t), Capitalize(l));
  }

  // ---------------------------------------------------------------------------
  // Numeric operands

  /** `0x`, then the number's lower-case hexadecimal digits with no leading zero. */
  lemma HexOperandMeaning(n: nat)
    ensures var h := HexOperand(n);
      |h| >= 3 && h[..2] == "0x" && Canonical(h[2..], 16) && FromBase(h[2..], 16) == n
  {
    var h := HexOperand(n);
    assert h[2..] == Hex(n);
    ToBaseCanonical(n, 16);
    ToBaseRoundTrip(n, 16);
  }

  /** Different numbers are written differently, and every canonical digit string is written for some number. */
  lemma HexOperandInjective(a: nat, b: nat)
    ensures HexOperand(a) == HexOperand(b) <==> a == b
  {
    if HexOperand(a) == HexOperand(b) {
      PrefixCancel("0x", Hex(a), Hex(b));
      ToBaseRoundTrip(a, 16);
      ToBaseRoundTrip(b, 16);
    }
  }

  lemma HexOperandOnto(s: string)
    requires Canonical(s, 16)
    ensures HexOperand(FromBase(s, 16)) == "0x" + s
  {
    FromBaseRoundTrip(s, 16);
  }

  /** The operands the generator's tests expect. */
  lemma HexOperandExamples()
    ensures HexOperand(0x23) == "0x23"
    ensures HexOperand(5) == "0x5"
    ensures HexOperand(0) == "0x0"
  {
    assert Hex(0x23) == Hex(2) + [DigitChar(3)];
    assert Hex(2) == "2";
  }

  // ---------------------------------------------------------------------------
  // constants

  /**
   * A constants block of N names is N + 3 lines: cblock, one indented line
   * per name in invocation order, endc and a blank line; no name line can be
   * mistaken for the directives around it.
   */
  lemma ConstantsShape(names: seq<string>)
    ensures var ls := Emit(Constants(names)).lines;
      && Emit(Constants(names)).Ok()
      && |ls| == |names| + 3
      && ls[0] == "\tcblock 0x08"
      && (forall k :: 0 <= k < |names| ==> ls[k + 1] == "\t\t" + names[k])
      && ls[|names| + 1] == "\tendc"
      && ls[|names| + 2] == ""
      && (forall k :: 1 <= k <= |names| ==> ls[k] != "\tendc" && ls[k] != "\tcblock 0x08")
  {
    var ls := Emit(Constants(names)).lines;
    forall k | 1 <= k <= |names| ensures ls[k] != "\tendc" && ls[k] != "\tcblock 0x08" {
      assert ls[k] == "\t\t" + names[k - 1];
      assert ls[k][1] == '\t';
    }
  }

  // ---------------------------------------------------------------------------
  // config_io

  /** A pin is an input when the mapping sends it to anything but :out. */
  predicate IsInput(pins: seq<Pins.Entry>, pin: string) {
    Pins.Lookup(pins, pin).Some? && Pins.Lookup(pins, pin).value != "out"
  }

  /**
   * config_io writes the tris mask as eight binary digits: the digit for
   * bit i is 1 exactly when i is below 4 and gp<i> is an input; unmapped
   * pins, pins mapped to :out and bits 4 to 7 are 0.
   */
  lemma ConfigIoField(pins: seq<Pins.Entry>)
    ensures var f := Bin8(Pins.Mask(pins));
      && Emit(ConfigIo(pins)).lines == ["\tmovlw\tb'" + f + "'", "\ttris\tGPIO", ""]
      && |f| == 8
      && forall i :: 0 <= i < 8 ==> ShowsBit(f, pins, i)
  {
    var t := Pins.Mask(pins);
    Pins.MaskBelow16(pins);
    Bin8Bits(t, 0);
    var f := Bin8(t);
    forall i | 0 <= i < 8
      ensures ShowsBit(f, pins, i)
    {
      Bin8Bits(t, i);
      Pins.MaskBits(pins, i);
      if i < 4 {
        assert Pins.Input(pins, Pins.PinName(i)) == 1 <==> IsInput(pins, Pins.PinName(i));
      }
    }
  }

  /** The binary digit for bit i, 7 - i from the left of the field, is 1 exactly when gp<i> is an input. */
  predicate ShowsBit(f: string, pins: seq<Pins.Entry>, i: nat)
    requires |f| == 8 && i < 8
  {
    (f[7 - i] == '1' || f[7 - i] == '0') &&
    (f[7 - i] == '1' <==> i < 4 && IsInput(pins, Pins.PinName(i)))
  }

  /** An entry whose key is not gp0 to gp3 leaves the mask as it was. */
  lemma ConfigIoIgnoresOtherKeys(pins: seq<Pins.Entry>, key: string, state: string)
    requires key != "gp0" && key != "gp1" && key != "gp2" && key != "gp3"
    ensures Emit(ConfigIo(pins + [(key, state)])) == Emit(ConfigIo(pins))
  {
    Pins.MaskStep(pins, key, state);
  }

  /** Two Hash literals with the same entries configure the pins the same way, whatever their order. */
  lemma ConfigIoOrderIndependent(m: seq<Pins.Entry>, n: seq<Pins.Entry>)
    requires Pins.DistinctKeys(m) && Pins.DistinctKeys(n)
    requires forall e :: e in m <==> e in n
    ensures Emit(ConfigIo(m)) == Emit(ConfigIo(n))
  {
    Pins.MaskOrderIndependent(m, n);
  }

  // ---------------------------------------------------------------------------
  // set_io

  /** The ports set_io drives; gp3 is input-only on the PIC10F202. */
  predicate ValidPort(p: string) {
    p == "gp0" || p == "gp1" || p == "gp2"
  }

  /** The line for one entry: bsf for :hi and bcf for anything else, on the port's bit. */
  lemma PortLineMeaning(p: string, state: string)
    ensures Pins.PortLine(p, state).Some? <==> ValidPort(p)
    ensures ValidPort(p) ==>
      Pins.PortLine(p, state).value ==
        (if state == "hi" then "\tbsf" else "\tbcf") + "\tGPIO, " + [p[2]]
  {
  }

  lemma {:induction false} PortsTraceOk(ports: seq<Pins.Entry>)
    ensures PortsTrace(ports).Ok() <==> forall k :: 0 <= k < |ports| ==> ValidPort(ports[k].0)
    ensures PortsTrace(ports).Ok() ==>
      |PortsTrace(ports).lines| == |ports| &&
      forall k :: 0 <= k < |ports| ==>
        PortsTrace(ports).lines[k] == Pins.PortLine(ports[k].0, ports[k].1).value
    decreases |ports|
  {
    if ports != [] {
      var init, last := ports[..|ports| - 1], ports[|ports| - 1];
      PortsTraceOk(init);
      PortLineMeaning(last.0, last.1);
      forall k | 0 <= k < |init| ensures init[k] == ports[k] {
      }
    }
  }

  /** set_io stops at the first entry whose port is not gp0 to gp2, after the lines of the entries before it. */
  lemma PortsTraceFails(ports: seq<Pins.Entry>, j: nat)
    requires j < |ports| && !ValidPort(ports[j].0)
    requires forall k :: 0 <= k < j ==> ValidPort(ports[k].0)
    ensures PortsTrace(ports) == Trace(PortsTrace(ports[..j]).lines, Some(InvalidPort(ports[j].0)))
  {
    PortsTraceOk(ports[..j]);
    PortsTraceSnoc(ports, j);
    PortLineMeaning(ports[j].0, ports[j].1);
    PortsTraceStops(ports, j + 1);
  }

  /**
   * set_io succeeds exactly when every port is gp0 to gp2; it then writes one
   * line per entry in entry order, bsf exactly for :hi, and one blank line.
   * Otherwise the run aborts naming the first offending port.
   */
  lemma SetIoOutcome(ports: seq<Pins.Entry>)
    ensures Emit(SetIo(ports)).Ok() <==> forall k :: 0 <= k < |ports| ==> ValidPort(ports[k].0)
    ensures var ls := Emit(SetIo(ports)).lines;
      Emit(SetIo(ports)).Ok() ==>
        && |ls| == |ports| + 1
        && ls[|ports|] == ""
        && forall k :: 0 <= k < |ports| ==>
             ls[k] == (if ports[k].1 == "hi" then "\tbsf" else "\tbcf") + "\tGPIO, " + [ports[k].0[2]]
    ensures forall j :: (0 <= j < |ports| && !ValidPort(ports[j].0) &&
      (forall k :: 0 <= k < j ==> ValidPort(ports[k].0))) ==>
        Emit(SetIo(ports)).error == Some(InvalidPort(ports[j].0))
  {
    PortsTraceOk(ports);
    forall k | 0 <= k < |ports| && ValidPort(ports[k].0) {
      PortLineMeaning(ports[k].0, ports[k].1);
    }
    forall j | 0 <= j < |ports| && !ValidPort(ports[j].0) &&
      (forall k :: 0 <= k < j ==> ValidPort(ports[k].0))
      ensures Emit(SetIo(ports)).error == Some(InvalidPort(ports[j].0))
    {
      PortsTraceFails(ports, j);
    }
  }

  // ---------------------------------------------------------------------------
  // delay and decrement_and_test

  /** delay with a count of n writes exactly n calls of the 4 microsecond routine, then a blank line. */
  lemma DelayShape(n: nat)
    ensures var ls := Emit(Delay(n)).lines;
      && Emit(Delay(n)).Ok()
      && |ls| == n + 1
      && (forall k :: 0 <= k < n ==> ls[k] == Emit(Call(DelayRoutine)).lines[0])
      && ls[n] == ""
  {
    DelayCallsBuiltInRoutine();
  }

  // ---------------------------------------------------------------------------
  // Some of the fragments the generator's tests look for: the header, the loop,
  // the three config_io cases, decrement_and_test and the subroutine call

  lemma EmitAllSingle(c: Command)
    ensures EmitAll([c]) == Emit(c)
  {
    assert EmitAll([c]) == Emit(c).Then(EmitAll([]));
  }

  /** The line a call writes, once the label of its name is known. */
  lemma CallLineOf(name: string, heading: string)
    requires Capitalize(name) == heading
    ensures Emit(Call(name)).lines == ["\tcall\t" + heading]
  {
  }

  /** What `decrement_and_test(sym, :jump, target)` writes, once the label of the target is known. */
  lemma DecrementAndJumpOf(sym: string, target: string, heading: string)
    requires Capitalize(target) == heading
    ensures Emit(DecrementAndTest(sym, Jump(target))).lines ==
      ["\tdecfsz\t" + sym + ", f", "\tgoto\t" + heading, "", ""]
  {
  }

  // The example lines, spelled out. These facts about string literals, like the
  // *Split, *Rest and *Raised facts of the labels, each get a lemma of their own:
  // proved in one lemma together, they cost the solver several times as much.
  lemma JoinDelayCall()
    ensures "\tcall\t" + "Four_microsecond_delay" == DelayCall
  {
  }

  lemma JoinDecrementAndTest()
    ensures "\tdecfsz\t" + "foo" + ", f" == "\tdecfsz\tfoo, f"
    ensures "\tgoto\t" + "Test_decrement_and_test" == "\tgoto\tTest_decrement_and_test"
  {
  }

  lemma JoinSubroutineCall()
    ensures "\tcall\t" + "Test_subroutine_call" == "\tcall\tTest_subroutine_call"
  {
  }

  /** The identifiers the examples below use. */
  const MainName: string := "main"
  const DecrementAndTestName: string := "test_decrement_and_test"
  const SubroutineCallName: string := "test_subroutine_call"

  lemma MainLabel()
    ensures Capitalize(MainName) == "Main"
  {
    MainLabelSpelling();
    LabelOfIdentifier('m', "ain", "Main");
  }

  lemma MainLabelSpelling()
    ensures MainName == ['m'] + "ain"
    ensures NoUpper("ain") && [Upper('m')] + "ain" == "Main"
  {
  }

  lemma DecrementAndTestLabel()
    ensures Capitalize(DecrementAndTestName) == "Test_decrement_and_test"
  {
    DecrementAndTestNameSplit();
    DecrementAndTestNameRest();
    DecrementAndTestNameRaised();
    LabelOfIdentifier('t', "est_decrement_and_test", "Test_decrement_and_test");
  }

  lemma DecrementAndTestNameSplit()
    ensures DecrementAndTestName == ['t'] + "est_decrement_and_test"
  {
  }

  lemma DecrementAndTestNameRest()
    ensures NoUpper("est_decrement_and_test")
  {
  }

  lemma DecrementAndTestNameRaised()
    ensures [Upper('t')] + "est_decrement_and_test" == "Test_decrement_and_test"
  {
  }

  lemma SubroutineCallLabel()
    ensures Capitalize(SubroutineCallName) == "Test_subroutine_call"
  {
    SubroutineCallNameSplit();
    SubroutineCallNameRest();
    SubroutineCallNameRaised();
    LabelOfIdentifier('t', "est_subroutine_call", "Test_subroutine_call");
  }

  lemma SubroutineCallNameSplit()
    ensures SubroutineCallName == ['t'] + "est_subroutine_call"
  {
  }

  lemma SubroutineCallNameRest()
    ensures NoUpper("est_subroutine_call")
  {
  }

  lemma SubroutineCallNameRaised()
    ensures [Upper('t')] + "est_subroutine_call" == "Test_subroutine_call"
  {
  }

  /** `loop(:main) { set(:foo, 0x23) }` */
  lemma LoopExample()
    ensures Program([Loop(MainName, [Set("foo", 0x23)])]) ==
      Preamble() + ["Main", "\tmovlw\t0x23", "\tmovwf\tfoo", "", "", "\tgoto\tMain", "", "\tend", ""]
  {
    HexOperandExamples();
    MainLabel();
    assert "\tmovlw\t" + HexOperand(0x23) == "\tmovlw\t0x23";
    assert "\tmovwf\t" + "foo" == "\tmovwf\tfoo";
    assert "\tgoto\t" + "Main" == "\tgoto\tMain";
    EmitAllSingle(Set("foo", 0x23));
    assert Emit(Set("foo", 0x23)) == Lines(["\tmovlw\t0x23", "\tmovwf\tfoo", ""]);
    EmitAllSingle(Loop(MainName, [Set("foo", 0x23)]));
    assert Emit(Loop(MainName, [Set("foo", 0x23)])).lines ==
      ["Main", "\tmovlw\t0x23", "\tmovwf\tfoo", "", "", "\tgoto\tMain", ""];
  }

  /** The mask of a mapping that names each of gp0 to gp3 once, in order. */
  lemma MaskOfFour(a: string, b: string, c: string, d: string)
    ensures Pins.Mask([("gp0", a), ("gp1", b), ("gp2", c), ("gp3", d)]) ==
      (if a == "out" then 0 else 1) + (if b == "out" then 0 else 2) +
      (if c == "out" then 0 else 4) + (if d == "out" then 0 else 8)
  {
    var m := [("gp0", a), ("gp1", b), ("gp2", c), ("gp3", d)];
    assert Pins.DistinctKeys(m);
    Pins.LookupMember(m, "gp0", a);
    Pins.LookupMember(m, "gp1", b);
    Pins.LookupMember(m, "gp2", c);
    Pins.LookupMember(m, "gp3", d);
  }

  /** `config_io(:gp0 => :out, :gp1 => :out, :gp2 => :in, :gp3 => :in)` */
  lemma ConfigIoPartialExample()
    ensures Emit(ConfigIo([("gp0", "out"), ("gp1", "out"), ("gp2", "in"), ("gp3", "in")])).lines ==
      ["\tmovlw\tb'00001100'", "\ttris\tGPIO", ""]
  {
    MaskOfFour("out", "out", "in", "in");
    assert Bin(12) == Bin(6) + ['0'];
    assert Bin(6) == Bin(3) + ['0'];
    assert Bin(3) == Bin(1) + ['1'];
    assert Bin(12) == "1100";
    assert seq(4, _ => '0') == "0000";
    assert Bin8(12) == "0000" + "1100" == "00001100";
    assert "\tmovlw\tb'" + "00001100" + "'" == "\tmovlw\tb'00001100'";
  }

  /** All pins out, and all pins in. */
  lemma ConfigIoAllExamples()
    ensures Bin8(Pins.Mask([("gp0", "out"), ("gp1", "out"), ("gp2", "out"), ("gp3", "out")])) == "00000000"
    ensures Bin8(Pins.Mask([("gp0", "in"), ("gp1", "in"), ("gp2", "in"), ("gp3", "in")])) == "00001111"
  {
    MaskOfFour("out", "out", "out", "out");
    MaskOfFour("in", "in", "in", "in");
    assert Bin(0) == "0";
    assert Bin(15) == Bin(7) + ['1'];
    assert Bin(7) == Bin(3) + ['1'];
    assert Bin(3) == Bin(1) + ['1'];
    assert Bin(15) == "1111";
    assert seq(4, _ => '0') == "0000";
    assert Bin8(15) == "0000" + "1111" == "00001111";
  }

  /** `decrement_and_test(:foo, :jump, :test_decrement_and_test)` */
  lemma DecrementAndTestExample()
    ensures Emit(DecrementAndTest("foo", Jump(DecrementAndTestName))).lines ==
      ["\tdecfsz\tfoo, f", "\tgoto\tTest_decrement_and_test", "", ""]
  {
    DecrementAndTestLabel();
    DecrementAndJumpOf("foo", DecrementAndTestName, "Test_decrement_and_test");
    JoinDecrementAndTest();
  }

  /** `test_subroutine_call`, a name that is no operation. */
  lemma SubroutineCallExample()
    ensures Emit(Call(SubroutineCallName)).lines == ["\tcall\tTest_subroutine_call"]
  {
    SubroutineCallLabel();
    CallLineOf(SubroutineCallName, "Test_subroutine_call");
    JoinSubroutineCall();
  }

  /** `set_io(:gp3 => :hi)` aborts: gp3 cannot be driven. */
  lemma SetIoInvalidExample()
    ensures Emit(SetIo([("gp3", "hi")])).error == Some(InvalidPort("gp3"))
    ensures Message(InvalidPort("gp3")) == "Invalid port gp3 specified"
  {
    SetIoOutcome([("gp3", "hi")]);
  }
}
