# rbPIC code generator, modelled in Dafny

rbPIC is a Ruby DSL that writes PIC10F202 assembly. Its generator,
`RbPIC::RSM`, owns one array of output lines. On construction it writes the
device include, the configuration fuses, the reset vector and a built-in
`Four_microsecond_delay` subroutine. Every DSL operation then appends a fixed
template with its arguments formatted in:

- labels go through `String#capitalize`;
- numbers are written as `0x` plus lower-case hexadecimal;
- the tris mask is written as eight binary digits.

Any name that is not an operation, invoked without arguments, becomes a
`call` of the capitalized name, through `method_missing`. `constants` hands the same array to
`RbPIC::RSMConstant`. That class writes `cblock 0x08` and one line per name
invoked in its block, and `constants` then closes the block with `endc`.
`RSM.load` builds a generator, replays the DSL body, writes `end` and returns
the lines.

The model has six modules:

- `Wrappers` holds `Option` and `Result`.
- `Text` holds the three formatting rules: `Capitalize`, `Hex` and `Bin8`, and `ToBase`/`FromBase` behind them.
- `Pins` models the pin mappings of `config_io` and `set_io`. A Ruby Hash literal is the sequence of its entries in order, and a symbol is its text.
- `Emission` defines a closed `Command` datatype, with one variant per operation and `Call` for the fallback. `Emit` gives the lines each invocation appends, and the error that stops the run there, if any. `Program` is what a successful load returns.
- `Generator` is the imperative generator itself:
  - a shared `LineBuffer` object stands for the aliased Ruby array `@code`;
  - `RSMConstant` and `RSM` are classes holding a reference to it;
  - each operation is a method whose contract ties the new buffer to `old(code.lines) + Emit(...)`;
  - `Run` and `Execute` replay nested bodies into the same buffer, as `instance_eval` and `send` do;
  - `config_io`, `set_io`, `constants` and `delay` are loops with their invariants;
  - `Load` returns `Success(Program(body))`, or the error that stopped the run.
- `Properties` states what the output looks like:
  - the preamble;
  - the shape of every template;
  - label agreement between definitions and references;
  - the operand formats;
  - the config_io mask and the set_io outcome;
  - example instances of some of the fragments the repository's tests expect: the header, the loop, the three config_io cases, decrement_and_test and the subroutine call.

The three ways a run can stop are an `Error`:

- `InvalidPort` is `set_io`'s `abort` on a port other than gp0 to gp2.
- `ArgumentError` is what Ruby raises when `decrement_and_test` sends to an operation that does not accept exactly one argument.
- `TypeError` is what Ruby raises when `decrement_and_test` sends to `decrement_and_test` itself. The inner call accepts the one argument and writes its own `decfsz` on it. It then has no operation and runs `send(nil, nil)`.

### Two details of the code

- **Label case.** `String#capitalize` lowers every character after the first (lib/rbpic/gen.rb:60), so `:myLabel` becomes `Mylabel`, not `MyLabel`.
- **Unmapped pins.** `config_io` starts `tris` at 0 (lib/rbpic/gen.rb:99), so an unmapped pin gets bit 0, which makes it an output.

## Model

| member | source | states |
|---|---|---|
| Generator.RSM.Load | lib/rbpic/gen.rb:29-40 | load succeeds exactly when the replayed body raises nothing. On success it returns the preamble, the body's lines and `end`, blank. On failure it returns the error that stopped the body |
| Generator.RSM.constructor | lib/rbpic/gen.rb:43-56 | a fresh buffer holding exactly the preamble: the header directives, the delay subroutine defined through `subr`, and a blank line |
| Generator.RSM.Run | lib/rbpic/gen.rb:61 | replaying a body appends, in invocation order, what each invocation appends, stopping at the first error and returning it |
| Generator.RSM.Execute | lib/rbpic/gen.rb:269-271 | one invocation dispatched on its operation appends that operation's template; a name that is no operation falls to method_missing |
| Generator.RSM.ExecuteInstruction | lib/rbpic/gen.rb:123-260 | register, bit and jump operations append their template and never fail |
| Generator.RSM.Subr | lib/rbpic/gen.rb:59-63 | appends the capitalized label, the body in place and a blank line; an error in the body is returned |
| Generator.RSM.Done | lib/rbpic/gen.rb:66-69 | appends `retlw` with the hexadecimal operand, then a blank line |
| Generator.RSM.Constants | lib/rbpic/gen.rb:72-78 | through one RSMConstant on the same buffer: cblock, one indented line per name in order, endc, blank |
| Generator.RSM.InitClock | lib/rbpic/gen.rb:90-95 | appends the OSCCAL move, the OPTION literal and `option`, then a blank line |
| Generator.RSM.ConfigIo | lib/rbpic/gen.rb:98-120 | the loop's bit clears and bit sets leave the order-independent mask of the mapping, which is written as eight binary digits before `tris GPIO` |
| Generator.RSM.Set | lib/rbpic/gen.rb:123-127 | appends movlw of the hexadecimal value and movwf to the register, then a blank line |
| Generator.RSM.Loop | lib/rbpic/gen.rb:130-134 | a block followed by a goto to its own label and a blank line; an error in the body is returned |
| Generator.RSM.Block | lib/rbpic/gen.rb:137-141 | appends the capitalized label, the body in place and a blank line; an error in the body is returned |
| Generator.RSM.SetIo | lib/rbpic/gen.rb:144-158 | one bsf/bcf line per entry in order, then a blank line; the first port outside gp0 to gp2 aborts with InvalidPort |
| Generator.RSM.SetBit | lib/rbpic/gen.rb:161-164 | appends bsf on the register and hexadecimal bit, then a blank line |
| Generator.RSM.ClearBit | lib/rbpic/gen.rb:167-170 | appends bcf on the register and hexadecimal bit, then a blank line |
| Generator.RSM.Test | lib/rbpic/gen.rb:173-177 | appends btfss on the bit and a goto to the capitalized target, then a blank line |
| Generator.RSM.DecrementBy | lib/rbpic/gen.rb:180-184 | appends movlw of the value and subwf into the register, then a blank line |
| Generator.RSM.IncrementBy | lib/rbpic/gen.rb:187-191 | appends movlw of the value and addwf into the register, then a blank line |
| Generator.RSM.Copy | lib/rbpic/gen.rb:194-198 | appends movf from the source and movwf to the destination, then a blank line |
| Generator.RSM.TestCarry | lib/rbpic/gen.rb:201-205 | appends btfss on STATUS bit 0 and a goto to the capitalized target, then a blank line |
| Generator.RSM.Add | lib/rbpic/gen.rb:208-212 | appends movlw of the value and addwf into W, then a blank line |
| Generator.RSM.Subtract | lib/rbpic/gen.rb:215-219 | appends movlw of the value and subwf into W, then a blank line |
| Generator.RSM.SubtractAndSet | lib/rbpic/gen.rb:222-225 | appends movf and subwf into the register, with no blank line |
| Generator.RSM.Delay | lib/rbpic/gen.rb:228-235 | the loop appends exactly the given number of delay calls, then a blank line |
| Generator.RSM.DecrementAndTest | lib/rbpic/gen.rb:238-242 | appends decfsz, then what the one-argument operation appends, then a blank line; a nested decrement_and_test appends its own decfsz and gives TypeError; any other operation gives ArgumentError |
| Generator.RSM.Jump | lib/rbpic/gen.rb:245-248 | appends a goto to the capitalized label, then a blank line |
| Generator.RSM.Increment | lib/rbpic/gen.rb:251-254 | appends incf on the register, then a blank line |
| Generator.RSM.Decrement | lib/rbpic/gen.rb:257-260 | appends decf on the register, then a blank line |
| Generator.RSM.EndCode | lib/rbpic/gen.rb:263-266 | appends `end` and a blank line |
| Generator.RSM.MethodMissing | lib/rbpic/gen.rb:269-271 | appends a call of the capitalized name, with no blank line |
| Generator.RSM.EmitLine | lib/rbpic/gen.rb:277-279 | appends exactly one line to the shared buffer |
| Generator.RSMConstant.constructor | lib/rbpic/gen.rb:11-14 | keeps the caller's buffer, not a copy, and appends cblock to it |
| Generator.RSMConstant.MethodMissing | lib/rbpic/gen.rb:17-19 | appends the name indented by two tabs to the shared buffer |
| Generator.LineBuffer.Append | lib/rbpic/gen.rb:278 | Array#<< adds exactly one line at the end |
| Text.CapitalizeShape | lib/rbpic/gen.rb:60 | a label has the identifier's letters in order, with no lower-case first letter and no upper-case letter after it |
| Text.CapitalizeFixesLabels | lib/rbpic/gen.rb:60 | capitalizing a label gives the label back |
| Text.CapitalizeIdempotent | lib/rbpic/gen.rb:60 | capitalizing twice is capitalizing once |
| Text.CapitalizeSameLabel | lib/rbpic/gen.rb:138 | two identifiers give the same label exactly when they differ at most in case |
| Text.CapitalizeIdentifier | lib/rbpic/gen.rb:54 | a lower-case identifier has only its first letter raised |
| Text.ToBaseRoundTrip | lib/rbpic/gen.rb:67 | reading back the digits of `to_s(base)` gives the number |
| Text.ToBaseCanonical | lib/rbpic/gen.rb:124 | `to_s(base)` writes lower-case digits of the base, with a leading 0 only for zero |
| Text.FromBaseRoundTrip | lib/rbpic/gen.rb:162 | every canonical digit string is exactly what `to_s(base)` writes for its value |
| Text.ToBaseDigitAt | lib/rbpic/gen.rb:117 | the character i places from the right is the i-th digit of the number |
| Text.BinShort | lib/rbpic/gen.rb:117 | a number below 2^k has at most k binary digits |
| Text.Bin8Bits | lib/rbpic/gen.rb:117 | for a byte the padded field has eight characters, and the one 7 - i from the left is bit i |
| Pins.LookupMember | lib/rbpic/gen.rb:101 | with distinct keys, looking a key up finds v exactly when the entry is in the mapping |
| Pins.MaskStep | lib/rbpic/gen.rb:102-114 | one `case` step clears the pin's bit for :out, sets it otherwise and skips unknown keys, taking the mask of the entries seen to the mask of one more |
| Pins.MaskBits | lib/rbpic/gen.rb:98-115 | bit i of the mask is set exactly when i is below 4 and gp<i> is mapped to something other than :out |
| Pins.MaskBelow16 | lib/rbpic/gen.rb:98-115 | the mask never has a bit above bit 3 |
| Pins.MaskOrderIndependent | lib/rbpic/gen.rb:101-115 | two mappings with the same entries give the same mask |
| Emission.EmitAllAppend | lib/rbpic/gen.rb:139 | replaying a + b is replaying a and then b |
| Emission.EmitAllStops | lib/rbpic/gen.rb:154 | once a prefix of a body has failed, the rest of the body adds nothing |
| Emission.PortsTraceStops | lib/rbpic/gen.rb:153-154 | once set_io has aborted, later entries add nothing |
| Emission.DecrementAndTestStep | lib/rbpic/gen.rb:238-242 | decrement_and_test succeeds exactly when the operation accepts one argument and succeeds. It writes decfsz; a nested decrement_and_test adds its own decfsz and stops with TypeError; an operation that does not accept one argument stops it with ArgumentError; otherwise it writes the operation's lines and, if that succeeded, a blank line, or stops with the operation's error |
| Properties.PreambleLines | lib/rbpic/gen.rb:43-56 | the preamble is exactly the eleven lines including `Four_microsecond_delay` and `retlw 0x0` |
| Properties.DelayRoutineLabel | lib/rbpic/gen.rb:54 | the built-in routine is labelled `Four_microsecond_delay` |
| Properties.DelayCallsBuiltInRoutine | lib/rbpic/gen.rb:232 | delay's call line targets the label the constructor defines |
| Properties.ProgramFrame | lib/rbpic/gen.rb:38 | a program opens with the eleven preamble lines and ends with `end` and one blank line |
| Properties.EndsWithBlank | lib/rbpic/gen.rb:222-225 | a finished operation's last line is blank exactly when it is neither the fallback call nor subtract_and_set |
| Properties.InstructionEndsWithBlank | lib/rbpic/gen.rb:222-225 | of the register, bit and jump operations only subtract_and_set does not end on a blank line |
| Properties.OperationEndsWithBlank | lib/rbpic/gen.rb:269-271 | of the other operations only the fallback call does not end on a blank line, once the operation has finished |
| Properties.BlockShape | lib/rbpic/gen.rb:137-141 | subr and block write the same thing: the label, the body in place, and a blank line unless the body failed |
| Properties.LoopShape | lib/rbpic/gen.rb:130-134 | a loop is its block followed by a goto to the block's own heading |
| Properties.NestedInOrder | lib/rbpic/gen.rb:139 | lines of a nested block sit between the lines before it and after it, in order |
| Properties.LabelsAgree | lib/rbpic/gen.rb:175 | goto operands of jump, test and test_carry and the call operand of the fallback name a block's heading exactly when the identifiers differ at most in case |
| Properties.Headings | lib/rbpic/gen.rb:130-141 | block, subr and loop open with the capitalized name |
| Properties.GotoTargets | lib/rbpic/gen.rb:173-177 | the goto of jump, test and test_carry reaches a heading exactly when the two identifiers differ at most in case |
| Properties.CallTarget | lib/rbpic/gen.rb:269-271 | the fallback's call reaches a heading exactly when the two identifiers differ at most in case |
| Properties.HexOperandMeaning | lib/rbpic/gen.rb:124 | an operand is `0x` and canonical lower-case hex digits whose value is the number |
| Properties.HexOperandInjective | lib/rbpic/gen.rb:181 | two numbers get the same operand exactly when they are equal |
| Properties.HexOperandOnto | lib/rbpic/gen.rb:188 | every canonical hexadecimal string is the operand of its value |
| Properties.HexOperandExamples | test/gen.rb:90-100 | 0x23, 5 and 0 are written `0x23`, `0x5`, `0x0` |
| Properties.ConstantsShape | lib/rbpic/gen.rb:72-78 | N names give N + 3 lines: cblock, the names in order, endc, blank; no name line reads as cblock or endc |
| Properties.ConfigIoField | lib/rbpic/gen.rb:117 | the field has eight binary digits, and the digit for bit i is 1 exactly when i is below 4 and gp<i> is an input |
| Properties.ConfigIoIgnoresOtherKeys | lib/rbpic/gen.rb:102-114 | an entry for a key other than gp0 to gp3 changes nothing |
| Properties.ConfigIoOrderIndependent | lib/rbpic/gen.rb:101 | the order of a Hash's entries does not change what config_io writes |
| Properties.MaskOfFour | lib/rbpic/gen.rb:104-113 | a mapping naming gp0 to gp3 in order has bit i set exactly for the pins not mapped to :out |
| Properties.PortLineMeaning | lib/rbpic/gen.rb:146-152 | gp0 to gp2 get a line, bsf for :hi and bcf otherwise, on the port's bit; any other port gets none |
| Properties.PortsTraceOk | lib/rbpic/gen.rb:145-156 | set_io's loop succeeds exactly when every port is valid, and then writes one line per entry in order |
| Properties.PortsTraceFails | lib/rbpic/gen.rb:153-154 | the loop stops on the first invalid port, naming it, after the lines of the entries before it |
| Properties.SetIoOutcome | lib/rbpic/gen.rb:144-158 | set_io succeeds exactly when all ports are gp0 to gp2, writes bsf exactly for :hi and ends with a blank line; otherwise it aborts on the first bad port |
| Properties.DelayShape | lib/rbpic/gen.rb:228-235 | n gives n calls of the delay routine and one blank line |
| Properties.MainLabel | test/gen.rb:104 | `main` becomes `Main` |
| Properties.DecrementAndTestLabel | test/gen.rb:281 | `test_decrement_and_test` becomes `Test_decrement_and_test` |
| Properties.SubroutineCallLabel | test/gen.rb:325 | `test_subroutine_call` becomes `Test_subroutine_call` |
| Properties.CallLineOf | lib/rbpic/gen.rb:269-271 | the fallback writes exactly one line, a call of the name's label |
| Properties.DecrementAndJumpOf | lib/rbpic/gen.rb:238-248 | `decrement_and_test(sym, :jump, target)` writes decfsz on sym, the goto to the target's label and two blank lines |
| Properties.LoopExample | test/gen.rb:103-114 | `loop(:main) { set(:foo, 0x23) }` loads to the preamble, the labelled loop body, its goto back, then `end` |
| Properties.ConfigIoPartialExample | test/gen.rb:78-87 | gp0 and gp1 out, gp2 and gp3 in, give `b'00001100'` |
| Properties.ConfigIoAllExamples | test/gen.rb:54-75 | all out gives `00000000` and all in gives `00001111` |
| Properties.DecrementAndTestExample | test/gen.rb:279-288 | decfsz on foo, then the goto to `Test_decrement_and_test` |
| Properties.SubroutineCallExample | test/gen.rb:324-332 | an unknown name becomes a call to its capitalized label |
| Properties.SetIoInvalidExample | lib/rbpic/gen.rb:154 | driving gp3 aborts with `Invalid port gp3 specified` |

## Left out

- The file branch of `RSM.load` is not modelled: reading a script with `IO.read` and evaluating its text is file I/O and Ruby evaluation. The body is given as a sequence of Commands.
- Ruby's dynamic dispatch (`instance_eval`, `send`, `method_missing`) is replaced by the closed `Command` datatype, with `Call` as the default case. Names that collide with Kernel or Object methods, such as `puts` inside a constants block, would bypass `method_missing` in Ruby; the model does not capture that.
- `send` can also reach the private `_emit` from `decrement_and_test`. The model does not allow that operation there.
- Generator.RSM.Execute: `Call` carries no arguments. In Ruby, `RSM#method_missing` takes only the name (lib/rbpic/gen.rb:269), so an unknown name invoked with arguments, such as `my_sub(3)`, raises ArgumentError instead of writing a `call`. Names inside a constants block accept arguments and ignore them (lib/rbpic/gen.rb:17), as the model's constants lines do.
- Generator.RSM.Execute: the name in `Call` is assumed not to be a method of RSM. In Ruby such a name never reaches `method_missing` (lib/rbpic/gen.rb:269). A bare `init_clock` or `end_code` writes its template. A bare `code` is the reader (lib/rbpic/gen.rb:26) and writes nothing. A bare `constants` writes `cblock 0x08` and then raises ArgumentError, because `instance_eval` gets no block. `_emit` and the operations with required arguments (`set`, `jump`, `done` and the others) raise ArgumentError. The model writes a `call` of the capitalized name for each of them.
- Generator.RSM.Delay: takes the call count as a natural number. The float computation `secs / 4.0e-6` with `ceil` is not modelled.
- `abort` ends the Ruby process after printing its message. The model returns `InvalidPort` from the run, and `Load` returns it as a `Failure`. An `ArgumentError` or `TypeError` is an exception in Ruby and is likewise a `Failure`.
- Generator.RSM.DecrementAndTest: when the operation is subr, block or loop without a block, Ruby writes the label before raising. The model raises at once. The whole load fails either way, so no returned program differs.
- Generator.RSM.DecrementAndTest: a nested decrement_and_test is written with a Command of its own, but Ruby only passes it the register. The model uses that register and ignores the nested Command's operation, as Ruby does.
- Numeric arguments are natural numbers. Negative values, which `to_s(16)` would write with a minus sign, are not modelled.
- Text.Capitalize: changes case for ASCII letters only. Ruby's `String#capitalize` also maps non-ASCII letters.
- Symbols are modelled as their text. A mapping is a sequence of entries. A Ruby Hash never has a repeated key: its literal keeps the first position and the last value. So `set_io` on a sequence with a repeated key writes one line per repetition, where Ruby would write one. The config_io mask is the same either way, because later entries override earlier ones.
- `test_copy` in test/gen.rb:210-217 asserts nothing, so it has no example lemma. `Emit` still gives the copy template.
