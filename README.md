# CCTweaks-Lua core in Dafny

A model of three parts of CCTweaks-Lua, the Lua-runtime extension for
ComputerCraft, with proofs of what each part promises.

- `LuaEnvironment.dfy` covers the host side of `LuaEnvironment`.
  - **Task bridge.** `issueTask` draws a task id from the scheduler (`DelayedTasks`) and registers it. `executeTask` and `sleep` then pull completion events until one carries that id. The pulled events are an input sequence, and the loop is proved against a recursive specification (`Await`).
  - **Runtime registry.** Runtime factories are kept by id, and a runtime is chosen with a fallback to `luaj`.
  - **API factories.** Factories are registered, and `inject` attaches each API they create to a computer. `LuaAPI.willYield` is modelled too.
  - **Mount bookkeeping.** `ComputerAccess` records which mount locations a session owns. The computer's file system is reduced to its bindings plus the paths where `exists` or a bind fails.
- `BigIntegerValue.dfy` covers the `biginteger` Lua library.
  - Argument coercion: `getValue`, `checklong` and `checkint`. Decimal text with ASCII digits, as `BigInteger` reads and prints it.
  - The opcode switch of `BigIntegerFunction.call`, including its ArithmeticException-to-NaN rule.
  - The two name tables, and `makeTable`, which fills the library table and its metatable. `makeTable` is imperative here, using classes for the Lua tables and the functions.
  - Java's `BigInteger` is Dafny's `int`, limited to BigInteger's supported range: a magnitude of at most Integer.MAX_VALUE bits. A result outside it raises ArithmeticException, which `call` turns into NaN. `pow` also makes BigInteger's early size test, which overestimates and so rejects some powers within the range, such as 3^1100000000.
  - Truncating division, floor shifts, two's-complement bitwise operations and gcd are written out, with lemmas giving their meaning.
- `AsmUtils.dfy` covers the bytecode helpers.
  - A method visitor is modelled by the list of calls made on it. Opcodes follow The Java Virtual Machine Specification, Java SE 8 Edition, section 6.5.
  - Covered: constant-instruction selection, the super-constructor call and default-constructor traces, and the accept/reject rule of `validateClass`.
- `JavaInts.dfy` and `Wrappers.dfy` are shared by the three.
  - `JavaInts.dfy` holds the Java integer widths and casts: `(int)`, `(short)`, `(byte)`, and `(int)` of a double.
  - `Wrappers.dfy` holds the `Option` and `Result` types.

Three behaviours of the code worth noting:

- **Id consumed on refusal.** `issueTask` draws an id before asking the scheduler to accept it, so a refused task still uses up an id (`LuaEnvironment.java:62-63`).
- **Truncated id match.** The completion event's id is compared after `Number.intValue()`, which keeps the low 32 bits. A task whose id is outside the int range is therefore never matched (`LuaEnvironment.Matches`).
- **Fixed fallback.** `getUsedMachine` always falls back to the id `"luaj"`; no default id is passed in.

## Model

| member | source | states |
|---|---|---|
| LuaEnvironment.IntValue | src/main/java/org/squiddev/cctweaks/lua/lib/LuaEnvironment.java:77 | `Number.intValue()` of an event id: an Integer as is, a Long reduced modulo 2^32 and unchanged in the int range, a Double truncated toward zero |
| LuaEnvironment.Matches | src/main/java/org/squiddev/cctweaks/lua/lib/LuaEnvironment.java:77 | an event ends the wait only if it has at least three elements, a Number id, a Boolean flag and a matching int-cut id; so a task id outside the int range is never matched |
| LuaEnvironment.Await | src/main/java/org/squiddev/cctweaks/lua/lib/LuaEnvironment.java:74-77 | the wait stops at the first pull that throws or yields a matching event, every event before it being malformed or for another task; if it never stops, every event was skipped |
| LuaEnvironment.AwaitStopsAt | src/main/java/org/squiddev/cctweaks/lua/lib/LuaEnvironment.java:74-77 | the stop is exactly the first pull that is not skipped, whatever follows it |
| LuaEnvironment.PullResponse | src/main/java/org/squiddev/cctweaks/lua/lib/LuaEnvironment.java:73-77 | the do-while pull loop stops where `Await` says |
| LuaEnvironment.AwaitExtends | src/main/java/org/squiddev/cctweaks/lua/lib/LuaEnvironment.java:74-77 | events queued after the stop never change the result; a queue that does not stop hands the decision on, shifted, to the events after it |
| LuaEnvironment.Completion | src/main/java/org/squiddev/cctweaks/lua/lib/LuaEnvironment.java:86-96 | a true flag returns exactly `response[3..]`, in order and of length `length - 3`; a false flag raises a LuaException, carrying `response[3]` exactly when it exists and is a String |
| LuaEnvironment.Outcome | src/main/java/org/squiddev/cctweaks/lua/lib/LuaEnvironment.java:68-97 | the wait blocks exactly when every pulled event is discarded; an interrupt comes only from an interrupted pull; returned values are the trailing values of a matching event with a true flag |
| LuaEnvironment.Rethrown | src/main/java/org/squiddev/cctweaks/lua/lib/LuaEnvironment.java:78-84 | an exception from the pull is rethrown unchanged: an interrupt stays an interrupt, and a LuaException keeps its message |
| LuaEnvironment.SuccessReturnsValues | src/main/java/org/squiddev/cctweaks/lua/lib/LuaEnvironment.java:86-95 | after any number of discarded events, a successful completion for this id returns exactly its trailing values |
| LuaEnvironment.FailureRaisesMessage | src/main/java/org/squiddev/cctweaks/lua/lib/LuaEnvironment.java:87-92 | a failed completion raises an error with its message when it carries one, and a message-less error otherwise |
| LuaEnvironment.OtherTaskCompletionDropped | src/main/java/org/squiddev/cctweaks/lua/lib/LuaEnvironment.java:74-77 | with two tasks outstanding, the other task's completion arriving first is consumed and dropped, and the wait returns this task's own values |
| LuaEnvironment.DelayedTasks.GetNextId | src/main/java/org/squiddev/cctweaks/lua/lib/LuaEnvironment.java:62 | hands out the counter's next id, which is not pending, and advances the counter, so ids never repeat |
| LuaEnvironment.DelayedTasks.AddTask | src/main/java/org/squiddev/cctweaks/lua/lib/LuaEnvironment.java:63 | accepts exactly when the pending table is below its limit, and then registers the pending task under the id |
| LuaEnvironment.DelayedTasks.Cancel | src/main/java/org/squiddev/cctweaks/lua/lib/LuaEnvironment.java:79 | removes exactly the given id from the pending table |
| LuaEnvironment.LuaEnvironment.IssueTask | src/main/java/org/squiddev/cctweaks/lua/lib/LuaEnvironment.java:60-66 | returns the id it drew and registers a pending task under it; when the scheduler is full it throws "Too many tasks" and registers nothing, but the id is used up |
| LuaEnvironment.LuaEnvironment.ExecuteTask | src/main/java/org/squiddev/cctweaks/lua/lib/LuaEnvironment.java:68-97 | the result is the completion outcome of `Await` for the drawn id; a pull that throws cancels that id before rethrowing, otherwise the pending entry stays |
| LuaEnvironment.LuaEnvironment.Sleep | src/main/java/org/squiddev/cctweaks/lua/lib/LuaEnvironment.java:99-102 | the same wait for the sleep task, returning no values on success; as in `executeTask`, "Too many tasks" leaves the pending table unchanged, a throwing pull cancels the sleep id, and otherwise the sleep task stays pending |
| LuaEnvironment.LuaEnvironment.RegisterApi | src/main/java/org/squiddev/cctweaks/lua/lib/LuaEnvironment.java:48-52 | corrected registration: null is refused with "factory cannot be null" and leaves the set unchanged; otherwise the factory joins the set |
| LuaEnvironment.RegisterApiAsWritten | src/main/java/org/squiddev/cctweaks/lua/lib/LuaEnvironment.java:48-52 | as written, a null factory is accepted into the set, because the null check is applied to the message |
| LuaEnvironment.LuaEnvironment.RegisterMachine | src/main/java/org/squiddev/cctweaks/lua/lib/LuaEnvironment.java:54-58 | null throws IllegalArgumentException; otherwise the factory replaces any earlier one with its id, and that id now resolves to it |
| LuaEnvironment.LuaEnvironment.Inject | src/main/java/org/squiddev/cctweaks/lua/lib/LuaEnvironment.java:104-114 | appends one adapter per registered factory whose `create` gives an API, each wrapping that API with its own factory, none twice; factories giving null are skipped and earlier APIs are kept |
| LuaEnvironment.CurrentMachine | src/main/java/org/squiddev/cctweaks/lua/lib/LuaEnvironment.java:121-123 | the factory registered under the configured id, present exactly when one is |
| LuaEnvironment.UsedMachine | src/main/java/org/squiddev/cctweaks/lua/lib/LuaEnvironment.java:130-140 | the configured runtime when registered, else "luaj" when registered, else IllegalStateException "Cannot find any runtime" exactly when neither is |
| LuaEnvironment.RuntimeResolution | src/main/java/org/squiddev/cctweaks/lua/lib/LuaEnvironment.java:130-140 | with "fast" and "luaj" registered: "fast" resolves to its own factory and an unknown id falls back to "luaj"; without "luaj" an unknown id fails |
| LuaEnvironment.WillYield | src/main/java/org/squiddev/cctweaks/lua/lib/LuaEnvironment.java:207-210 | true whenever the API is not an IMethodDescriptor, otherwise exactly the API's own answer |
| LuaEnvironment.ComputerAccess.constructor | src/main/java/org/squiddev/cctweaks/lua/lib/LuaEnvironment.java:219-222 | a new session owns nothing and has not fetched the file system yet |
| LuaEnvironment.ComputerAccess.GetFs | src/main/java/org/squiddev/cctweaks/lua/lib/LuaEnvironment.java:224-227 | returns the environment's file system and caches it |
| LuaEnvironment.FreeLocation | src/main/java/org/squiddev/cctweaks/lua/lib/LuaEnvironment.java:230-238 | the desired location when nothing exists there; none when something does or the existence check throws |
| LuaEnvironment.ComputerAccess.FindFreeLocation | src/main/java/org/squiddev/cctweaks/lua/lib/LuaEnvironment.java:230-238 | gives `FreeLocation` of the desired location and changes no ownership |
| LuaEnvironment.ComputerAccess.MountAt | src/main/java/org/squiddev/cctweaks/lua/lib/LuaEnvironment.java:246-260 | on an occupied location, returns none and changes nothing; on a free one, returns exactly it and records ownership even when the bind throws; the location then exists unless its bind was refused; keeps `Consistent` |
| LuaEnvironment.ComputerAccess.Mount | src/main/java/org/squiddev/cctweaks/lua/lib/LuaEnvironment.java:240-260 | `MountAt` with a read-only binding |
| LuaEnvironment.ComputerAccess.MountWritable | src/main/java/org/squiddev/cctweaks/lua/lib/LuaEnvironment.java:262-282 | `MountAt` with a writable binding |
| LuaEnvironment.ComputerAccess.Unmount | src/main/java/org/squiddev/cctweaks/lua/lib/LuaEnvironment.java:284-294 | null does nothing; a location the session does not own throws "You didn't mount this location" and changes nothing; otherwise it is unbound and dropped from the owned set, and nothing else changes; keeps `Consistent` |
| BigIntegerValue.ParseDecimal | src/main/java/org/squiddev/cctweaks/lua/lib/luaj/BigIntegerValue.java:154 | `new BigInteger(String)` on ASCII text: it parses exactly when it is an optional sign followed by one or more decimal digits; the value is the digits' value, negated after `-` |
| BigIntegerValue.DecimalRoundTrip | src/main/java/org/squiddev/cctweaks/lua/lib/luaj/BigIntegerValue.java:253-255 | `toString` output starts with `-` exactly for negative numbers and parses back to the same number |
| BigIntegerValue.NatToDecimalDigits | src/main/java/org/squiddev/cctweaks/lua/lib/luaj/BigIntegerValue.java:254 | the digits `toString` prints denote the number, with no leading zero |
| BigIntegerValue.RangeBound | src/main/java/org/squiddev/cctweaks/lua/lib/luaj/BigIntegerValue.java:309-311 | a number is within BigInteger's range exactly when its magnitude is below 2^Integer.MAX_VALUE |
| BigIntegerValue.Checked | src/main/java/org/squiddev/cctweaks/lua/lib/luaj/BigIntegerValue.java:192-194 | building a BigInteger gives it when it is within the range, and raises ArithmeticException exactly when it is not |
| BigIntegerValue.BigOrNaN | src/main/java/org/squiddev/cctweaks/lua/lib/luaj/BigIntegerValue.java:309-311 | what `call` finally returns for a computed number: the BigIntegerValue within the range, NaN exactly outside it |
| BigIntegerValue.Caught | src/main/java/org/squiddev/cctweaks/lua/lib/luaj/BigIntegerValue.java:309-311 | the `catch`: ArithmeticException becomes NaN, anything else passes through unchanged, and ArithmeticException never escapes |
| BigIntegerValue.CaughtChecked | src/main/java/org/squiddev/cctweaks/lua/lib/luaj/BigIntegerValue.java:309-311 | a number built by a case and caught by `call` is the BigIntegerValue within the range and NaN outside it |
| BigIntegerValue.CheckLongCases | src/main/java/org/squiddev/cctweaks/lua/lib/luaj/BigIntegerValue.java:105-108 | `checklong`: a BigIntegerValue's low 64 bits, an integer itself, a double truncated and saturated, an infinity the end of the long range; it fails exactly for nil, booleans, other non-numbers and malformed strings, with "bad argument: number expected, got <type>" |
| BigIntegerValue.GetValueCases | src/main/java/org/squiddev/cctweaks/lua/lib/luaj/BigIntegerValue.java:149-161 | `getValue`: a BigIntegerValue gives its own number, decimal text its value (ArithmeticException outside the range), anything else its `checklong` value; it fails exactly for nil, booleans, other non-numbers, malformed text and text outside the range, with the bad-argument error for all but the last |
| BigIntegerValue.CheckIntCases | src/main/java/org/squiddev/cctweaks/lua/lib/luaj/BigIntegerValue.java:95-98 | `checkint`: a BigIntegerValue's low 32 bits, an integer itself, a double through `(int) (long)`; it fails exactly where `checklong` fails, with the same error |
| BigIntegerValue.TDiv | src/main/java/org/squiddev/cctweaks/lua/lib/luaj/BigIntegerValue.java:213-215 | `divide` rounds toward zero: the quotient's magnitude is the largest q with abs(b)·q ≤ abs(a), and its sign is negative only for operands of different signs |
| BigIntegerValue.TRem | src/main/java/org/squiddev/cctweaks/lua/lib/luaj/BigIntegerValue.java:204-207 | `remainder` is smaller in magnitude than the divisor, at most the dividend's magnitude, and takes the dividend's sign |
| BigIntegerValue.TruncatedDivision | src/main/java/org/squiddev/cctweaks/lua/lib/luaj/BigIntegerValue.java:204-216 | `divide` and `remainder` satisfy a == q·b + r with abs(r) < abs(b), the remainder taking the dividend's sign, and q rounding toward zero |
| BigIntegerValue.DivisionStaysInRange | src/main/java/org/squiddev/cctweaks/lua/lib/luaj/BigIntegerValue.java:204-216 | for a dividend within the range, quotient and remainder are within the range too |
| BigIntegerValue.Power | src/main/java/org/squiddev/cctweaks/lua/lib/luaj/BigIntegerValue.java:208-211 | `pow`: a positive base gives a positive power, the power is zero exactly for base zero and a positive exponent, and negative exactly for a negative base and an odd exponent |
| BigIntegerValue.ShiftLeft | src/main/java/org/squiddev/cctweaks/lua/lib/luaj/BigIntegerValue.java:229-232 | `shiftLeft` keeps the sign of the number |
| BigIntegerValue.ShiftRight | src/main/java/org/squiddev/cctweaks/lua/lib/luaj/BigIntegerValue.java:233-236 | `shiftRight` keeps the sign of the number |
| BigIntegerValue.ShiftRoundTrip | src/main/java/org/squiddev/cctweaks/lua/lib/luaj/BigIntegerValue.java:229-236 | shifting right by n undoes shifting left by n |
| BigIntegerValue.ShiftOneOutOfRange | src/main/java/org/squiddev/cctweaks/lua/lib/luaj/BigIntegerValue.java:229-232 | 1 shifted left by Integer.MAX_VALUE is outside BigInteger's range |
| BigIntegerValue.EuclidGcd | src/main/java/org/squiddev/cctweaks/lua/lib/luaj/BigIntegerValue.java:272-275 | the gcd is 0 exactly when both arguments are 0 |
| BigIntegerValue.GcdDivides | src/main/java/org/squiddev/cctweaks/lua/lib/luaj/BigIntegerValue.java:272-275 | the gcd is 0 exactly when both are 0, and otherwise divides both |
| BigIntegerValue.GcdGreatest | src/main/java/org/squiddev/cctweaks/lua/lib/luaj/BigIntegerValue.java:272-275 | every common divisor divides the gcd |
| BigIntegerValue.BitwiseBits | src/main/java/org/squiddev/cctweaks/lua/lib/luaj/BigIntegerValue.java:217-228 | each bit of `and`, `or`, `xor` in two's complement is that operation on the operands' bits |
| BigIntegerValue.BitwiseSign | src/main/java/org/squiddev/cctweaks/lua/lib/luaj/BigIntegerValue.java:217-228 | the sign of `and`, `or`, `xor` is that operation on the operands' signs |
| BigIntegerValue.NotBits | src/main/java/org/squiddev/cctweaks/lua/lib/luaj/BigIntegerValue.java:237-240 | `not` (-x-1) flips every bit |
| BigIntegerValue.CaseOp | src/main/java/org/squiddev/cctweaks/lua/lib/luaj/BigIntegerValue.java:187-307 | the switch has a case exactly for opcodes 0 to 28 |
| BigIntegerValue.OpIndex | src/main/java/org/squiddev/cctweaks/lua/lib/luaj/BigIntegerValue.java:187-305 | each operation's opcode selects that operation in the switch |
| BigIntegerValue.CaseOpIndex | src/main/java/org/squiddev/cctweaks/lua/lib/luaj/BigIntegerValue.java:187-305 | every case's operation has that case's opcode: the two directions of the opcode table agree |
| BigIntegerValue.OpNamesDistinct | src/main/java/org/squiddev/cctweaks/lua/lib/luaj/BigIntegerValue.java:164-174 | looking up an operation's name gives back the operation, so names identify operations |
| BigIntegerValue.MetaNameImplements | src/main/java/org/squiddev/cctweaks/lua/lib/luaj/BigIntegerValue.java:164-169 | metamethod name i names the operation of case i |
| BigIntegerValue.MainNameImplements | src/main/java/org/squiddev/cctweaks/lua/lib/luaj/BigIntegerValue.java:171-174 | main name j names the operation of case j + 19 |
| BigIntegerValue.NameTablesAgreeWithSwitch | src/main/java/org/squiddev/cctweaks/lua/lib/luaj/BigIntegerValue.java:164-176 | there are 19 metamethod names, which equals CREATE_INDEX, and 10 main names, all agreeing with the switch; "new" comes first and is case 19 |
| BigIntegerValue.ImplementsUnique | src/main/java/org/squiddev/cctweaks/lua/lib/luaj/BigIntegerValue.java:164-174 | a name belongs to at most one case |
| BigIntegerValue.NameTablesDistinct | src/main/java/org/squiddev/cctweaks/lua/lib/luaj/BigIntegerValue.java:164-174 | the names within each table are distinct, and no metamethod name is a main name |
| BigIntegerValue.ReservedKeysFree | src/main/java/org/squiddev/cctweaks/lua/lib/luaj/BigIntegerValue.java:342-343 | no metamethod is called "index" or "type", so `__index` and `__type` overwrite no metamethod |
| BigIntegerValue.UnaryOutcome | src/main/java/org/squiddev/cctweaks/lua/lib/luaj/BigIntegerValue.java:188-283 | a one-number case (unm, bnot, abs, tostring) never gives NaN itself, builds only numbers within the range, and can raise ArithmeticException only in unm, bnot and abs; unm and abs of a number within the range never raise |
| BigIntegerValue.BinaryOutcome | src/main/java/org/squiddev/cctweaks/lua/lib/luaj/BigIntegerValue.java:192-291 | a two-argument case never gives NaN itself; a number it returns is within the range or is one of the operands; a zero divisor in mod, div or idiv and a negative exponent in pow raise ArithmeticException; the comparisons, min and max always return |
| BigIntegerValue.CreateOutcome | src/main/java/org/squiddev/cctweaks/lua/lib/luaj/BigIntegerValue.java:259-267 | `new` never gives NaN, returns only BigIntegerValues, and raises ArithmeticException exactly for well-formed text outside the range |
| BigIntegerValue.Switch | src/main/java/org/squiddev/cctweaks/lua/lib/luaj/BigIntegerValue.java:187-307 | the switch itself never produces NaN |
| BigIntegerValue.Call | src/main/java/org/squiddev/cctweaks/lua/lib/luaj/BigIntegerValue.java:185-313 | `call` returns NaN exactly when the switch raises ArithmeticException, and otherwise the switch's result; ArithmeticException never escapes |
| BigIntegerValue.ArithmeticCases | src/main/java/org/squiddev/cctweaks/lua/lib/luaj/BigIntegerValue.java:192-203 | add, sub and mul return the exact sum, difference and product of the coerced arguments, NaN outside the range |
| BigIntegerValue.DivisionCases | src/main/java/org/squiddev/cctweaks/lua/lib/luaj/BigIntegerValue.java:204-216 | mod gives the truncating remainder, and div and idiv both give the truncating quotient; a zero divisor gives NaN; a dividend within the range always gives a number |
| BigIntegerValue.PowCase | src/main/java/org/squiddev/cctweaks/lua/lib/luaj/BigIntegerValue.java:208-211 | pow raises to the `checkint` exponent, giving NaN for a negative exponent, for a power that `BigInteger.pow`'s early size test rejects, and for a result outside the range |
| BigIntegerValue.PowEarlyRejectsOnlyHuge | src/main/java/org/squiddev/cctweaks/lua/lib/luaj/BigIntegerValue.java:208-211 | the early size test of `BigInteger.pow` rejects only powers of more than 2^30 bits, so every smaller power is computed |
| BigIntegerValue.ShlCase | src/main/java/org/squiddev/cctweaks/lua/lib/luaj/BigIntegerValue.java:229-232 | shl shifts left by the `checkint` distance, NaN outside the range |
| BigIntegerValue.ShiftPastRange | src/main/java/org/squiddev/cctweaks/lua/lib/luaj/BigIntegerValue.java:229-232 | `shl(1, 2147483647)` gives NaN |
| BigIntegerValue.ShrCase | src/main/java/org/squiddev/cctweaks/lua/lib/luaj/BigIntegerValue.java:233-236 | shr shifts right by the `checkint` distance, NaN outside the range |
| BigIntegerValue.TwoNumbersSeeValues | src/main/java/org/squiddev/cctweaks/lua/lib/luaj/BigIntegerValue.java:149-291 | a case reading two numbers sees only what `getValue` gives: arguments read as x and y give what two BigIntegerValues x and y give |
| BigIntegerValue.BandCase | src/main/java/org/squiddev/cctweaks/lua/lib/luaj/BigIntegerValue.java:217-220 | band on x and y returns the two's-complement `and`, NaN outside the range |
| BigIntegerValue.BorCase | src/main/java/org/squiddev/cctweaks/lua/lib/luaj/BigIntegerValue.java:221-224 | bor on x and y returns the two's-complement `or`, NaN outside the range |
| BigIntegerValue.BxorCase | src/main/java/org/squiddev/cctweaks/lua/lib/luaj/BigIntegerValue.java:225-228 | bxor on x and y returns the two's-complement `xor`, NaN outside the range |
| BigIntegerValue.UnmCase | src/main/java/org/squiddev/cctweaks/lua/lib/luaj/BigIntegerValue.java:188-191 | unm returns -x, NaN outside the range |
| BigIntegerValue.BnotCase | src/main/java/org/squiddev/cctweaks/lua/lib/luaj/BigIntegerValue.java:237-240 | bnot returns -x-1, NaN outside the range |
| BigIntegerValue.AbsCase | src/main/java/org/squiddev/cctweaks/lua/lib/luaj/BigIntegerValue.java:280-283 | abs returns the magnitude, NaN outside the range, and always a number for an argument within the range |
| BigIntegerValue.EqCase | src/main/java/org/squiddev/cctweaks/lua/lib/luaj/BigIntegerValue.java:241-244 | eq returns true exactly when the numbers are equal |
| BigIntegerValue.LtCase | src/main/java/org/squiddev/cctweaks/lua/lib/luaj/BigIntegerValue.java:245-248 | lt returns true exactly when the left number is strictly less |
| BigIntegerValue.LeCase | src/main/java/org/squiddev/cctweaks/lua/lib/luaj/BigIntegerValue.java:249-252 | le returns true exactly when the left number is less or equal |
| BigIntegerValue.ToStringCase | src/main/java/org/squiddev/cctweaks/lua/lib/luaj/BigIntegerValue.java:253-255 | tostring returns the decimal text of the number, which parses back to it |
| BigIntegerValue.GcdCase | src/main/java/org/squiddev/cctweaks/lua/lib/luaj/BigIntegerValue.java:272-275 | gcd returns the gcd of the absolute values |
| BigIntegerValue.MinCase | src/main/java/org/squiddev/cctweaks/lua/lib/luaj/BigIntegerValue.java:284-287 | min returns the smaller argument |
| BigIntegerValue.MaxCase | src/main/java/org/squiddev/cctweaks/lua/lib/luaj/BigIntegerValue.java:288-291 | max returns the larger argument |
| BigIntegerValue.CreateCases | src/main/java/org/squiddev/cctweaks/lua/lib/luaj/BigIntegerValue.java:259-267 | `new`: a BigIntegerValue is returned itself; decimal text is wrapped, NaN outside the range; malformed text raises NumberFormatException (not a LuaError); anything else is wrapped from `checklong` or raises its error |
| BigIntegerValue.ToStringThenCreate | src/main/java/org/squiddev/cctweaks/lua/lib/luaj/BigIntegerValue.java:253-267 | `new(tostring(x))` gives back x, or NaN when x is outside the range |
| BigIntegerValue.LeftArgumentError | src/main/java/org/squiddev/cctweaks/lua/lib/luaj/BigIntegerValue.java:149-161 | every case except new raises the left argument's coercion error; a left string outside the range gives NaN in every case except newProbPrime |
| BigIntegerValue.RightArgumentError | src/main/java/org/squiddev/cctweaks/lua/lib/luaj/BigIntegerValue.java:192-291 | every case reading two or three numbers raises the right argument's coercion error when the left one is fine, and gives NaN for a right string outside the range |
| BigIntegerValue.IntArgumentError | src/main/java/org/squiddev/cctweaks/lua/lib/luaj/BigIntegerValue.java:208-236 | pow, shl and shr raise the `checkint` error of their second argument |
| BigIntegerValue.UnknownOpcode | src/main/java/org/squiddev/cctweaks/lua/lib/luaj/BigIntegerValue.java:306-307 | an opcode outside 0 to 28 raises a LuaError whose text is "No such method " followed by the opcode in decimal |
| BigIntegerValue.Equals | src/main/java/org/squiddev/cctweaks/lua/lib/luaj/BigIntegerValue.java:135-138 | `equals` holds exactly for a BigIntegerValue whose number is the same |
| BigIntegerValue.EqualsMatchesEq | src/main/java/org/squiddev/cctweaks/lua/lib/luaj/BigIntegerValue.java:135-138 | `equals` on BigIntegerValues is reflexive, symmetric and transitive, and agrees with the eq metamethod |
| BigIntegerValue.BigIntegerFunction.constructor | src/main/java/org/squiddev/cctweaks/lua/lib/luaj/BigIntegerValue.java:180-182 | a function carries the library's metatable, its opcode, its name and the environment |
| BigIntegerValue.AddFunction | src/main/java/org/squiddev/cctweaks/lua/lib/luaj/BigIntegerValue.java:335-339 | stores a new function for the name under that key, replacing only that key; every entry still names its function's own case |
| BigIntegerValue.AddMetamethods | src/main/java/org/squiddev/cctweaks/lua/lib/luaj/BigIntegerValue.java:325-332 | metamethod name i is stored with opcode i both as `table[name]` and as `meta["__" + name]`, the same function in both places |
| BigIntegerValue.AddFunctions | src/main/java/org/squiddev/cctweaks/lua/lib/luaj/BigIntegerValue.java:334-340 | main name j is stored with opcode j + 19; keys outside the names are untouched |
| BigIntegerValue.FillTables | src/main/java/org/squiddev/cctweaks/lua/lib/luaj/BigIntegerValue.java:319-340 | after `new` and both loops, the table holds exactly the two name lists, each entry naming its own case, and the metatable holds exactly the `__` metamethods, equal to the table's entries |
| BigIntegerValue.FinishMetatable | src/main/java/org/squiddev/cctweaks/lua/lib/luaj/BigIntegerValue.java:342-343 | stores `__index` (the library table) and `__type` ("biginteger") |
| BigIntegerValue.BuildTables | src/main/java/org/squiddev/cctweaks/lua/lib/luaj/BigIntegerValue.java:315-346 | for any name lists agreeing with the switch, `makeTable`'s steps give the full table and metatable |
| BigIntegerValue.MakeTable | src/main/java/org/squiddev/cctweaks/lua/lib/luaj/BigIntegerValue.java:315-346 | the library table's keys are exactly the 29 names, each published with its own case; the metatable holds `__` + each metamethod name (the same function as the table's), `__index` and `__type` |
| BigIntegerValue.Setup | src/main/java/org/squiddev/cctweaks/lua/lib/luaj/BigIntegerValue.java:145-147 | stores the library table under "biginteger" in the environment, replacing only that key |
| AsmUtils.GetConstOpcode | src/main/java/org/squiddev/cctweaks/lua/asm/AsmUtils.java:28-30 | for -1 to 5 the opcode is the iconst instruction that pushes that value; for any other value it is no iconst |
| AsmUtils.ConstantInsn | src/main/java/org/squiddev/cctweaks/lua/asm/AsmUtils.java:38-48 | the chosen instruction pushes exactly the number and its operand fits its encoding; it is iconst exactly for -1 to 5, bipush exactly for the rest of the byte range, sipush exactly for the rest of the short range, and ldc otherwise |
| AsmUtils.ConstantOpcode | src/main/java/org/squiddev/cctweaks/lua/asm/AsmUtils.java:38-48 | appends exactly that one instruction, which pushes the number and one stack entry |
| AsmUtils.WriteSuperConstructor | src/main/java/org/squiddev/cctweaks/lua/asm/AsmUtils.java:107-110 | appends `aload 0` and then `invokespecial name.<init>()V` |
| AsmUtils.DefaultConstructorTrace | src/main/java/org/squiddev/cctweaks/lua/asm/AsmUtils.java:112-121 | the trace is: code start, `aload 0`, `invokespecial`, `return`, maxs(1, 1), end; the declared maxima equal the stack depth and locals the body uses |
| AsmUtils.WriteDefaultConstructor | src/main/java/org/squiddev/cctweaks/lua/asm/AsmUtils.java:112-121 | adds exactly one new public `<init>()V` method with that trace; earlier methods are unchanged |
| AsmUtils.ValidateClass | src/main/java/org/squiddev/cctweaks/lua/asm/AsmUtils.java:67-82 | rejects exactly when the verifier raised or printed something; the rejection carries the output and the raised exception as its cause |

## Left out

- **Locks.** `synchronized` blocks and other thread interleavings are not modelled. Each operation is sequential inside its lock.
- **DelayedTasks.** Its source is not part of this model. Only `getNextId`, `addTask` (with a capacity limit) and `cancel` are modelled. Running a task, removing it when it completes and queueing its completion event are not. So after a matched completion the model's pending table still holds that entry.
- **Id width.** Task ids are unbounded integers, so a Java `long` overflow of the id counter is not modelled.
- **Event source.** The pulled events are an input sequence already filtered by event name. The event name in element 0 is not checked. A queue that runs out without a match stands for the Java code blocking forever (`Blocked`).
- **Event values.** Among `Number` values, only Integer (also Short and Byte), Long and finite Double ids are distinguished. A NaN or infinite Double, Float, BigInteger and other `Number` subclasses are not.
- **Omitted environment code.** `createMachine`, `getPreBios` and the configuration and logging around them are not modelled (configuration and foreign-library plumbing). The warning `getUsedMachine` logs is not modelled. The configured runtime id is a parameter.
- **Inject.** `factory.create(access)` is a fixed result per factory (`ApiFactory.produces`). The `ComputerAccess` handed to it, and the early return for an empty set (which skips creating it), are therefore not modelled. The set's iteration order is left open. Factories are told apart by `ApiFactory.tag`, which stands for object identity.
- **Delegating members.** The `LuaAPI` methods that only delegate are not modelled: `getNames`, `startup`, `advance`, `shutdown`, `getMethodNames` and `callMethod`. Nor are the delegating `ComputerAccess` methods: `getID`, `queueEvent`, `getAttachmentName`, `getRootMountPath` and `getRootMount`.
- **File system.** The computer's file system is its bindings, the paths existing without a binding, and the paths where `exists` or a bind throws. A mount is a number. The two-argument `mount` and `mountWritable` overloads are the three-argument ones with the desired location as the drive name.
- **Unmodelled opcodes.** `BigIntegerValue.Switch` returns `Unmodelled(opcode)` for opcodes 18 (tonumber, a double), 20 (modinv), 22 (modpow), 26 and 27 (probable primes, library-defined) and 28 (newProbPrime, randomised).
- **Other BigIntegerValue conversions.** The floating-point conversions and the other `LuaValue` overrides of `BigIntegerValue` (`todouble`, `tonumber`, `tobyte` and the rest, `eq_b`, `eq`) are not modelled.
- **luaj's coercions.** luaj is not part of this model. Its `checklong` and `checkint` on numbers, strings and other values, and the text of its argument error, are taken to be as `CheckLong`, `CheckInt` and `MessageText` state: a double is truncated toward zero and saturated, NaN gives 0.
- **Values that are not numbers.** Tables, functions, threads and other userdata are `Other(typeName)`: only their type name is modelled.
- **Metatable per value.** The metatable each BigIntegerValue carries is implicit in `Big(n)`.
- BigIntegerValue.CheckInt: a string argument is read as a decimal integer and cut to an int. luaj's own string-to-number coercion (hexadecimal, fractions, exponents) is not part of this model. The same holds for `CheckLong`.
- BigIntegerValue.ParseDecimal: only ASCII digits are read. Java's `BigInteger(String)` also accepts digits of other Unicode scripts, which the model treats as malformed text.
- BigIntegerValue.Create: for text too long for BigInteger, Java may raise NumberFormatException or ArithmeticException depending on the text; the model checks the form first and the range second.
- **Fields set after construction.** `makeTable` sets each function's opcode, name and environment right after creating it. The model passes them to the constructor instead.
- **Table capacities.** The initial sizes `makeTable` passes to `new LuaTable` are not modelled.
- **Functions replaced by `makeTable`.** The main-name loop stores its own function for "new" over the one created first, as the source does. The model does not state that functions are freshly allocated.
- **ASM library.** The ASM library itself is not modelled: `CheckClassAdapter.verify`, `TraceClassVisitor` and `dump`. `validateClass` takes the verifier's outcome as input. The `double` overload of `constantOpcode` is left out because it works on floating point.

## Findings

| source | as written | input that shows it | evidently intended | confidence | as-written member | corrected member |
|---|---|---|---|---|---|---|
| src/main/java/org/squiddev/cctweaks/lua/lib/LuaEnvironment.java:50 | `Preconditions.checkNotNull` is given the message string, which is never null, so nothing is checked | `registerAPI(null)` stores null in the API set; `inject` would later call `create` on it | refuse a null factory, as `registerMachine` does | medium, not executed | LuaEnvironment.RegisterApiAsWritten | LuaEnvironment.LuaEnvironment.RegisterApi |
