# XM rover API core in Dafny

This project models the command path of the XM rover. A request names a
**circuit** and passes string arguments. The **brain** looks the circuit up
and runs its pre-workers (**synapses**), which coerce the strings into typed
values. It then calls the circuit's **target**, usually a `Legs` operation that
frames a one-byte opcode for the motor controller, writes it to the serial
line and compares the reply with the expected ack. Finally it hands the result
to the post-workers.

The project has four modules:

- `Common` (`common.dfy`): the `byte` type, the `Option`/`Result`/`Outcome`
  wrappers and the exception taxonomy. `XMValueError` and `LegsException` are
  the `XMException` subclasses. `OverflowError`, `StructError`, `IndexError`,
  `AttributeError`, `TypeError` and `KeyError` are the Python built-ins that
  the core lets escape.
- `Util` (`util.dfy`): the validators, the fixed-width encoders and the string
  coercions of `api/util.py`, over a dynamic `Value` (`None`, `bool`, `int`,
  `str`).
- `Leg` (`leg.dfy`): the opcode table and `create_ack`/`create_nack` are pure
  functions.
  - A pure function `Perform(cmd, input)` says what each `Legs` operation does
    to the line: the bytes it writes, the bytes it consumes from what the
    device sends (`input`), and whether it succeeds or raises.
  - `Serial` and `Legs` are classes. Their methods follow the source step by
    step and are proved against `Perform`.
- `Brain` (`brain.dfy`): Python argument binding (`Bind`), the four synapses,
  the targets, and the pure specification `CallRun` of `Brain.call`.
  - `Body` and `Brain` are classes. `Body` has the circuit table as a `map`
    field and a log of the device events it caused. `Brain` has `call` and
    `get_help`.
  - `Body`'s constructor builds the eleven standard circuits with `AddCircuit`.

Modelling decisions:

- **A read that never returns.** The port is opened without a timeout, so a
  read with no data waits forever. When the device has sent fewer bytes than
  are expected, the model ends the exchange with `Stalled`.
- **Async ack, code over description.** In async mode `_send_n_read` lowers
  the message before it derives the default ack. The ack is therefore that of
  the lowered byte: `'f'` (0x66) expects 0x67. The `ArduinoMessages`
  docstring (api/leg.py:17-18) calls the reply "the binary or between the
  message and `Ack`", and one might expect the ack of the unlowered opcode
  (0x47). The model follows the code; `Leg.AsyncAckIsOfLoweredByte` shows the
  difference.
- **Byte order.** `uint16_to_bytes` packs with `'!H'`, so it is big-endian,
  although its documentation says little endian. The model follows the code.
- **`ack or create_ack(msg)`.** An empty `ack` is falsy, so it falls back to
  `create_ack` like `None` does.
- **`create_ack` inputs.** It goes through `int8_to_byte`, so a first byte of
  0x80 or more raises `OverflowError`, and an empty message raises
  `IndexError`.
- **Booleans are integers.** `isinstance(True, int)` holds, so `assert_int`
  lets a `bool` through and `set_speed(True)` is `set_speed(1)`.
- **Argument binding.** `Bind` models Python's rules for a signature without
  `*args` and `**kwargs`. Too many positionals, an unknown or repeated
  keyword, and a missing required parameter each give `TypeError`. So does a
  keyword argument called `self` or `name` passed to `Brain.call`, since its
  signature is `call(self, name, *args, **kwargs)`. That check comes before
  the circuit lookup, so `call("fly", self="1")` raises `TypeError`, not
  `KeyError`.
- **Post-workers.** A post-worker is an observer `Notify(tag)`. Calling one
  appends an event that records whether it got the result.
- **Mouth and Eyes.** The `say`, `shutup`, `open_eyes` and `close_eyes`
  targets append a device event that carries their bound arguments. The
  defaults are those of `Mouth.say` (amplitude 40, wpm 130, prog `espeak`).
- **`say` with only `wpm`.** `say_synapse` returns its numbers positionally
  and drops their names. So `say(text, wpm="100")` reaches `Mouth.say` as
  `say(text, 100)`: the speed lands in the amplitude slot and wpm stays 130.
  The model keeps this behaviour (`Brain.SayWpmAloneBecomesAmplitude`).
- **Help text.** A target's docstring is modelled as a fixed string per
  target, `Doc(t)`.

## Model

| member | source | states |
|---|---|---|
| Common.BitOr | api/leg.py:56 | Python's bitwise or on non-negative integers: the result is at least each operand and at most their sum |
| Common.BitOrOne | api/leg.py:56 | or-ing in 1 sets bit 0 and changes nothing else |
| Common.BitOrZero | api/leg.py:68 | or-ing in 0 changes nothing |
| Util.Truthy | api/brain.py:37 | the false values are exactly `None`, `False`, `0` and `''` |
| Util.AssertInRange | api/util.py:65-80 | passes exactly when start <= value <= end; the failure is an `XMValueError` naming value and bounds |
| Util.AssertUint8 | api/util.py:83-93 | on an integer, passes exactly on 0..255, otherwise `XMValueError` |
| Util.AssertUint16 | api/util.py:96-106 | on an integer, passes exactly on 0..65535, otherwise `XMValueError` |
| Util.AssertInt | api/util.py:53-62 | passes exactly for `int` and `bool` values; otherwise `XMValueError` naming the expected and the actual type |
| Util.Int8Of | api/util.py:109-123 | a byte read as a signed integer lies in -128..127 |
| Util.Int8ToByte | api/util.py:109-123 | succeeds exactly on -128..127 with one byte whose two's-complement reading is the input; otherwise `OverflowError` |
| Util.Int8RoundTrip | api/util.py:109-123 | every byte is the encoding of its signed reading |
| Util.Uint8ToByte | api/util.py:126-140 | succeeds exactly on 0..255 with the single byte equal to the input; otherwise `OverflowError` |
| Util.Uint16ToBytes | api/util.py:143-154 | succeeds exactly on 0..65535 with two bytes b0, b1 where 256*b0 + b1 is the input; otherwise a struct error |
| Util.Uint16IsBigEndian | api/util.py:143-154 | 1 packs to 00 01 and 0x1234 to 12 34: the most significant byte comes first |
| Util.Lower | api/util.py:169 | same length, each character lowered, no capital left |
| Util.LowerIdempotent | api/util.py:169 | lowering twice is lowering once |
| Util.StrToInt | api/util.py:181-194 | succeeds exactly on an optionally signed decimal literal; otherwise `XMValueError` |
| Util.NatToStrValue | api/util.py:191-192 | the decimal digits of n form a literal whose value is n |
| Util.StrToIntRoundTrip | api/util.py:191-192 | parsing the decimal form of any integer gives it back |
| Util.LowerIntLiteral | api/util.py:169-176 | lowering neither makes nor unmakes an integer literal and leaves one unchanged |
| Util.StrToBool | api/util.py:157-178 | succeeds exactly when the lowered string is "true" or "false" or the string is an integer literal; "true" and "false" give their truth value; a literal gives "not zero"; every other string gives `XMValueError` |
| Util.StrToBoolOfInt | api/util.py:174-176 | the decimal form of n converts to n != 0 |
| Util.StrToBoolIgnoresCase | api/util.py:169 | the conversion of a string and of its lowered form agree |
| Util.CoerceInt | api/util.py:191-192 | strings parse as above, integers and booleans pass through, `None` raises `TypeError` |
| Util.CoerceBool | api/util.py:169 | strings convert as above; anything else has no `lower`, so `AttributeError` |
| Leg.MessageValue | api/leg.py:35-44 | each member's value is one byte whose signed reading is its ordinal |
| Leg.MessageTable | api/leg.py:35-44 | the table is FE, 00, 01, 46, 42, 4C, 52, 5A, 58, 54 |
| Leg.MessagesUnique | api/leg.py:12-13 | distinct members have distinct values |
| Leg.CommandLetters | api/leg.py:17-20 | every command is an upper-case ASCII letter with bit 0 clear |
| Leg.CreateAck | api/leg.py:47-56 | empty message: `IndexError`; first byte below 0x80: that byte with bit 0 set; otherwise `OverflowError` |
| Leg.CreateNack | api/leg.py:59-68 | empty message: `IndexError`; first byte below 0x80: that byte; otherwise `OverflowError` |
| Leg.AckUsesFirstByteOnly | api/leg.py:47-68 | ack and nack depend on the first byte only |
| Leg.AckNackOfCommand | api/leg.py:17-19 | for every command the ack is opcode + 1, the nack is the opcode, and they differ |
| Leg.LowerBytes | api/leg.py:137-138 | same length, each byte lowered |
| Leg.LowerSetsBit20 | api/leg.py:19-20 | lowering a command sets its clear bit 0x20 and keeps bit 0 clear |
| Leg.ReadOutcome | api/leg.py:113-120 | passes exactly when the next len(expected) bytes equal expected; raises `LegsException` with the bytes read when they differ; stalls exactly when fewer bytes are coming |
| Leg.Consumed | api/leg.py:114-115 | one byte is taken per expected byte until the input runs out |
| Leg.Sent | api/leg.py:137-138 | the written message has the same length as msg; it is msg itself in sync mode and msg lowered byte by byte in async mode |
| Leg.ExpectedReply | api/leg.py:140 | an explicit non-empty ack is used as it is; a missing or empty one gives the ack of the bytes sent; an expected reply is never empty |
| Leg.Exchange | api/leg.py:122-141 | writes the message, lowered in async mode, and never consumes more than is coming |
| Leg.MoveSync | api/leg.py:143-181 | a synchronous move writes the upper-case opcode and succeeds exactly on reply opcode + 1 |
| Leg.MoveAsync | api/leg.py:137-140 | an async move writes opcode + 0x20 and succeeds exactly on reply opcode + 0x21 |
| Leg.AsyncAckIsOfLoweredByte | api/leg.py:137-140 | async forward writes 0x66 and accepts 0x67, while 0x47 raises |
| Leg.HaltIsAsync | api/leg.py:183-186 | stop writes 0x7A and succeeds exactly on 0x7B |
| Leg.SpeedFraming | api/leg.py:188-199 | out of 0..255: `XMValueError`, nothing written or read; else writes 58 v and succeeds exactly on 59 |
| Leg.MoveTimeFraming | api/leg.py:201-213 | out of 0..65535: `XMValueError`, nothing written or read; else writes 54 t/256 t%256 and succeeds exactly on 55 |
| Leg.Perform | api/leg.py:143-213 | no operation consumes more bytes than the device sends |
| Leg.Serial.constructor | api/leg.py:94 | a fresh port has written nothing and has the device's bytes to come |
| Leg.Serial.Write | api/leg.py:139 | appends the data to what was written |
| Leg.Serial.Read | api/leg.py:115 | takes the next byte, or gives nothing when no byte is coming |
| Leg.Legs.constructor | api/leg.py:87-94 | a `Legs` talks to the given port |
| Leg.Legs.ReadExpected | api/leg.py:96-120 | the outcome, the bytes consumed and the unchanged output are those of `ReadOutcome`/`Consumed` |
| Leg.Legs.SendNRead | api/leg.py:122-141 | writes, consumes and ends as `Exchange` says |
| Leg.Legs.Forward | api/leg.py:143-151 | does what `Perform` says for a forward move |
| Leg.Legs.Backward | api/leg.py:153-161 | does what `Perform` says for a backward move |
| Leg.Legs.Left | api/leg.py:163-171 | does what `Perform` says for a left turn |
| Leg.Legs.Right | api/leg.py:173-181 | does what `Perform` says for a right turn |
| Leg.Legs.Stop | api/leg.py:183-186 | does what `Perform` says for stop |
| Leg.Legs.SetSpeed | api/leg.py:188-199 | does what `Perform` says for set speed |
| Leg.Legs.SetMoveTime | api/leg.py:201-213 | does what `Perform` says for set move time |
| Brain.Bind | api/brain.py:205-206 | binding succeeds exactly when positionals fit, every keyword names a parameter not given positionally, and every such parameter has a keyword or a default; the result lists the positionals and then keyword-or-default values; failure is `TypeError` |
| Brain.BindDefaults | api/brain.py:26 | with no arguments every parameter takes its default |
| Brain.BindKeyword | api/brain.py:205 | a single keyword binds a single parameter |
| Brain.OptionalInt | api/brain.py:81-82 | a falsy value gives no element, a truthy one its integer coercion or its error |
| Brain.SynapseParams | api/brain.py:26-83 | the synapse signatures: `move_synapse` has one optional parameter, the others a required first one, `say_synapse` two more after it, all defaults `None`, names distinct |
| Brain.SynapseBody | api/brain.py:37-38 | a synapse never returns keyword arguments or more positionals than it got; a one-parameter synapse returns none exactly for a falsy argument; `say_synapse` keeps the text first; its errors are `AttributeError` and `XMValueError` |
| Brain.ApplySynapse | api/brain.py:205 | a call that does not fit the synapse's signature is `TypeError`; results have empty kwargs; the only errors are `TypeError`, `AttributeError` and `XMValueError` |
| Brain.MoveSynapseOnString | api/brain.py:26-38 | `async=""` gives no arguments; any other string gives its boolean or `XMValueError`; kwargs stay empty |
| Brain.SpeedValueSynapseOnString | api/brain.py:41-52 | `speed_value=""` gives no arguments; any other string gives its integer or `XMValueError` |
| Brain.MoveTimeSynapseOnString | api/brain.py:55-66 | `time=""` gives no arguments; any other string gives its integer or `XMValueError` |
| Brain.MoveSynapseWithoutArgument | api/brain.py:26-38 | with no argument, `move_synapse` gives no arguments |
| Brain.OneArgumentSynapse | api/brain.py:37-38 | for the three one-argument synapses, a falsy positional gives ([], {}) and a truthy one its coercion or that coercion's error |
| Brain.SaySynapseOnStrings | api/brain.py:69-83 | the text, then the amplitude and wpm integers each only when non-empty; amplitude's error comes first |
| Brain.RunPre | api/brain.py:204-205 | no pre-workers leave the arguments as they are; after at least one, kwargs are empty; the only errors are those of the synapses |
| Brain.SayWpmAloneBecomesAmplitude | api/brain.py:80-83 | `say(text, wpm=w)` with a numeric w gives `[text, int(w)]`, and the say target logs that number as the amplitude with wpm left at 130 |
| Brain.SayWithWpm100 | api/brain.py:80-83 | `say("hi", wpm="100")` gives `["hi", 100]` |
| Brain.RunPreAppend | api/brain.py:204-205 | running two pre-worker chains in sequence is running their concatenation; an error stops the chain |
| Brain.RunPreWorkers | api/brain.py:204-205 | the loop gives what the pre-worker chain `RunPre` gives |
| Brain.TargetParams | api/leg.py:143-213 | the target signatures: movements take `async=False`, stop and the mouth and eye switches take nothing, the setters one required value, and only the first parameter of `say` is required |
| Brain.LegsRun | api/leg.py:143-213 | a `Legs` target returns `None` exactly when the exchange passes, raises its error otherwise, and writes what the exchange writes |
| Brain.TargetRun | api/brain.py:206 | a call that does not fit the target's signature is `TypeError` with no effect; every target returns `None`; the mouth and eye targets never touch the line; the `Legs` targets log no events |
| Brain.AfterTarget | api/brain.py:207-209 | the post-workers keep the target's result and line traffic, and add their events only when the target returned |
| Brain.PostEvents | api/brain.py:207-208 | one event per post-worker, in order, carrying the result exactly when it is truthy |
| Brain.CallRun | api/brain.py:191-209 | a `self` or `name` keyword raises `TypeError`; otherwise an unknown name raises `KeyError(name)`; a successful call names a registered circuit and returns `None` |
| Brain.CallUnknownName | api/brain.py:191-203 | without a `self` or `name` keyword, an unregistered name raises `KeyError` with nothing written, read or logged |
| Brain.CallResultIsTargetResult | api/brain.py:203-209 | after successful pre-workers, `call` returns and writes what the target does, and post-worker i gets the result exactly when it is truthy |
| Brain.CallOneSynapse | api/brain.py:203-209 | a one-synapse circuit without post-workers is the synapse then the target |
| Brain.MovementBinding | api/leg.py:143 | the signature `(async=False)` binds no argument to `False` and one argument to itself |
| Brain.MoveTargetRun | api/leg.py:143-181 | a movement target with no argument moves synchronously, and with a boolean moves asynchronously exactly when it is true |
| Brain.NumberTargetRun | api/leg.py:188-213 | the setters without argument raise `TypeError`, reject non-integers with `XMValueError`, and pass integers to `Legs` |
| Brain.MoveCircuitOnString | api/brain.py:112-123 | a movement circuit with `async=x`: empty moves synchronously, an unparsable x fails with nothing written, otherwise the async flag is the boolean of x |
| Brain.SetSpeedCircuitOnString | api/brain.py:125-127 | `set_speed` with `speed_value=x`: empty raises `TypeError`, unparsable raises `XMValueError`, a number goes to `Legs.set_speed` |
| Brain.SetMoveTimeCircuitOnString | api/brain.py:128-130 | `set_movetime` with `time=x`: the same, going to `Legs.set_movetime` |
| Brain.StandardCircuits | api/brain.py:110-136 | every standard circuit has at most one pre-worker and no post-workers |
| Brain.StandardCircuitsShape | api/brain.py:110-136 | the table has exactly the eleven names forward … close_eyes, none with post-workers |
| Brain.StandardCircuitsEntries | api/brain.py:112-136 | each name's pre-workers and target |
| Brain.SetSpeedEndToEnd | api/brain.py:125-127 | `speed_value="255"` writes 58 FF and succeeds exactly on 59; `"256"` fails out of range with nothing written |
| Brain.ForwardAsyncRun | api/leg.py:143-151 | an async forward writes 66 and succeeds exactly on 67 |
| Brain.ForwardAsyncEndToEnd | api/brain.py:112-114 | `async="1"` writes 66 and succeeds exactly on 67 |
| Brain.Body.constructor | api/brain.py:96-136 | the table is the eleven standard circuits and no event has happened |
| Brain.Body.AddCircuit | api/brain.py:138-158 | stores `pre or []`, the target and `post or []` under the name, replacing any earlier entry and keeping all others |
| Brain.Body.Invoke | api/brain.py:206 | the target's result, written bytes, consumed bytes and events are those of `TargetRun` |
| Brain.Body.RunCircuit | api/brain.py:206-208 | the target, then the post-workers when it returned, as `AfterTarget` of `TargetRun` says |
| Brain.Body.PostWorkAll | api/brain.py:207-208 | every post-worker, in order, is called with the result when it is truthy and without it otherwise |
| Brain.Body.PostWork | api/brain.py:208 | one post-worker call is logged with its argument |
| Brain.Brain.constructor | api/brain.py:167-173 | the brain drives the given body |
| Brain.Brain.GetHelp | api/brain.py:175-189 | one entry per registered circuit, holding its target's documentation |
| Brain.Brain.Call | api/brain.py:191-209 | result, line traffic and events are those of `CallRun` on the table before the call |

## Left out

- `LockAdapter` and `UnableToLock` (api/util.py:197-277) are left out because they only add thread mutual exclusion. The `safe_legs` methods are modelled as plain `Legs` calls. Two things go with it:
  - the timed lock (default timeout 0.005 s, api/util.py:218) is not modelled;
  - neither is the `UnableToLock` path, where line 271 reads `__name__` of a string and would raise `AttributeError`.
- `assert_type`/`assert_bytes` aren't modelled as separate checks, as Dafny's types enforce them. The checks that matter on dynamic values are modelled: `assert_int` is `AssertInt`, and `str_to_bool` on a non-string is `CoerceBool`.
- `int()` also accepts surrounding whitespace, underscores and non-ASCII digits, but the model accepts only `[+-]?[0-9]+`.
- `str.lower()` and `bytes.lower()` are modelled on ASCII letters only.
- The real serial port (pyserial) is modelled as a written-bytes log and a sequence of bytes still to come. Timeouts and I/O errors are left out: a read on exhausted input is `Stalled`, which stands for a read that never returns.
- `LegsException` carries the action and the bytes received. The model does not format them as a message string.
- `Mouth` (api/mouth.py: its worker thread, queue and `espeak` process) and `Eyes` (api/eyes.py: the `mjpg_streamer` process) are left out. Their targets only record an event with their arguments, so the model doesn't capture `UnableToSay` and other device failures.
- The device and log-file construction in `Body.__init__` (api/brain.py:104-108) is left out. The `port` and `logdir` parameters are replaced by the `Serial` to talk to.
- The docstrings behind `get_help` are modelled as the fixed string `Doc(t)` per target.
- Post-workers are modelled as observers. Their return values are dropped, as in the source, but arbitrary side effects or exceptions of post-workers are left out.
- Only the four synapses and the eleven targets of the standard table are modelled as pre-workers and targets. `AddCircuit` accepts any of them.
- The source uses `async` as a parameter name, which parses only before Python 3.7. The model treats it as an ordinary name.
- The HTTP front end (api/hear.py) and the browser UI (js/script.js) are left out.
