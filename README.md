# Machina core: actions, the UR compiler and the int32 codec

A Dafny model of three pieces of Machina.

- **The action model** (`actions.dfy`, `action_factory.dfy`).
  - Machina's robot instructions form a closed set of variants. A `Payload` constructor stands for each `Action*` subclass, and `TypeOf` gives its type tag.
  - `Describe` gives each variant's `ToString`.
  - The static factories set the relative/absolute convention: `Move` is relative and `MoveTo` absolute.
  - The process-wide id counter is the class `Actions.IdCounter`. Its method `Construct` models the base constructor every action runs: it stamps the next id on a payload. A source `new ActionX(...)` is the caller composing the two, building the payload with a factory function and passing it to `Construct`.
- **The Universal Robots compiler** (`compiler_ur.dfy`). It models `CompilerUR`.
  - Each action, with the robot-cursor snapshot taken after applying it, becomes zero or one line of URScript.
  - `GenerateVariableDeclaration` models the target variables, and `GenerateInstructionDeclarationFromVariable` the instructions that refer to them.
  - `GenerateInstructionDeclarationAsWritten` is the inline emitter as the source writes it. `GenerateInstructionDeclaration` is that emitter with the indentation of one diagnostic corrected (see "## Findings"); the compile loop uses the corrected one.
  - `ProgramFromBuffer` is the imperative compile loop of `UNSAFEProgramFromBuffer`.
    - It walks the pending actions and advances the cursor once per action.
    - It collects the target and instruction lines.
    - It stops with the exception's message when an attach finds no tool.
    - It assembles the program.
  - `ProgramFromBuffer` is proved equal to the functional specification `ProgramFromActions`. The run-level properties are lemmas about that specification.
- **The int32/byte codec** (`util.dfy`). It models `Int32ArrayToByteArray` and `ByteArrayToInt32Array` as methods over arrays, proved against specification functions on sequences.
  - The platform's byte order is a boolean parameter.
  - An int's native layout is its four-byte encoding in that order.

Supporting modules:
- `wrappers.dfy` holds `Option` and `Result`. `Err` stands for a thrown exception.
- `geometry.dfy` holds the geometry library's value types, with only the fields the core reads.
- `text.dfy` holds integer formatting and the foreign renderers.

Foreign numerics and text are function-typed fields of `Text.Formats` and `CompilerUR.UREnv`. They are `double.ToString`, the `ToString` of vectors and joints, the unit conversions with their rounding, rotation vectors and the disclaimer header. Every property therefore holds for any choice of them.

The robot cursor is the record `CompilerUR.Cursor`. Its method `ApplyNextAction` is a function parameter `apply` of the run.

## Model

| member | source | states |
|---|---|---|
| Actions.IdCounter.constructor | Machina/Action.cs:64 | the counter starts at 1 with no id issued |
| Actions.IdCounter.Construct | Machina/Action.cs:248-251 | the new action gets the current counter value as its id and the counter increments; the id exceeds every id issued before, so ids are never reused |
| Actions.TypeOf | Machina/Action.cs:242-251 | every subclass constructor replaces the base class's `Undefined` tag |
| Actions.Describe | Machina/Action.cs:277-1003 | every subclass `ToString`; its properties are stated by `ScalarTextSign`, `RelativeDescriptionSign`, `TemperatureWaitSuffix` and `PushPopDescriptions` |
| Actions.TagIdentifiesVariant | Machina/Action.cs:242-1000 | each subclass constructor sets a tag of its own: the tag is a given value exactly when the action is of that class |
| Actions.TrendPrefix | Machina/Action.cs:279-281 | a text opened by the trend word starts with "Decrease" iff the value is negative and with "Increase" iff it is not |
| Actions.ScalarTextSign | Machina/Action.cs:277-282 | the scalar-setting description obeys the sign rule when relative and starts with "Set " when absolute |
| Actions.RelativeDescriptionSign | Machina/Action.cs:277-431 | for all eight scalar settings (the six motion settings, temperature and feed rate), a relative description starts with "Decrease" iff the value is negative, with "Increase" otherwise, and an absolute one starts with "Set " |
| Actions.TemperatureWaitSuffix | Machina/Action.cs:907-924 | the temperature description ends in " and wait" iff the action waits, in both the relative and the absolute form |
| ActionFactory.Acceleration | Machina/Action.cs:67-70 | the tag of its class and a relative TCP-acceleration action carrying the increment |
| ActionFactory.AccelerationTo | Machina/Action.cs:72-75 | the tag of its class and an absolute TCP-acceleration action carrying the value |
| ActionFactory.Speed | Machina/Action.cs:77-80 | the tag of its class and a relative TCP-speed action carrying the increment |
| ActionFactory.SpeedTo | Machina/Action.cs:82-85 | the tag of its class and an absolute TCP-speed action carrying the value |
| ActionFactory.RotationSpeed | Machina/Action.cs:87-90 | the tag of its class and a relative rotation-speed action carrying the increment |
| ActionFactory.RotationSpeedTo | Machina/Action.cs:92-95 | the tag of its class and an absolute rotation-speed action carrying the value |
| ActionFactory.JointSpeed | Machina/Action.cs:97-100 | the tag of its class and a relative joint-speed action carrying the increment |
| ActionFactory.JointSpeedTo | Machina/Action.cs:102-105 | the tag of its class and an absolute joint-speed action carrying the value |
| ActionFactory.JointAcceleration | Machina/Action.cs:107-110 | the tag of its class and a relative joint-acceleration action carrying the increment |
| ActionFactory.JointAccelerationTo | Machina/Action.cs:112-115 | the tag of its class and an absolute joint-acceleration action carrying the value |
| ActionFactory.Precision | Machina/Action.cs:117-120 | the tag of its class and a relative precision action carrying the increment |
| ActionFactory.PrecisionTo | Machina/Action.cs:122-125 | the tag of its class and an absolute precision action carrying the value |
| ActionFactory.Motion | Machina/Action.cs:127-130 | the tag of its class and a motion-type action carrying the motion type |
| ActionFactory.Coordinates | Machina/Action.cs:132-135 | the tag of its class and a coordinates action carrying the reference system |
| ActionFactory.Move | Machina/Action.cs:137-140 | the tag of its class and a relative translation carrying the vector |
| ActionFactory.MoveTo | Machina/Action.cs:142-145 | the tag of its class and an absolute translation carrying the position |
| ActionFactory.Rotate | Machina/Action.cs:147-150 | the tag of its class and a relative rotation carrying the rotation |
| ActionFactory.RotateTo | Machina/Action.cs:152-155 | the tag of its class and an absolute rotation carrying the orientation |
| ActionFactory.Transform | Machina/Action.cs:157-160 | the tag of its class and a relative transformation with the caller's translation order |
| ActionFactory.TransformTo | Machina/Action.cs:162-165 | the tag of its class and an absolute transformation, always translation-first |
| ActionFactory.Axes | Machina/Action.cs:167-170 | the tag of its class and a relative joint action carrying the increments |
| ActionFactory.AxesTo | Machina/Action.cs:172-175 | the tag of its class and an absolute joint action carrying the joint values |
| ActionFactory.Wait | Machina/Action.cs:177-180 | the tag of its class and a wait action carrying the milliseconds |
| ActionFactory.Message | Machina/Action.cs:182-185 | the tag of its class and a message action carrying the text |
| ActionFactory.PushSettings | Machina/Action.cs:187-190 | the tag of its class and a settings action with push set |
| ActionFactory.PopSettings | Machina/Action.cs:192-195 | the tag of its class and a settings action with push cleared |
| ActionFactory.Comment | Machina/Action.cs:197-200 | the tag of its class and a comment action carrying the text |
| ActionFactory.Attach | Machina/Action.cs:202-205 | the tag of its class and an attach action carrying the tool and its translation-first flag |
| ActionFactory.WriteDigital | Machina/Action.cs:207-210 | the tag of its class and a digital-output action carrying the pin and state |
| ActionFactory.WriteAnalog | Machina/Action.cs:212-215 | the tag of its class and an analog-output action carrying the pin and value |
| ActionFactory.Temperature | Machina/Action.cs:217-220 | the tag of its class and a temperature action carrying the value, part, wait and relative flags |
| ActionFactory.Extrude | Machina/Action.cs:222-225 | the tag of its class and an extrusion action carrying the on/off flag |
| ActionFactory.FeedRate | Machina/Action.cs:227-230 | the tag of its class and a feed-rate action carrying the rate and the relative flag |
| ActionFactory.Initialize | Machina/Action.cs:232-235 | the tag of its class and an initialization action carrying the flag |
| ActionFactory.Detach | Machina/Action.cs:808-811 | the detach action with the `Detach` tag; the source has no factory for it, only this constructor |
| ActionFactory.PushPopDescriptions | Machina/Action.cs:509-514 | the actions PushSettings and PopSettings build are described exactly as "Push settings to buffer" and "Pop settings" |
| Util.LittleEndianRoundTrip | Machina/Util.cs:56 | reading back the little-endian bytes of an int32 gives the int |
| Util.LittleEndianBytesRoundTrip | Machina/Util.cs:90 | every four bytes are the little-endian encoding of the int32 they store |
| Util.BytesRoundTrip | Machina/Util.cs:47 | in either byte order, encoding then decoding and decoding then encoding are identities |
| Util.ReversedNativeOrder | Machina/Util.cs:56-57 | the native bytes reversed are the bytes in the other order, and reading reversed bytes in the other order reads the original |
| Util.Int32sToBytesAt | Machina/Util.cs:54-62 | byte 4i+j of the encoding is byte j of int i |
| Util.Int32sToBytesLength | Machina/Util.cs:42 | the encoding has exactly four bytes per int |
| Util.BytesToInt32sAt | Machina/Util.cs:85-110 | int i of the decoding is read from bytes 4i..4i+3 |
| Util.BytesToInt32sLength | Machina/Util.cs:85 | the decoding has one int per four bytes |
| Util.DecodeEncode | Machina/Util.cs:40-114 | decoding the encoding with the same byte-order flag returns the original ints |
| Util.EncodeDecode | Machina/Util.cs:40-114 | encoding a decoding with the same flag returns the original bytes |
| Util.Int32ArrayToByteArray | Machina/Util.cs:40-66 | a fresh buffer of exactly 4 × length bytes holding every int's bytes in the requested order, on both the block-copy and the reversing path |
| Util.ReverseGroups | Machina/Util.cs:97 | reversing the 4-byte groups keeps the length |
| Util.ReverseGroupsAt | Machina/Util.cs:99-108 | each 4-byte group of the clone is the input's group reversed |
| Util.ReverseGroupsDecode | Machina/Util.cs:95-111 | reading the group-reversed bytes in the opposite order gives the ints of the input read in the given order |
| Util.CopyToInts | Machina/Util.cs:90 | the block copy fills each int from its 4-byte group in the platform's order |
| Util.ByteArrayToInt32Array | Machina/Util.cs:75-114 | a count of 0 means the whole array; a fresh array of count / 4 ints decoded in the given order, with the input array left unmodified |
| CompilerUR.GetToolValue | Machina/Compilers/CompilerUR.cs:490-507 | fails with "Cursor has no tool attached" exactly when the cursor has no tool |
| CompilerUR.JointAccelerationArg | Machina/Compilers/CompilerUR.cs:171 | the converted joint acceleration when above EPSILON2, DEFAULT_JOINT_ACCELERATION otherwise |
| CompilerUR.JointSpeedArg | Machina/Compilers/CompilerUR.cs:172 | the converted joint speed when above EPSILON2, DEFAULT_JOINT_SPEED otherwise |
| CompilerUR.ToolAccelerationArg | Machina/Compilers/CompilerUR.cs:179 | the converted tool acceleration when above EPSILON2, DEFAULT_TOOL_ACCELERATION otherwise |
| CompilerUR.ToolSpeedArg | Machina/Compilers/CompilerUR.cs:180 | the converted tool speed when above EPSILON2, DEFAULT_TOOL_SPEED otherwise |
| CompilerUR.DefaultMotionArguments | Machina/Compilers/CompilerUR.cs:27-30 | with no usable values on the cursor, movej uses a=1.4, v=1.05 and movel uses a=1.2, v=0.25 |
| CompilerUR.Annotate | Machina/Compilers/CompilerUR.cs:283-289 | with human comments every non-comment action gets `  # [description]` appended, a missing line counting as empty; otherwise the line is left as it is |
| CompilerUR.Instruction | Machina/Compilers/CompilerUR.cs:155-300 | an attach without a tool throws the missing-tool message and nothing else throws; with human comments every action yields a line, without them exactly the handled types do |
| CompilerUR.GenerateVariableDeclaration | Machina/Compilers/CompilerUR.cs:135-153 | a declaration exists exactly for translation, rotation, transformation and axes; it is `  target{id}=` followed by the pose target for the first three and by the joint target for axes |
| CompilerUR.MotionLine | Machina/Compilers/CompilerUR.cs:162-196 | the exact unannotated line of every moving action in both addressing modes |
| CompilerUR.MotionKeyword | Machina/Compilers/CompilerUR.cs:314-343 | a pose action moves with movej iff the motion type is Joint and with movel otherwise, and axes always with movej; the target is `target{id}` or the literal target value |
| CompilerUR.SharedTargetName | Machina/Compilers/CompilerUR.cs:143-169 | the declaration and the instruction of a moving action name the same `target{id}`, with or without human comments |
| CompilerUR.PoseTargetValue | Machina/Compilers/CompilerUR.cs:456-467 | a pose target is written `p[...]`; the numbers are the opaque unit conversions and rotation vector |
| CompilerUR.JointTargetValue | Machina/Compilers/CompilerUR.cs:472-483 | a joint target is written `[...]`; the numbers are the opaque radian conversions |
| CompilerUR.Dispatch | Machina/Compilers/CompilerUR.cs:160-281 | the `switch` both instruction emitters share; its properties are stated by `Instruction`, `MotionLine`, `TextAndToolLines`, `RotationSpeedAndDetach`, `DigitalOutputOutcome` and `AnalogOutputOutcome` |
| CompilerUR.GenerateInstructionDeclarationFromVariable | Machina/Compilers/CompilerUR.cs:155-300 | the declared-target emitter throws exactly on an attach without a tool; otherwise it returns a line for every action with human comments and exactly for the handled types without |
| CompilerUR.GenerateInstructionDeclaration | Machina/Compilers/CompilerUR.cs:302-447 | the inline emitter, corrected at line 401, with the same throw and line-presence contract |
| CompilerUR.GenerateInstructionDeclarationAsWritten | Machina/Compilers/CompilerUR.cs:302-447 | the inline emitter as written, with the same throw and line-presence contract |
| CompilerUR.TextAndToolLines | Machina/Compilers/CompilerUR.cs:198-221 | a message becomes a `popup`, a wait a `sleep`, a comment `  # text` even with human comments, and an attach with a tool `  set_tcp(p[...])` with the tool's pose |
| CompilerUR.RotationSpeedAndDetach | Machina/Compilers/CompilerUR.cs:185-226 | RotationSpeed always yields the warning comment and Detach always `  set_tcp(p[0,0,0,0,0,0])`, in both modes |
| CompilerUR.DigitalOutputOutcome | Machina/Compilers/CompilerUR.cs:228-248 | both modes agree; the line is a digital write iff the pin exists on the cursor and is at most 7, and an error comment otherwise, naming the first check that failed |
| CompilerUR.DigitalOutputLine | Machina/Compilers/CompilerUR.cs:228-247 | in both modes, the exact line of a digital write: `  set_standard_digital_out(pin, True|False)` with the action's own pin and state, or `  # ERROR on "<the action's description>": ` followed by the reason of the first failed check |
| CompilerUR.AnalogOutputLine | Machina/Compilers/CompilerUR.cs:250-275 | in the declared-target emitter, the exact line of an analog write: `  set_standard_analog_out(pin, <rounded value>)` with the action's own pin and value, or `  # ERROR on "<the action's description>": ` followed by the reason of the first failed check |
| CompilerUR.AnalogOutputOutcome | Machina/Compilers/CompilerUR.cs:250-276 | the line is an analog write iff the pin exists, is at most 1 and the value lies in [0, 1], and an error comment otherwise, naming the first check that failed |
| CompilerUR.AnnotatedLine | Machina/Compilers/CompilerUR.cs:283-299 | the annotated emitter throws iff the plain one does; a non-comment line is the plain line followed by the annotation, and a comment is unchanged |
| CompilerUR.ModesAgree | Machina/Compilers/CompilerUR.cs:302-447 | apart from the moving actions, the corrected inline emitter and the declared-target emitter give the same result |
| CompilerUR.AsWrittenAgreesElsewhere | Machina/Compilers/CompilerUR.cs:397-404 | the inline emitter as written differs from the corrected one only on an analog write to a missing pin |
| CompilerUR.AnalogIndentAsWritten | Machina/Compilers/CompilerUR.cs:399-404 | as written, that comment starts with three spaces before `#` |
| CompilerUR.AnalogIndentCorrected | Machina/Compilers/CompilerUR.cs:252-257 | corrected, that comment starts with `  # ERROR on "` in both modes, like every other diagnostic |
| CompilerUR.AnalogIndentDiffers | Machina/Compilers/CompilerUR.cs:397-404 | as written, the two modes disagree on that write, while the corrected inline emitter agrees with the declared-target one |
| CompilerUR.InstructionAt | Machina/Compilers/CompilerUR.cs:62-90 | the instruction of action i comes from the cursor after applying actions 0..i; it throws iff the action is fatal (an attach with no tool on that cursor) |
| CompilerUR.DeclarationAt | Machina/Compilers/CompilerUR.cs:67-80 | no declaration in inline mode; otherwise one exactly for moving actions, named `target{i}` |
| CompilerUR.FoldOutcome | Machina/Compilers/CompilerUR.cs:62-90 | the loop stops at the first step that throws, with its message; otherwise it has collected every step's lines in order |
| CompilerUR.FoldAbortPersists | Machina/Compilers/CompilerUR.cs:62-90 | once a step has thrown, later steps do not change the outcome |
| CompilerUR.AbortIffFatal | Machina/Compilers/CompilerUR.cs:62-90 | for any program name, compilation fails iff some action is fatal; it stops at the first fatal action with the missing-tool message, after advancing the cursor once per action up to and including it |
| CompilerUR.LineCounts | Machina/Compilers/CompilerUR.cs:62-90 | a successful compile writes one instruction line per action with human comments and one per handled action without; one target line per moving action, and none in inline mode |
| CompilerUR.DeclarationNames | Machina/Compilers/CompilerUR.cs:60-89 | every target line declares `target{i}` for the moving action at position i |
| CompilerUR.ProgramLayout | Machina/Compilers/CompilerUR.cs:93-126 | the program is the header, "", `def name():`, "", then the target lines and "" only if there are any, then the instruction lines and "" only if there are any, then `end`, "", `name()`; it pins down the blank line after `def name():` and the one before `name()` |
| CompilerUR.AssembleProgram | Machina/Compilers/CompilerUR.cs:93-126 | the appends build exactly that layout |
| CompilerUR.EmitAction | Machina/Compilers/CompilerUR.cs:67-86 | one loop iteration yields the declaration and the instruction the specification assigns to that action |
| CompilerUR.CompileActions | Machina/Compilers/CompilerUR.cs:55-90 | the loop's lines, or its abort, are the fold over the actions' steps, and the cursor has been advanced once per action processed |
| CompilerUR.ProgramFromBuffer | Machina/Compilers/CompilerUR.cs:41-127 | the returned program, or the abort, and the final cursor are those of the specification `ProgramFromActions` over the block or all pending actions |

## Left out

- `CompilerUR.EmitAction`: in inline mode it calls the corrected emitter, so for an analog write to a missing pin its comment has two leading spaces where the source's line 401 writes three (see "## Findings").
- `CompilerUR.ProgramFromBuffer`: for the same reason, an inline compile of an analog write to a missing pin yields that comment with two leading spaces, not the source's three; every other line is the source's.
- `Util.Remap` is floating-point arithmetic outside the core.
- The `TEST_NewAPITests` console driver is left out. It has no logic of its own and does file and console I/O.
- Floating point is not modelled:
  - the `0.001`, `TO_RADS` and `Math.Round` conversions;
  - `sleep(0.001 * millis)`;
  - `double.ToString`.
  They are the opaque functions of `CompilerUR.UREnv` and `Text.Formats`. Payload values are `real`.
- The rotation-vector conversion and the `ToString` of `Vector`, `Orientation`, `Joints` and `Tool` belong to the geometry library. They are parameters, and `Geometry` keeps only the fields the core reads.
- `RobotCursor.ApplyNextAction` is the function parameter `apply`. The action buffer's `GetBlockPending` and `GetAllPending` are the two lists of `CompilerUR.ActionBuffer`. The cursor's other state is not modelled.
- `Compiler.GenerateDisclaimerHeader` is the parameter `disclaimerHeader`.
- A thrown exception is an `Err` result. The model does not distinguish the exception type.
- Default parameter values are not modelled: `littleEndian = false`, `byteCount = 0`, `bytesAreLittleEndian = false`. Callers pass every argument.
- `BitConverter.IsLittleEndian` is the parameter `systemLittleEndian`. `Buffer.BlockCopy` and `BitConverter.GetBytes` are the native-layout encoding in that order.
- Thread safety of the static id counter is out of scope. The counter is sequential state.
- `Actions.IdCounter.Construct`: does not model the wrap-around of the 32-bit counter. The model's ids are unbounded, so its freshness guarantee holds only below 2^31 constructions in the source.
- `Util.ByteArrayToInt32Array`: its precondition is the two sanity checks the source leaves commented out: the count is a multiple of 4 and does not exceed the array. The byte count is a `nat`, so a negative count is not modelled.
- `ActionWait` is modelled with an unbounded `int` where the source has a `long`.
- Enumerations declared outside the core (`ReferenceCS`, `RobotPartType`) keep only the member name their descriptions print.
- `MotionType` has only the two values the compiler tests.
- The base class's `ToString` is not modelled: every action in the model is built by a subclass constructor.

## Findings

| source | as written | input that shows it | evidently intended | confidence | as-written member | corrected member |
|---|---|---|---|---|---|---|
| Machina/Compilers/CompilerUR.cs:401 | the inline emitter's "IO number not available" comment for an analog write starts with three spaces | `WriteAnalog(5, 0.5)` on a cursor with two analog outputs, inline targets | two spaces, as in the declared-target emitter (line 254) and every other diagnostic | not executed | CompilerUR.AnalogIndentAsWritten | CompilerUR.AnalogIndentCorrected |

`CompilerUR.GenerateInstructionDeclarationAsWritten` is the inline emitter as written. `CompilerUR.AnalogIndentDiffers` shows that it disagrees with the declared-target emitter on that input. `CompilerUR.GenerateInstructionDeclaration` is the corrected form, and the compile loop uses it.
