/**
 * The Universal Robots dialect: each action, together with the cursor
 * snapshot taken right after it was applied, becomes zero or one line of
 * URScript; a driving loop collects the lines and assembles the program.
 */
module CompilerUR {
  import opened Wrappers
  import opened Geometry
  import opened Text
  import opened Actions

  // Defaults from the URScript manual, used when the cursor holds no usable value.
  const DEFAULT_JOINT_ACCELERATION: real := 1.4
  const DEFAULT_JOINT_SPEED: real := 1.05
  const DEFAULT_TOOL_ACCELERATION: real := 1.2
  const DEFAULT_TOOL_SPEED: real := 0.25

  const COMMENT_CHAR: string := "#"
  const NO_TOOL_MESSAGE: string := "Cursor has no tool attached"
  const IO_NOT_AVAILABLE: string := "IO number not available"
  const DIGITAL_PIN_NOT_AVAILABLE: string := "digital IO pin not available in UR robot"
  const ANALOG_PIN_NOT_AVAILABLE: string := "analog IO pin not available in UR robot"
  const ANALOG_OUT_OF_RANGE: string := "value out of range [0.0, 1.0]"
  const ROTATION_SPEED_WARNING: string :=
    "  # WARNING: RotationSpeed() has no effect in UR robots, try JointSpeed() or JointAcceleration() instead"
  const DETACH_LINE: string := "  set_tcp(p[0,0,0,0,0,0])"

  /** The part of the robot cursor the emitters read. */
  datatype Cursor = Cursor(
    motionType: MotionType,
    speed: real,
    acceleration: real,
    jointSpeed: real,
    jointAcceleration: real,
    precision: real,
    position: Vector,
    rotation: Rotation,
    joints: Joints,
    tool: Option<Tool>,
    digitalOutputCount: nat,
    analogOutputCount: nat)

  /**
   * Foreign numerics and text the emitters use: the description renderers,
   * `Geometry.EPSILON2`, the unit conversions with their `Math.Round` to a
   * fixed number of decimals, the rotation-vector conversion of the geometry
   * library, and the disclaimer header of the compiler base class.
   */
  datatype UREnv = UREnv(
    formats: Formats,
    epsilon2: real,
    toRadsRounded: real -> real,
    toMetersRounded: real -> real,
    roundRads: real -> real,
    roundVoltage: real -> real,
    millisToSeconds: int -> real,
    rotationVector: Rotation -> Vector,
    disclaimerHeader: string -> seq<string>)

  function Num(x: real, env: UREnv): string {
    env.formats.number(x)
  }

  /** A bracketed list of six values, opened by `open` and closed by `]`. */
  function SixTuple(open: string, a: string, b: string, c: string, d: string, e: string, f: string): (r: string)
    ensures StartsWith(r, open) && EndsWith(r, "]")
  {
    var body := a + "," + b + "," + c + "," + d + "," + e + "," + f + "]";
    assert (open + body)[..|open|] == open;
    open + body
  }

  /** A pose target: position in metres and the orientation's rotation vector. */
  function PoseTargetValue(c: Cursor, env: UREnv): (r: string)
    ensures StartsWith(r, "p[") && EndsWith(r, "]")
  {
    var rv := env.rotationVector(c.rotation);
    SixTuple("p[",
      Num(env.toMetersRounded(c.position.x), env), Num(env.toMetersRounded(c.position.y), env),
      Num(env.toMetersRounded(c.position.z), env), Num(env.roundRads(rv.x), env),
      Num(env.roundRads(rv.y), env), Num(env.roundRads(rv.z), env))
  }

  /** A joint target: the six joint angles in radians. */
  function JointTargetValue(c: Cursor, env: UREnv): (r: string)
    ensures StartsWith(r, "[") && EndsWith(r, "]")
  {
    var j := c.joints;
    SixTuple("[",
      Num(env.toRadsRounded(j.j1), env), Num(env.toRadsRounded(j.j2), env), Num(env.toRadsRounded(j.j3), env),
      Num(env.toRadsRounded(j.j4), env), Num(env.toRadsRounded(j.j5), env), Num(env.toRadsRounded(j.j6), env))
  }

  /** The attached tool as a pose; without a tool the compile fails. */
  function GetToolValue(c: Cursor, env: UREnv): (r: Result<string>)
    ensures r.Err? <==> c.tool.None?
    ensures r.Err? ==> r.error == NO_TOOL_MESSAGE
    ensures r.Ok? ==> StartsWith(r.value, "p[") && EndsWith(r.value, "]")
  {
    match c.tool
    case None => Err(NO_TOOL_MESSAGE)
    case Some(t) =>
      var rv := env.rotationVector(t.tcpOrientation);
      Ok(SixTuple("p[",
        Num(env.toMetersRounded(t.tcpPosition.x), env), Num(env.toMetersRounded(t.tcpPosition.y), env),
        Num(env.toMetersRounded(t.tcpPosition.z), env), Num(env.roundRads(rv.x), env),
        Num(env.roundRads(rv.y), env), Num(env.roundRads(rv.z), env)))
  }

  /** The speed and acceleration arguments: the converted cursor value when
      it exceeds EPSILON2, the default of that motion kind otherwise. */
  function JointAccelerationArg(c: Cursor, env: UREnv): (v: real)
    ensures c.jointAcceleration > env.epsilon2 ==> v == env.toRadsRounded(c.jointAcceleration)
    ensures c.jointAcceleration <= env.epsilon2 ==> v == DEFAULT_JOINT_ACCELERATION
  {
    if c.jointAcceleration > env.epsilon2 then env.toRadsRounded(c.jointAcceleration) else DEFAULT_JOINT_ACCELERATION
  }

  function JointSpeedArg(c: Cursor, env: UREnv): (v: real)
    ensures c.jointSpeed > env.epsilon2 ==> v == env.toRadsRounded(c.jointSpeed)
    ensures c.jointSpeed <= env.epsilon2 ==> v == DEFAULT_JOINT_SPEED
  {
    if c.jointSpeed > env.epsilon2 then env.toRadsRounded(c.jointSpeed) else DEFAULT_JOINT_SPEED
  }

  function ToolAccelerationArg(c: Cursor, env: UREnv): (v: real)
    ensures c.acceleration > env.epsilon2 ==> v == env.toMetersRounded(c.acceleration)
    ensures c.acceleration <= env.epsilon2 ==> v == DEFAULT_TOOL_ACCELERATION
  {
    if c.acceleration > env.epsilon2 then env.toMetersRounded(c.acceleration) else DEFAULT_TOOL_ACCELERATION
  }

  function ToolSpeedArg(c: Cursor, env: UREnv): (v: real)
    ensures c.speed > env.epsilon2 ==> v == env.toMetersRounded(c.speed)
    ensures c.speed <= env.epsilon2 ==> v == DEFAULT_TOOL_SPEED
  {
    if c.speed > env.epsilon2 then env.toMetersRounded(c.speed) else DEFAULT_TOOL_SPEED
  }

  /** The arguments after the target of a motion line. */
  function MoveArguments(a: real, v: real, r: real, env: UREnv): string {
    Num(a, env) + ", v=" + Num(v, env) + ", r=" + Num(r, env) + ")"
  }

  /** `movej`: joint-space motion with joint acceleration and speed. */
  function JointMove(target: string, c: Cursor, env: UREnv): string {
    "  movej(" + target + ", a="
    + MoveArguments(JointAccelerationArg(c, env), JointSpeedArg(c, env), env.toMetersRounded(c.precision), env)
  }

  /** `movel`: Cartesian motion with tool acceleration and speed. */
  function LinearMove(target: string, c: Cursor, env: UREnv): string {
    "  movel(" + target + ", a="
    + MoveArguments(ToolAccelerationArg(c, env), ToolSpeedArg(c, env), env.toMetersRounded(c.precision), env)
  }

  /** Inline targets are written as literals; declared ones by name. */
  datatype Addressing = Inline | Declared(id: int)

  function TargetName(id: int): string {
    "target" + IntToString(id)
  }

  function PoseRef(mode: Addressing, c: Cursor, env: UREnv): string {
    match mode
    case Inline => PoseTargetValue(c, env)
    case Declared(id) => TargetName(id)
  }

  function JointRef(mode: Addressing, c: Cursor, env: UREnv): string {
    match mode
    case Inline => JointTargetValue(c, env)
    case Declared(id) => TargetName(id)
  }

  /** Actions that move to a pose target, and those that also need a joint target. */
  predicate IsPoseType(t: ActionType) {
    t == Translation || t == ActionType.Rotation || t == Transformation
  }

  predicate IsTargetType(t: ActionType) {
    IsPoseType(t) || t == ActionType.Axes
  }

  /** The action types the dialect writes a line for. */
  predicate HasURInstruction(t: ActionType) {
    IsTargetType(t) || t == ActionType.RotationSpeed || t == ActionType.Message || t == ActionType.Wait
    || t == ActionType.Comment || t == ActionType.Attach || t == ActionType.Detach
    || t == IODigital || t == IOAnalog
  }

  const ERROR_HEAD: string := "  " + COMMENT_CHAR + " ERROR on \""
  const DIGITAL_OUT_HEAD: string := "  set_standard_digital_out("
  const ANALOG_OUT_HEAD: string := "  set_standard_analog_out("

  /** The comment that replaces an invalid I/O action. */
  function Diagnostic(a: Action, reason: string, env: UREnv): string {
    ERROR_HEAD + (Describe(a.payload, env.formats) + "\": " + reason)
  }

  function DigitalOutLine(pin: int, on: bool): string {
    DIGITAL_OUT_HEAD + (IntToString(pin) + ", " + (if on then "True" else "False") + ")")
  }

  function AnalogOutLine(pin: int, value: real, env: UREnv): string {
    ANALOG_OUT_HEAD + (IntToString(pin) + ", " + Num(env.roundVoltage(value), env) + ")")
  }

  /** The digital-output rule: the pin must exist on the cursor, then on the robot. */
  function DigitalLine(a: Action, pin: int, on: bool, c: Cursor, env: UREnv): string {
    if pin < 0 || pin >= c.digitalOutputCount then Diagnostic(a, IO_NOT_AVAILABLE, env)
    else if pin > 7 then Diagnostic(a, DIGITAL_PIN_NOT_AVAILABLE, env)
    else DigitalOutLine(pin, on)
  }

  /** The analog-output rule: pin on the cursor, pin on the robot, then value in [0, 1]. */
  function AnalogLine(a: Action, pin: int, value: real, c: Cursor, env: UREnv): string {
    if pin < 0 || pin >= c.analogOutputCount then Diagnostic(a, IO_NOT_AVAILABLE, env)
    else if pin > 1 then Diagnostic(a, ANALOG_PIN_NOT_AVAILABLE, env)
    else if value < 0.0 || value > 1.0 then Diagnostic(a, ANALOG_OUT_OF_RANGE, env)
    else AnalogOutLine(pin, value, env)
  }

  /** The `switch` shared by both instruction emitters, before annotation. */
  function Dispatch(a: Action, c: Cursor, mode: Addressing, env: UREnv): Result<Option<string>> {
    match a.payload
    case ActionTranslation(_, _) | ActionRotation(_, _) | ActionTransformation(_, _, _, _) =>
      if c.motionType == Joint then Ok(Some(JointMove(PoseRef(mode, c, env), c, env)))
      else Ok(Some(LinearMove(PoseRef(mode, c, env), c, env)))
    case ActionRotationSpeed(_, _) => Ok(Some(ROTATION_SPEED_WARNING))
    case ActionAxes(_, _) => Ok(Some(JointMove(JointRef(mode, c, env), c, env)))
    case ActionMessage(m) =>
      Ok(Some("  popup(\"" + m + "\", title=\"Machina Message\", warning=False, error=False)"))
    case ActionWait(ms) => Ok(Some("  sleep(" + Num(env.millisToSeconds(ms), env) + ")"))
    case ActionComment(text) => Ok(Some("  " + COMMENT_CHAR + " " + text))
    case ActionAttach(_, _) =>
      (match GetToolValue(c, env)
       case Err(e) => Err(e)
       case Ok(t) => Ok(Some("  set_tcp(" + t + ")")))
    case ActionDetach => Ok(Some(DETACH_LINE))
    case ActionIODigital(pin, on) => Ok(Some(DigitalLine(a, pin, on, c, env)))
    case ActionIOAnalog(pin, value) => Ok(Some(AnalogLine(a, pin, value, c, env)))
    case _ => Ok(None)
  }

  /** The human-readable annotation: every action but a comment gets its
      description appended, so with it every action yields a line. */
  function Annotate(dec: Option<string>, a: Action, humanComments: bool, env: UREnv): (r: Option<string>)
    ensures humanComments && Tag(a) != ActionType.Comment ==> r.Some? && r.value == dec.GetOr("") + Annotation(a, env)
    ensures !(humanComments && Tag(a) != ActionType.Comment) ==> r == dec
  {
    if humanComments && Tag(a) != ActionType.Comment then Some(dec.GetOr("") + Annotation(a, env)) else dec
  }

  /** The annotation: the action's description as a trailing comment. */
  function Annotation(a: Action, env: UREnv): string {
    "  " + COMMENT_CHAR + " [" + Describe(a.payload, env.formats) + "]"
  }

  /** An attach without a tool aborts; otherwise an annotated emitter yields a
      line for every action and a plain one exactly for the handled types. */
  function Instruction(a: Action, c: Cursor, mode: Addressing, humanComments: bool, env: UREnv): (r: Result<Option<string>>)
    ensures r.Err? <==> (Tag(a) == ActionType.Attach && c.tool.None?)
    ensures r.Err? ==> r.error == NO_TOOL_MESSAGE
    ensures r.Ok? && humanComments ==> r.value.Some?
    ensures r.Ok? && !humanComments ==> (r.value.Some? <==> HasURInstruction(Tag(a)))
  {
    match Dispatch(a, c, mode, env)
    case Err(e) => Err(e)
    case Ok(dec) => Ok(Annotate(dec, a, humanComments, env))
  }

  /** `GenerateVariableDeclaration`: a target variable for the actions that
      move, and nothing for the others. */
  function GenerateVariableDeclaration(a: Action, c: Cursor, id: int, env: UREnv): (r: Option<string>)
    ensures r.Some? <==> IsTargetType(Tag(a))
    ensures IsPoseType(Tag(a)) ==> r == Some("  " + TargetName(id) + "=" + PoseTargetValue(c, env))
    ensures Tag(a) == ActionType.Axes ==> r == Some("  " + TargetName(id) + "=" + JointTargetValue(c, env))
    ensures r.Some? ==> StartsWith(r.value, "  " + TargetName(id) + "=")
  {
    PrefixOf("  " + TargetName(id) + "=", PoseTargetValue(c, env));
    PrefixOf("  " + TargetName(id) + "=", JointTargetValue(c, env));
    if IsPoseType(Tag(a)) then Some("  " + TargetName(id) + "=" + PoseTargetValue(c, env))
    else if Tag(a) == ActionType.Axes then Some("  " + TargetName(id) + "=" + JointTargetValue(c, env))
    else None
  }

  /** `GenerateInstructionDeclarationFromVariable`: motions refer to `target{id}`.
      Its result models the source's `bool` return and `out` line: a thrown
      exception (attach without a tool), or a line exactly when the source
      returns true. */
  function GenerateInstructionDeclarationFromVariable(a: Action, c: Cursor, id: int, humanComments: bool, env: UREnv)
    : (r: Result<Option<string>>)
    ensures r.Err? <==> (Tag(a) == ActionType.Attach && c.tool.None?)
    ensures r.Err? ==> r.error == NO_TOOL_MESSAGE
    ensures r.Ok? && humanComments ==> r.value.Some?
    ensures r.Ok? && !humanComments ==> (r.value.Some? <==> HasURInstruction(Tag(a)))
  {
    Instruction(a, c, Declared(id), humanComments, env)
  }

  /** `GenerateInstructionDeclaration`, with the indentation of the analog
      pin diagnostic corrected (see `GenerateInstructionDeclarationAsWritten`). */
  function GenerateInstructionDeclaration(a: Action, c: Cursor, humanComments: bool, env: UREnv)
    : (r: Result<Option<string>>)
    ensures r.Err? <==> (Tag(a) == ActionType.Attach && c.tool.None?)
    ensures r.Err? ==> r.error == NO_TOOL_MESSAGE
    ensures r.Ok? && humanComments ==> r.value.Some?
    ensures r.Ok? && !humanComments ==> (r.value.Some? <==> HasURInstruction(Tag(a)))
  {
    Instruction(a, c, Inline, humanComments, env)
  }

  /** `GenerateInstructionDeclaration` as the source writes it: its "IO number
      not available" comment for an analog pin is indented by three spaces. */
  function GenerateInstructionDeclarationAsWritten(a: Action, c: Cursor, humanComments: bool, env: UREnv)
    : (r: Result<Option<string>>)
    ensures r.Err? <==> (Tag(a) == ActionType.Attach && c.tool.None?)
    ensures r.Err? ==> r.error == NO_TOOL_MESSAGE
    ensures r.Ok? && humanComments ==> r.value.Some?
    ensures r.Ok? && !humanComments ==> (r.value.Some? <==> HasURInstruction(Tag(a)))
  {
    match a.payload
    case ActionIOAnalog(pin, _) =>
      if pin < 0 || pin >= c.analogOutputCount then
        Ok(Annotate(Some(" " + Diagnostic(a, IO_NOT_AVAILABLE, env)), a, humanComments, env))
      else GenerateInstructionDeclaration(a, c, humanComments, env)
    case _ => GenerateInstructionDeclaration(a, c, humanComments, env)
  }

  // ---------------------------------------------------------------------
  // Properties of the per-action emitters
  // ---------------------------------------------------------------------

  lemma PrefixOf(head: string, rest: string)
    ensures StartsWith(head + rest, head)
  {
    assert (head + rest)[..|head|] == head;
  }

  lemma SuffixOf(head: string, middle: string, tail: string)
    ensures EndsWith(head + (middle + tail), tail)
  {
    var s := head + (middle + tail);
    assert s == (head + middle) + tail;
    assert s[|s| - |tail|..] == tail;
  }

  lemma Associative(x: string, y: string, z: string)
    ensures x + (y + z) == (x + y) + z
  {
  }

  lemma PrefixChar(s: string, p: string, i: nat)
    requires StartsWith(s, p) && i < |p|
    ensures i < |s| && s[i] == p[i]
  {
    assert s[..|p|][i] == p[i];
  }

  /** Two prefixes that differ at some position cannot both start a string. */
  lemma DistinctPrefixes(s: string, p: string, q: string, i: nat)
    requires i < |p| && i < |q| && p[i] != q[i]
    ensures !(StartsWith(s, p) && StartsWith(s, q))
  {
    if StartsWith(s, p) && StartsWith(s, q) {
      PrefixChar(s, p, i);
      PrefixChar(s, q, i);
    }
  }

  lemma PrefixOfConcat(s: string, t: string, p: string)
    requires StartsWith(s, p)
    ensures StartsWith(s + t, p)
  {
    assert (s + t)[..|p|] == s[..|p|];
  }

  function TargetRef(a: Action, mode: Addressing, c: Cursor, env: UREnv): string {
    if Tag(a) == ActionType.Axes then JointRef(mode, c, env) else PoseRef(mode, c, env)
  }

  /** The unannotated line of a moving action in either addressing mode. */
  lemma MotionLine(a: Action, c: Cursor, mode: Addressing, env: UREnv)
    requires IsTargetType(Tag(a))
    ensures Instruction(a, c, mode, false, env) == Ok(Some(
      if Tag(a) == ActionType.Axes || c.motionType == Joint then JointMove(TargetRef(a, mode, c, env), c, env)
      else LinearMove(TargetRef(a, mode, c, env), c, env)))
  {
    var line := if Tag(a) == ActionType.Axes || c.motionType == Joint then JointMove(TargetRef(a, mode, c, env), c, env)
      else LinearMove(TargetRef(a, mode, c, env), c, env);
    if a.payload.ActionAxes? {
      assert Dispatch(a, c, mode, env) == Ok(Some(line));
    } else if a.payload.ActionTranslation? {
      assert Dispatch(a, c, mode, env) == Ok(Some(line));
    } else if a.payload.ActionRotation? {
      assert Dispatch(a, c, mode, env) == Ok(Some(line));
    } else {
      assert a.payload.ActionTransformation?;
      assert Dispatch(a, c, mode, env) == Ok(Some(line));
    }
  }

  /** Every motion reaches its target with `movej`, except a pose motion in
      linear motion mode, which uses `movel`; the target is the variable
      `target{id}` or the literal target value. */
  lemma MotionKeyword(a: Action, c: Cursor, id: int, env: UREnv)
    requires IsTargetType(Tag(a))
    ensures GenerateInstructionDeclarationFromVariable(a, c, id, false, env).Ok?
    ensures GenerateInstructionDeclaration(a, c, false, env).Ok?
    ensures var line := GenerateInstructionDeclarationFromVariable(a, c, id, false, env).value;
      line.Some? &&
      (Tag(a) == ActionType.Axes || c.motionType == Joint ==> StartsWith(line.value, "  movej(" + TargetName(id) + ", a=")) &&
      (Tag(a) != ActionType.Axes && c.motionType == Linear ==> StartsWith(line.value, "  movel(" + TargetName(id) + ", a="))
    ensures var line := GenerateInstructionDeclaration(a, c, false, env).value;
      line.Some? &&
      (Tag(a) == ActionType.Axes ==> StartsWith(line.value, "  movej(" + JointTargetValue(c, env) + ", a=")) &&
      (IsPoseType(Tag(a)) && c.motionType == Joint ==> StartsWith(line.value, "  movej(" + PoseTargetValue(c, env) + ", a=")) &&
      (IsPoseType(Tag(a)) && c.motionType == Linear ==> StartsWith(line.value, "  movel(" + PoseTargetValue(c, env) + ", a="))
  {
    MotionLine(a, c, Declared(id), env);
    MotionLine(a, c, Inline, env);
    var j := MoveArguments(JointAccelerationArg(c, env), JointSpeedArg(c, env), env.toMetersRounded(c.precision), env);
    var l := MoveArguments(ToolAccelerationArg(c, env), ToolSpeedArg(c, env), env.toMetersRounded(c.precision), env);
    PrefixOf("  movej(" + TargetName(id) + ", a=", j);
    PrefixOf("  movel(" + TargetName(id) + ", a=", l);
    PrefixOf("  movej(" + JointTargetValue(c, env) + ", a=", j);
    PrefixOf("  movej(" + PoseTargetValue(c, env) + ", a=", j);
    PrefixOf("  movel(" + PoseTargetValue(c, env) + ", a=", l);
  }

  /** With no usable speed, acceleration or joint values on the cursor, the
      motion lines fall back to the URScript defaults. */
  lemma DefaultMotionArguments(target: string, c: Cursor, env: UREnv)
    requires c.jointAcceleration <= env.epsilon2 && c.jointSpeed <= env.epsilon2
    requires c.acceleration <= env.epsilon2 && c.speed <= env.epsilon2
    ensures JointMove(target, c, env) == "  movej(" + target + ", a="
      + MoveArguments(1.4, 1.05, env.toMetersRounded(c.precision), env)
    ensures LinearMove(target, c, env) == "  movel(" + target + ", a="
      + MoveArguments(1.2, 0.25, env.toMetersRounded(c.precision), env)
  {
  }

  /** A declared target and the instruction that uses it share `target{id}`. */
  lemma SharedTargetName(a: Action, c: Cursor, id: int, humanComments: bool, env: UREnv)
    requires IsTargetType(Tag(a))
    ensures GenerateVariableDeclaration(a, c, id, env).Some?
    ensures StartsWith(GenerateVariableDeclaration(a, c, id, env).value, "  " + TargetName(id) + "=")
    ensures GenerateInstructionDeclarationFromVariable(a, c, id, humanComments, env).Ok?
    ensures var line := GenerateInstructionDeclarationFromVariable(a, c, id, humanComments, env).value.value;
      StartsWith(line, "  movej(" + TargetName(id) + ", a=") || StartsWith(line, "  movel(" + TargetName(id) + ", a=")
  {
    MotionLine(a, c, Declared(id), env);
    var keyword := if Tag(a) == ActionType.Axes || c.motionType == Joint then "  movej(" else "  movel(";
    var head := keyword + TargetName(id) + ", a=";
    var args :=
      if Tag(a) == ActionType.Axes || c.motionType == Joint then
        MoveArguments(JointAccelerationArg(c, env), JointSpeedArg(c, env), env.toMetersRounded(c.precision), env)
      else MoveArguments(ToolAccelerationArg(c, env), ToolSpeedArg(c, env), env.toMetersRounded(c.precision), env);
    var plain := head + args;
    assert Instruction(a, c, Declared(id), false, env) == Ok(Some(plain));
    PrefixOf(head, args);
    if humanComments {
      var tail := Annotation(a, env);
      assert Instruction(a, c, Declared(id), true, env) == Ok(Some(plain + tail));
      PrefixOfConcat(plain, tail, head);
    }
  }

  /** The lines of messages, waits, comments and tool attachment, in either
      addressing mode: a popup, a sleep, the comment itself (never annotated)
      and `set_tcp` with the attached tool's pose. */
  lemma TextAndToolLines(a: Action, c: Cursor, mode: Addressing, humanComments: bool, env: UREnv)
    ensures a.payload.ActionMessage? ==> (Instruction(a, c, mode, false, env) ==
      Ok(Some("  popup(\"" + a.payload.message + "\", title=\"Machina Message\", warning=False, error=False)")))
    ensures a.payload.ActionWait? ==> (Instruction(a, c, mode, false, env) ==
      Ok(Some("  sleep(" + Num(env.millisToSeconds(a.payload.millis), env) + ")")))
    ensures a.payload.ActionComment? ==> (Instruction(a, c, mode, humanComments, env) ==
      Ok(Some("  " + COMMENT_CHAR + " " + a.payload.comment)))
    ensures a.payload.ActionAttach? && c.tool.Some? ==>
      GetToolValue(c, env).Ok? && StartsWith(GetToolValue(c, env).value, "p[") &&
      Instruction(a, c, mode, false, env) == Ok(Some("  set_tcp(" + GetToolValue(c, env).value + ")"))
  {
    if a.payload.ActionAttach? && c.tool.Some? {
      assert Dispatch(a, c, mode, env) == Ok(Some("  set_tcp(" + GetToolValue(c, env).value + ")"));
    }
  }

  /** RotationSpeed is never honoured, and Detach always resets the TCP. */
  lemma RotationSpeedAndDetach(a: Action, c: Cursor, id: int, env: UREnv)
    ensures Tag(a) == ActionType.RotationSpeed ==>
      GenerateInstructionDeclaration(a, c, false, env) == Ok(Some(ROTATION_SPEED_WARNING)) &&
      GenerateInstructionDeclarationFromVariable(a, c, id, false, env) == Ok(Some(ROTATION_SPEED_WARNING))
    ensures Tag(a) == ActionType.Detach ==>
      GenerateInstructionDeclaration(a, c, false, env) == Ok(Some(DETACH_LINE)) &&
      GenerateInstructionDeclarationFromVariable(a, c, id, false, env) == Ok(Some(DETACH_LINE))
  {
    if Tag(a) == ActionType.RotationSpeed {
      assert a.payload.ActionRotationSpeed?;
    } else if Tag(a) == ActionType.Detach {
      assert a.payload.ActionDetach?;
    }
  }

  /** A digital write reaches the robot exactly when the pin exists on the
      cursor and is one of the eight UR pins; otherwise it becomes an error
      comment naming the first check that failed. */
  lemma DigitalOutputOutcome(a: Action, c: Cursor, id: int, env: UREnv)
    requires a.payload.ActionIODigital?
    ensures GenerateInstructionDeclaration(a, c, false, env) == GenerateInstructionDeclarationFromVariable(a, c, id, false, env)
    ensures GenerateInstructionDeclaration(a, c, false, env).Ok?
    ensures var line := GenerateInstructionDeclaration(a, c, false, env).value;
      var pin := a.payload.pin;
      line.Some? &&
      (StartsWith(line.value, DIGITAL_OUT_HEAD) <==> 0 <= pin < c.digitalOutputCount && pin <= 7) &&
      (StartsWith(line.value, ERROR_HEAD) <==> !(0 <= pin < c.digitalOutputCount && pin <= 7)) &&
      (!(0 <= pin < c.digitalOutputCount) ==> EndsWith(line.value, IO_NOT_AVAILABLE)) &&
      (0 <= pin < c.digitalOutputCount && pin > 7 ==> EndsWith(line.value, DIGITAL_PIN_NOT_AVAILABLE))
  {
    var pin := a.payload.pin;
    var line := DigitalLine(a, pin, a.payload.on, c, env);
    assert Dispatch(a, c, Inline, env) == Ok(Some(line));
    assert Dispatch(a, c, Declared(id), env) == Ok(Some(line));
    var desc := Describe(a.payload, env.formats) + "\": ";
    if !(0 <= pin < c.digitalOutputCount) {
      PrefixOf(ERROR_HEAD, desc + IO_NOT_AVAILABLE);
      SuffixOf(ERROR_HEAD, desc, IO_NOT_AVAILABLE);
    } else if pin > 7 {
      PrefixOf(ERROR_HEAD, desc + DIGITAL_PIN_NOT_AVAILABLE);
      SuffixOf(ERROR_HEAD, desc, DIGITAL_PIN_NOT_AVAILABLE);
    } else {
      PrefixOf(DIGITAL_OUT_HEAD, IntToString(pin) + ", " + (if a.payload.on then "True" else "False") + ")");
    }
    DistinctPrefixes(line, DIGITAL_OUT_HEAD, ERROR_HEAD, 2);
  }

  /** An analog write reaches the robot exactly when the pin exists on the
      cursor, is one of the two UR pins and the value lies in [0, 1]. */
  lemma AnalogOutputOutcome(a: Action, c: Cursor, id: int, env: UREnv)
    requires a.payload.ActionIOAnalog?
    ensures GenerateInstructionDeclarationFromVariable(a, c, id, false, env).Ok?
    ensures var line := GenerateInstructionDeclarationFromVariable(a, c, id, false, env).value;
      var pin := a.payload.pin;
      var v := a.payload.value;
      line.Some? &&
      (StartsWith(line.value, ANALOG_OUT_HEAD) <==> 0 <= pin < c.analogOutputCount && pin <= 1 && 0.0 <= v <= 1.0) &&
      (StartsWith(line.value, ERROR_HEAD) <==> !(0 <= pin < c.analogOutputCount && pin <= 1 && 0.0 <= v <= 1.0)) &&
      (!(0 <= pin < c.analogOutputCount) ==> EndsWith(line.value, IO_NOT_AVAILABLE)) &&
      (0 <= pin < c.analogOutputCount && pin > 1 ==> EndsWith(line.value, ANALOG_PIN_NOT_AVAILABLE)) &&
      (0 <= pin < c.analogOutputCount && pin <= 1 && !(0.0 <= v <= 1.0) ==> EndsWith(line.value, ANALOG_OUT_OF_RANGE))
  {
    var pin := a.payload.pin;
    var v := a.payload.value;
    var line := AnalogLine(a, pin, v, c, env);
    assert Dispatch(a, c, Declared(id), env) == Ok(Some(line));
    var desc := Describe(a.payload, env.formats) + "\": ";
    if !(0 <= pin < c.analogOutputCount) {
      PrefixOf(ERROR_HEAD, desc + IO_NOT_AVAILABLE);
      SuffixOf(ERROR_HEAD, desc, IO_NOT_AVAILABLE);
    } else if pin > 1 {
      PrefixOf(ERROR_HEAD, desc + ANALOG_PIN_NOT_AVAILABLE);
      SuffixOf(ERROR_HEAD, desc, ANALOG_PIN_NOT_AVAILABLE);
    } else if !(0.0 <= v <= 1.0) {
      PrefixOf(ERROR_HEAD, desc + ANALOG_OUT_OF_RANGE);
      SuffixOf(ERROR_HEAD, desc, ANALOG_OUT_OF_RANGE);
    } else {
      PrefixOf(ANALOG_OUT_HEAD, IntToString(pin) + ", " + Num(env.roundVoltage(v), env) + ")");
    }
    DistinctPrefixes(line, ANALOG_OUT_HEAD, ERROR_HEAD, 2);
  }

  /** Without annotation, both emitters write a digital output as `DigitalLine`. */
  lemma DigitalDispatch(a: Action, c: Cursor, mode: Addressing, env: UREnv)
    requires a.payload.ActionIODigital?
    ensures Instruction(a, c, mode, false, env) == Ok(Some(DigitalLine(a, a.payload.pin, a.payload.on, c, env)))
  {
    assert Dispatch(a, c, mode, env) == Ok(Some(DigitalLine(a, a.payload.pin, a.payload.on, c, env)));
  }

  /** The exact line of a digital write, in both modes: the write of the
      requested pin and state, or a comment naming the action (its
      description) and the first check it failed. */
  lemma DigitalOutputLine(a: Action, c: Cursor, id: int, env: UREnv)
    requires a.payload.ActionIODigital?
    ensures var pin := a.payload.pin;
      var desc := Describe(a.payload, env.formats);
      var line :=
        if pin < 0 || pin >= c.digitalOutputCount then ERROR_HEAD + (desc + "\": " + IO_NOT_AVAILABLE)
        else if pin > 7 then ERROR_HEAD + (desc + "\": " + DIGITAL_PIN_NOT_AVAILABLE)
        else DIGITAL_OUT_HEAD + (IntToString(pin) + ", " + (if a.payload.on then "True" else "False") + ")");
      GenerateInstructionDeclaration(a, c, false, env) == Ok(Some(line)) &&
      GenerateInstructionDeclarationFromVariable(a, c, id, false, env) == Ok(Some(line))
  {
    DigitalDispatch(a, c, Inline, env);
    DigitalDispatch(a, c, Declared(id), env);
  }

  /** Without annotation, both emitters write an analog output as `AnalogLine`. */
  lemma AnalogDispatch(a: Action, c: Cursor, mode: Addressing, env: UREnv)
    requires a.payload.ActionIOAnalog?
    ensures Instruction(a, c, mode, false, env) == Ok(Some(AnalogLine(a, a.payload.pin, a.payload.value, c, env)))
  {
    assert Dispatch(a, c, mode, env) == Ok(Some(AnalogLine(a, a.payload.pin, a.payload.value, c, env)));
  }

  /** The exact line of an analog write: the write of the requested pin and
      the rounded value, or a comment naming the action (its description)
      and the first check it failed. */
  lemma AnalogOutputLine(a: Action, c: Cursor, id: int, env: UREnv)
    requires a.payload.ActionIOAnalog?
    ensures var pin := a.payload.pin;
      var v := a.payload.value;
      var desc := Describe(a.payload, env.formats);
      GenerateInstructionDeclarationFromVariable(a, c, id, false, env) == Ok(Some(
        if pin < 0 || pin >= c.analogOutputCount then ERROR_HEAD + (desc + "\": " + IO_NOT_AVAILABLE)
        else if pin > 1 then ERROR_HEAD + (desc + "\": " + ANALOG_PIN_NOT_AVAILABLE)
        else if v < 0.0 || v > 1.0 then ERROR_HEAD + (desc + "\": " + ANALOG_OUT_OF_RANGE)
        else ANALOG_OUT_HEAD + (IntToString(pin) + ", " + Num(env.roundVoltage(v), env) + ")")))
  {
    AnalogDispatch(a, c, Declared(id), env);
  }

  /** With human comments every action but a comment carries its
      description after the line it would have had without them. */
  lemma AnnotatedLine(a: Action, c: Cursor, id: int, env: UREnv)
    ensures var plain := GenerateInstructionDeclarationFromVariable(a, c, id, false, env);
      var annotated := GenerateInstructionDeclarationFromVariable(a, c, id, true, env);
      (plain.Ok? <==> annotated.Ok?) &&
      (annotated.Ok? && Tag(a) != ActionType.Comment ==>
        annotated.value == Some(plain.value.GetOr("") + Annotation(a, env))) &&
      (Tag(a) == ActionType.Comment ==> annotated == plain)
  {
    var d := Dispatch(a, c, Declared(id), env);
    assert GenerateInstructionDeclarationFromVariable(a, c, id, false, env)
      == (if d.Err? then Err(d.error) else Ok(Annotate(d.value, a, false, env)));
    assert GenerateInstructionDeclarationFromVariable(a, c, id, true, env)
      == (if d.Err? then Err(d.error) else Ok(Annotate(d.value, a, true, env)));
  }

  /** As written, the inline emitter turns an analog write to a missing pin
      into a comment indented by three spaces. */
  lemma AnalogIndentAsWritten(a: Action, c: Cursor, humanComments: bool, env: UREnv)
    requires a.payload.ActionIOAnalog?
    requires !(0 <= a.payload.pin < c.analogOutputCount)
    ensures GenerateInstructionDeclarationAsWritten(a, c, humanComments, env).Ok?
    ensures var line := GenerateInstructionDeclarationAsWritten(a, c, humanComments, env).value;
      line.Some? && StartsWith(line.value, " " + ERROR_HEAD) && line.value[2] == ' '
  {
    var rest := Describe(a.payload, env.formats) + "\": " + IO_NOT_AVAILABLE;
    var diag := Diagnostic(a, IO_NOT_AVAILABLE, env);
    var written := Annotate(Some(" " + diag), a, humanComments, env).value;
    Associative(" ", ERROR_HEAD, rest);
    PrefixOf(" " + ERROR_HEAD, rest);
    if humanComments && Tag(a) != ActionType.Comment {
      PrefixOfConcat(" " + diag, Annotation(a, env), " " + ERROR_HEAD);
    }
    PrefixChar(written, " " + ERROR_HEAD, 2);
  }

  /** The same write yields a comment indented by two spaces, like every
      other diagnostic, in both corrected emitters. */
  lemma AnalogIndentCorrected(a: Action, c: Cursor, mode: Addressing, humanComments: bool, env: UREnv)
    requires a.payload.ActionIOAnalog?
    requires !(0 <= a.payload.pin < c.analogOutputCount)
    ensures Instruction(a, c, mode, humanComments, env).Ok?
    ensures var line := Instruction(a, c, mode, humanComments, env).value;
      line.Some? && StartsWith(line.value, ERROR_HEAD) && line.value[2] == '#'
  {
    var rest := Describe(a.payload, env.formats) + "\": " + IO_NOT_AVAILABLE;
    var diag := Diagnostic(a, IO_NOT_AVAILABLE, env);
    assert Dispatch(a, c, mode, env) == Ok(Some(diag));
    PrefixOf(ERROR_HEAD, rest);
    if humanComments && Tag(a) != ActionType.Comment {
      PrefixOfConcat(diag, Annotation(a, env), ERROR_HEAD);
    }
    PrefixChar(Instruction(a, c, mode, humanComments, env).value.value, ERROR_HEAD, 2);
  }

  /** Hence, as written, the inline and the declared-target emitters disagree
      on that write, while the corrected inline emitter agrees. */
  lemma AnalogIndentDiffers(a: Action, c: Cursor, id: int, humanComments: bool, env: UREnv)
    requires a.payload.ActionIOAnalog?
    requires !(0 <= a.payload.pin < c.analogOutputCount)
    ensures GenerateInstructionDeclarationAsWritten(a, c, humanComments, env)
      != GenerateInstructionDeclarationFromVariable(a, c, id, humanComments, env)
    ensures GenerateInstructionDeclaration(a, c, humanComments, env)
      == GenerateInstructionDeclarationFromVariable(a, c, id, humanComments, env)
  {
    AnalogIndentAsWritten(a, c, humanComments, env);
    AnalogIndentCorrected(a, c, Declared(id), humanComments, env);
    ModesAgree(a, c, id, humanComments, env);
  }

  /** Apart from the action targets, both instruction emitters agree. */
  lemma ModesAgree(a: Action, c: Cursor, id: int, humanComments: bool, env: UREnv)
    requires !IsTargetType(Tag(a))
    ensures GenerateInstructionDeclaration(a, c, humanComments, env)
      == GenerateInstructionDeclarationFromVariable(a, c, id, humanComments, env)
  {
    assert !(a.payload.ActionTranslation? || a.payload.ActionRotation? || a.payload.ActionTransformation?
      || a.payload.ActionAxes?);
    assert Dispatch(a, c, Inline, env) == Dispatch(a, c, Declared(id), env);
  }

  /** The as-written emitter agrees with the corrected one everywhere but
      the analog write to a missing pin. */
  lemma AsWrittenAgreesElsewhere(a: Action, c: Cursor, humanComments: bool, env: UREnv)
    requires !(a.payload.ActionIOAnalog? && !(0 <= a.payload.pin < c.analogOutputCount))
    ensures GenerateInstructionDeclarationAsWritten(a, c, humanComments, env)
      == GenerateInstructionDeclaration(a, c, humanComments, env)
  {
  }

  // ---------------------------------------------------------------------
  // Program compilation
  // ---------------------------------------------------------------------

  /** The pending actions of the write cursor's buffer: those of the current
      block, or all of them. */
  datatype ActionBuffer = ActionBuffer(blockPending: seq<Action>, allPending: seq<Action>)

  function PendingActions(buffer: ActionBuffer, block: bool): seq<Action> {
    if block then buffer.blockPending else buffer.allPending
  }

  /** One compilation: the actions, the write cursor before them, how the
      cursor applies an action, and the two output options. */
  datatype Run = Run(
    actions: seq<Action>,
    start: Cursor,
    apply: (Cursor, Action) -> Cursor,
    inlineTargets: bool,
    humanComments: bool,
    env: UREnv)

  /** The write cursor after the first k actions have been applied. */
  function CursorAfter(r: Run, k: nat): Cursor
    requires k <= |r.actions|
  {
    if k == 0 then r.start else r.apply(CursorAfter(r, k - 1), r.actions[k - 1])
  }

  /** An action is fatal when it attaches a tool and the cursor has none. */
  predicate Fatal(r: Run, i: nat)
    requires i < |r.actions|
  {
    Tag(r.actions[i]) == ActionType.Attach && CursorAfter(r, i + 1).tool.None?
  }

  /** The instruction of action i, from the snapshot taken after it: what
      `GenerateInstructionDeclaration` or, for declared targets,
      `GenerateInstructionDeclarationFromVariable` yields. */
  function InstructionAt(r: Run, i: nat): (line: Result<Option<string>>)
    requires i < |r.actions|
    ensures line.Err? <==> Fatal(r, i)
    ensures line.Err? ==> line.error == NO_TOOL_MESSAGE
    ensures line.Ok? && r.humanComments ==> line.value.Some?
    ensures line.Ok? && !r.humanComments ==> (line.value.Some? <==> HasURInstruction(Tag(r.actions[i])))
  {
    Instruction(r.actions[i], CursorAfter(r, i + 1), AddressingOf(r, i), r.humanComments, r.env)
  }

  /** Inline targets, or the variable named after the action's position. */
  function AddressingOf(r: Run, i: nat): Addressing {
    if r.inlineTargets then Inline else Declared(i)
  }

  /** The target declared for action i; none with inline targets. */
  function DeclarationAt(r: Run, i: nat): (dec: Option<string>)
    requires i < |r.actions|
    ensures dec.Some? <==> !r.inlineTargets && IsTargetType(Tag(r.actions[i]))
    ensures dec.Some? ==> StartsWith(dec.value, "  " + TargetName(i) + "=")
  {
    if r.inlineTargets then None
    else
      var d := GenerateVariableDeclaration(r.actions[i], CursorAfter(r, i + 1), i, r.env);
      d
  }

  /** What one action contributes: its target declaration and its instruction. */
  datatype Step = Step(declaration: Option<string>, instruction: Result<Option<string>>)

  /** The steps of the first k actions of a run. */
  function Steps(r: Run, k: nat): (steps: seq<Step>)
    requires k <= |r.actions|
    ensures |steps| == k
  {
    if k == 0 then [] else Steps(r, k - 1) + [Step(DeclarationAt(r, k - 1), InstructionAt(r, k - 1))]
  }

  lemma {:induction false} StepAt(r: Run, k: nat, i: nat)
    requires i < k <= |r.actions|
    ensures Steps(r, k)[i] == Step(DeclarationAt(r, i), InstructionAt(r, i))
  {
    if i < k - 1 {
      StepAt(r, k - 1, i);
    }
  }

  datatype Emission =
    | Emitted(variableLines: seq<string>, instructionLines: seq<string>)
    | Aborted(at: nat, reason: string)

  /** The compile loop over the first k steps: lines are collected in order
      until an instruction throws. */
  function Fold(steps: seq<Step>, k: nat): (e: Emission)
    requires k <= |steps|
    ensures e.Aborted? ==> e.at < k
  {
    if k == 0 then Emitted([], [])
    else
      var prev := Fold(steps, k - 1);
      if prev.Aborted? then prev
      else
        match steps[k - 1].instruction
        case Err(e) => Aborted(k - 1, e)
        case Ok(line) =>
          Emitted(prev.variableLines + steps[k - 1].declaration.ToSeq(), prev.instructionLines + line.ToSeq())
  }

  /** The declarations and the instruction lines of the first k steps, in order. */
  function Declarations(steps: seq<Step>, k: nat): seq<string>
    requires k <= |steps|
  {
    if k == 0 then [] else Declarations(steps, k - 1) + steps[k - 1].declaration.ToSeq()
  }

  function Lines(steps: seq<Step>, k: nat): seq<string>
    requires k <= |steps|
  {
    if k == 0 then []
    else Lines(steps, k - 1) + (if steps[k - 1].instruction.Ok? then steps[k - 1].instruction.value.ToSeq() else [])
  }

  lemma {:induction false} FoldAbortPersists(steps: seq<Step>, k: nat, n: nat)
    requires k <= n <= |steps|
    requires Fold(steps, k).Aborted?
    ensures Fold(steps, n) == Fold(steps, k)
    decreases n - k
  {
    if k < n {
      FoldAbortPersists(steps, k, n - 1);
    }
  }

  /** The loop stops at the first step that throws, with its message, and
      otherwise has collected every step's lines in order. */
  lemma {:induction false} FoldOutcome(steps: seq<Step>, k: nat)
    requires k <= |steps|
    ensures Fold(steps, k).Aborted? <==> exists i :: 0 <= i < k && steps[i].instruction.Err?
    ensures Fold(steps, k).Aborted? ==>
      var at := Fold(steps, k).at;
      steps[at].instruction.Err? && Fold(steps, k).reason == steps[at].instruction.error &&
      forall j :: 0 <= j < at ==> steps[j].instruction.Ok?
    ensures Fold(steps, k).Emitted? ==>
      Fold(steps, k) == Emitted(Declarations(steps, k), Lines(steps, k))
  {
    if k > 0 {
      FoldOutcome(steps, k - 1);
    }
  }

  /** The lines the first k actions contribute, or the action that threw. */
  function EmitUpTo(r: Run, k: nat): Emission
    requires k <= |r.actions|
  {
    Fold(Steps(r, |r.actions|), k)
  }

  /** The program text: banner, `def`, targets, instructions, `end`, kickoff;
      the targets and instructions blocks are omitted when empty. */
  function Assemble(programName: string, header: seq<string>, variables: seq<string>, instructions: seq<string>): seq<string> {
    header + ["", "def " + programName + "():", ""]
    + (if |variables| != 0 then variables + [""] else [])
    + (if |instructions| != 0 then instructions + [""] else [])
    + ["end", "", programName + "()"]
  }

  /** What compiling a run yields: the program, or the exception's message. */
  function ProgramFromActions(programName: string, r: Run): Result<seq<string>> {
    match EmitUpTo(r, |r.actions|)
    case Aborted(_, e) => Err(e)
    case Emitted(variables, instructions) =>
      Ok(Assemble(programName, r.env.disclaimerHeader(programName), variables, instructions))
  }

  /** How many actions the write cursor has applied when compilation ends. */
  function AppliedCount(r: Run): (n: nat)
    ensures n <= |r.actions|
  {
    match EmitUpTo(r, |r.actions|)
    case Aborted(at, _) => at + 1
    case Emitted(_, _) => |r.actions|
  }

  /** What the compile loop may rely on about step i of a run. */
  predicate StepSound(r: Run, step: Step, i: nat)
    requires i < |r.actions|
  {
    var line := step.instruction;
    var dec := step.declaration;
    (line.Err? <==> Fatal(r, i)) &&
    (line.Err? ==> line.error == NO_TOOL_MESSAGE) &&
    (line.Ok? && r.humanComments ==> line.value.Some?) &&
    (line.Ok? && !r.humanComments ==> (line.value.Some? <==> HasURInstruction(Tag(r.actions[i])))) &&
    (dec.Some? <==> !r.inlineTargets && IsTargetType(Tag(r.actions[i]))) &&
    (dec.Some? ==> StartsWith(dec.value, "  " + TargetName(i) + "="))
  }

  predicate StepsSound(r: Run, steps: seq<Step>) {
    |steps| == |r.actions| && forall i :: 0 <= i < |steps| ==> StepSound(r, steps[i], i)
  }

  lemma RunStepsSound(r: Run)
    ensures StepsSound(r, Steps(r, |r.actions|))
  {
    var steps := Steps(r, |r.actions|);
    forall i | 0 <= i < |steps|
      ensures StepSound(r, steps[i], i)
    {
      StepAt(r, |r.actions|, i);
    }
  }

  lemma FoldFatal(r: Run, steps: seq<Step>)
    requires StepsSound(r, steps)
    ensures Fold(steps, |steps|).Aborted? <==> exists i :: 0 <= i < |r.actions| && Fatal(r, i)
    ensures Fold(steps, |steps|).Aborted? ==>
      var at := Fold(steps, |steps|).at;
      Fatal(r, at) && Fold(steps, |steps|).reason == NO_TOOL_MESSAGE && forall j :: 0 <= j < at ==> !Fatal(r, j)
  {
    FoldOutcome(steps, |steps|);
    if exists i :: 0 <= i < |r.actions| && Fatal(r, i) {
      var i :| 0 <= i < |r.actions| && Fatal(r, i);
      assert StepSound(r, steps[i], i);
    }
    if Fold(steps, |steps|).Aborted? {
      var at := Fold(steps, |steps|).at;
      assert StepSound(r, steps[at], at);
      forall j | 0 <= j < at
        ensures !Fatal(r, j)
      {
        assert StepSound(r, steps[j], j);
      }
    }
  }

  /** Compilation fails exactly when some action is fatal; it then stops at
      the first fatal action with the missing-tool message. */
  lemma AbortIffFatal(programName: string, r: Run)
    ensures ProgramFromActions(programName, r).Err? <==> exists i :: 0 <= i < |r.actions| && Fatal(r, i)
    ensures EmitUpTo(r, |r.actions|).Aborted? ==>
      var at := EmitUpTo(r, |r.actions|).at;
      Fatal(r, at) && AppliedCount(r) == at + 1 && EmitUpTo(r, |r.actions|).reason == NO_TOOL_MESSAGE &&
      forall j :: 0 <= j < at ==> !Fatal(r, j)
  {
    RunStepsSound(r);
    FoldFatal(r, Steps(r, |r.actions|));
  }

  /** How many of the first k actions have a UR instruction, or a target. */
  function HandledCount(actions: seq<Action>, k: nat): nat
    requires k <= |actions|
  {
    if k == 0 then 0
    else HandledCount(actions, k - 1) + (if HasURInstruction(Tag(actions[k - 1])) then 1 else 0)
  }

  function TargetCount(actions: seq<Action>, k: nat): nat
    requires k <= |actions|
  {
    if k == 0 then 0
    else TargetCount(actions, k - 1) + (if IsTargetType(Tag(actions[k - 1])) then 1 else 0)
  }

  lemma {:induction false} StepCounts(r: Run, steps: seq<Step>, k: nat)
    requires StepsSound(r, steps) && k <= |steps|
    requires forall i :: 0 <= i < k ==> !Fatal(r, i)
    ensures |Lines(steps, k)| == (if r.humanComments then k else HandledCount(r.actions, k))
    ensures |Declarations(steps, k)| == (if r.inlineTargets then 0 else TargetCount(r.actions, k))
  {
    if k > 0 {
      StepCounts(r, steps, k - 1);
      assert StepSound(r, steps[k - 1], k - 1);
    }
  }

  /** A successful compile writes one instruction line per action with human
      comments and one per handled action without; one target line per
      moving action, none with inline targets. */
  lemma LineCounts(r: Run)
    requires EmitUpTo(r, |r.actions|).Emitted?
    ensures |EmitUpTo(r, |r.actions|).instructionLines|
      == (if r.humanComments then |r.actions| else HandledCount(r.actions, |r.actions|))
    ensures |EmitUpTo(r, |r.actions|).variableLines|
      == (if r.inlineTargets then 0 else TargetCount(r.actions, |r.actions|))
  {
    var steps := Steps(r, |r.actions|);
    RunStepsSound(r);
    FoldFatal(r, steps);
    FoldOutcome(steps, |steps|);
    StepCounts(r, steps, |steps|);
  }

  lemma {:induction false} DeclarationsNamed(r: Run, steps: seq<Step>, k: nat)
    requires StepsSound(r, steps) && k <= |steps|
    ensures forall line :: line in Declarations(steps, k) ==>
      exists i :: 0 <= i < k && IsTargetType(Tag(r.actions[i])) && StartsWith(line, "  " + TargetName(i) + "=")
  {
    if k > 0 {
      DeclarationsNamed(r, steps, k - 1);
      assert StepSound(r, steps[k - 1], k - 1);
    }
  }

  /** Every target line declares the variable of the moving action it was
      generated for, named by that action's position. */
  lemma DeclarationNames(r: Run)
    requires EmitUpTo(r, |r.actions|).Emitted?
    ensures forall line :: line in EmitUpTo(r, |r.actions|).variableLines ==>
      exists i :: 0 <= i < |r.actions| && IsTargetType(Tag(r.actions[i])) && StartsWith(line, "  " + TargetName(i) + "=")
  {
    var steps := Steps(r, |r.actions|);
    RunStepsSound(r);
    FoldOutcome(steps, |steps|);
    DeclarationsNamed(r, steps, |steps|);
  }

  /** The program opens with the banner and `def name():`, then the target
      and instruction blocks, and closes with `end` and the kickoff call. */
  lemma ProgramLayout(programName: string, header: seq<string>, variables: seq<string>, instructions: seq<string>)
    ensures var p := Assemble(programName, header, variables, instructions);
      var v := if |variables| != 0 then variables + [""] else [];
      var n := if |instructions| != 0 then instructions + [""] else [];
      |p| == |header| + 6 + |v| + |n| &&
      p[..|header|] == header && p[|header|] == "" && p[|header| + 1] == "def " + programName + "():" &&
      p[|header| + 2] == "" &&
      p[|header| + 3..|header| + 3 + |v|] == v && p[|header| + 3 + |v|..|p| - 3] == n &&
      p[|p| - 3] == "end" && p[|p| - 2] == "" && p[|p| - 1] == programName + "()"
  {
  }

  /** What action i of a run contributes. */
  function StepFor(r: Run, i: nat): Step
    requires i < |r.actions|
  {
    Step(DeclarationAt(r, i), InstructionAt(r, i))
  }

  /** `steps` holds, position by position, what the actions of r contribute. */
  ghost predicate StepsOf(r: Run, steps: seq<Step>) {
    |steps| == |r.actions| && forall i {:trigger StepFor(r, i)} :: 0 <= i < |steps| ==> steps[i] == StepFor(r, i)
  }

  lemma RunStepsOf(r: Run)
    ensures StepsOf(r, Steps(r, |r.actions|))
  {
    forall i | 0 <= i < |r.actions|
      ensures Steps(r, |r.actions|)[i] == StepFor(r, i)
    {
      StepAt(r, |r.actions|, i);
    }
  }

  /** The body of the compile loop for one action: its target declaration
      (unless targets are inline) and its instruction. */
  method EmitAction(ghost r: Run, ghost steps: seq<Step>, it: nat, a: Action, cursor: Cursor,
                    inlineTargets: bool, humanComments: bool, env: UREnv)
    returns (dec: Option<string>, line: Result<Option<string>>)
    requires StepsOf(r, steps)
    requires it < |r.actions| && a == r.actions[it] && cursor == CursorAfter(r, it + 1)
    requires inlineTargets == r.inlineTargets && humanComments == r.humanComments && env == r.env
    ensures Step(dec, line) == steps[it]
  {
    assert steps[it] == StepFor(r, it);
    if !inlineTargets {
      assert AddressingOf(r, it) == Declared(it);
    }
    dec := None;
    if inlineTargets {
      line := GenerateInstructionDeclaration(a, cursor, humanComments, env);
    } else {
      dec := GenerateVariableDeclaration(a, cursor, it, env);
      line := GenerateInstructionDeclarationFromVariable(a, cursor, it, humanComments, env);
    }
  }

  /** The compile loop: applies each action to the write cursor and collects
      its lines, stopping at the first instruction that throws. */
  method CompileActions(ghost r: Run, ghost steps: seq<Step>, actions: seq<Action>, writer: Cursor,
                        apply: (Cursor, Action) -> Cursor, inlineTargets: bool, humanComments: bool, env: UREnv)
    returns (emission: Emission, cursor: Cursor)
    requires r == Run(actions, writer, apply, inlineTargets, humanComments, env) && StepsOf(r, steps)
    ensures emission == Fold(steps, |steps|)
    ensures cursor == CursorAfter(r, if emission.Aborted? then emission.at + 1 else |actions|)
  {
    var variableLines: seq<string> := [];
    var instructionLines: seq<string> := [];
    cursor := writer;
    var it := 0;
    while it < |actions|
      invariant 0 <= it <= |actions|
      invariant cursor == CursorAfter(r, it)
      invariant Fold(steps, it) == Emitted(variableLines, instructionLines)
    {
      var a := actions[it];
      cursor := apply(cursor, a);
      var dec, line := EmitAction(r, steps, it, a, cursor, inlineTargets, humanComments, env);
      if dec.Some? {
        variableLines := variableLines + [dec.value];
      }
      if line.Err? {
        FoldAbortPersists(steps, it + 1, |steps|);
        emission := Aborted(it, line.error);
        return;
      }
      if line.value.Some? {
        instructionLines := instructionLines + [line.value.value];
      }
      it := it + 1;
    }
    emission := Emitted(variableLines, instructionLines);
  }

  /** The program assembly that follows the compile loop. */
  method AssembleProgram(programName: string, header: seq<string>, variableLines: seq<string>, instructionLines: seq<string>)
    returns (lines: seq<string>)
    ensures lines == Assemble(programName, header, variableLines, instructionLines)
  {
    lines := header;
    lines := lines + [""];
    lines := lines + ["def " + programName + "():"];
    lines := lines + [""];
    if |variableLines| != 0 {
      lines := lines + variableLines;
      lines := lines + [""];
    }
    if |instructionLines| != 0 {
      lines := lines + instructionLines;
      lines := lines + [""];
    }
    lines := lines + ["end"];
    lines := lines + [""];
    lines := lines + [programName + "()"];
  }

  /** `UNSAFEProgramFromBuffer`: walks the pending actions, applying each to
      the write cursor and collecting its lines, then assembles the program. */
  method ProgramFromBuffer(
    programName: string, writer: Cursor, buffer: ActionBuffer, apply: (Cursor, Action) -> Cursor,
    block: bool, inlineTargets: bool, humanComments: bool, env: UREnv)
    returns (program: Result<seq<string>>, cursor: Cursor)
    ensures var r := Run(PendingActions(buffer, block), writer, apply, inlineTargets, humanComments, env);
      program == ProgramFromActions(programName, r) && cursor == CursorAfter(r, AppliedCount(r))
  {
    var actions := if block then buffer.blockPending else buffer.allPending;
    ghost var r := Run(actions, writer, apply, inlineTargets, humanComments, env);
    ghost var steps := Steps(r, |actions|);
    RunStepsOf(r);
    var emission;
    emission, cursor := CompileActions(r, steps, actions, writer, apply, inlineTargets, humanComments, env);
    match emission
    case Aborted(_, reason) =>
      program := Err(reason);
    case Emitted(variableLines, instructionLines) =>
      var lines := AssembleProgram(programName, env.disclaimerHeader(programName), variableLines, instructionLines);
      program := Ok(lines);
  }
}
