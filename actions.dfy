/**
 * The action model: a closed set of instruction variants, each stamped with
 * a process-wide id when it is built, and a description of every variant.
 */
module Actions {
  import opened Geometry
  import opened Text

  /** The type tag every action carries. */
  datatype ActionType =
    | Undefined | Translation | Rotation | Transformation | Axes | Message | Wait
    | Speed | Acceleration | RotationSpeed | JointSpeed | JointAcceleration | Precision
    | Motion | Coordinates | PushPop | Comment | Attach | Detach | IODigital | IOAnalog
    | Temperature | Extrusion | ExtrusionRate | Initialization

  /** The payload of each `Action*` subclass, one constructor per class. */
  datatype Payload =
    | ActionAcceleration(acceleration: real, relative: bool)
    | ActionSpeed(speed: real, relative: bool)
    | ActionRotationSpeed(rotationSpeed: real, relative: bool)
    | ActionJointSpeed(jointSpeed: real, relative: bool)
    | ActionJointAcceleration(jointAcceleration: real, relative: bool)
    | ActionPrecision(precision: real, relative: bool)
    | ActionMotion(motionType: MotionType)
    | ActionCoordinates(referenceCS: ReferenceCS)
    | ActionPushPop(push: bool)
    | ActionTranslation(translation: Vector, relative: bool)
    | ActionRotation(rotation: Rotation, relative: bool)
    | ActionTransformation(translation: Vector, rotation: Rotation, relative: bool, translationFirst: bool)
    | ActionAxes(joints: Joints, relative: bool)
    | ActionMessage(message: string)
    | ActionWait(millis: int)
    | ActionComment(comment: string)
    | ActionAttach(tool: Tool, translationFirst: bool)
    | ActionDetach
    | ActionIODigital(pin: int, on: bool)
    | ActionIOAnalog(pin: int, value: real)
    | ActionTemperature(temperature: real, robotPart: RobotPartType, wait: bool, relative: bool)
    | ActionExtrusion(extrude: bool)
    | ActionExtrusionRate(rate: real, relative: bool)
    | ActionInitialization(initialize: bool)

  /** An immutable action: its id and its payload. */
  datatype Action = Action(id: int, payload: Payload)

  /** The tag each subclass constructor assigns. */
  function TypeOf(p: Payload): (t: ActionType)
    ensures t != Undefined
  {
    match p
    case ActionAcceleration(_, _) => Acceleration
    case ActionSpeed(_, _) => Speed
    case ActionRotationSpeed(_, _) => RotationSpeed
    case ActionJointSpeed(_, _) => JointSpeed
    case ActionJointAcceleration(_, _) => JointAcceleration
    case ActionPrecision(_, _) => Precision
    case ActionMotion(_) => Motion
    case ActionCoordinates(_) => Coordinates
    case ActionPushPop(_) => PushPop
    case ActionTranslation(_, _) => Translation
    case ActionRotation(_, _) => ActionType.Rotation
    case ActionTransformation(_, _, _, _) => Transformation
    case ActionAxes(_, _) => Axes
    case ActionMessage(_) => Message
    case ActionWait(_) => Wait
    case ActionComment(_) => Comment
    case ActionAttach(_, _) => Attach
    case ActionDetach => Detach
    case ActionIODigital(_, _) => IODigital
    case ActionIOAnalog(_, _) => IOAnalog
    case ActionTemperature(_, _, _, _) => Temperature
    case ActionExtrusion(_) => Extrusion
    case ActionExtrusionRate(_, _) => ExtrusionRate
    case ActionInitialization(_) => Initialization
  }

  /** Each subclass has a tag of its own: the tag tells the variant, which is
      what the compilers' `switch` on the tag relies on. */
  lemma TagIdentifiesVariant(p: Payload)
    ensures TypeOf(p) == Acceleration <==> p.ActionAcceleration?
    ensures TypeOf(p) == Speed <==> p.ActionSpeed?
    ensures TypeOf(p) == RotationSpeed <==> p.ActionRotationSpeed?
    ensures TypeOf(p) == JointSpeed <==> p.ActionJointSpeed?
    ensures TypeOf(p) == JointAcceleration <==> p.ActionJointAcceleration?
    ensures TypeOf(p) == Precision <==> p.ActionPrecision?
    ensures TypeOf(p) == Motion <==> p.ActionMotion?
    ensures TypeOf(p) == Coordinates <==> p.ActionCoordinates?
    ensures TypeOf(p) == PushPop <==> p.ActionPushPop?
    ensures TypeOf(p) == Translation <==> p.ActionTranslation?
    ensures TypeOf(p) == ActionType.Rotation <==> p.ActionRotation?
    ensures TypeOf(p) == Transformation <==> p.ActionTransformation?
    ensures TypeOf(p) == Axes <==> p.ActionAxes?
    ensures TypeOf(p) == Message <==> p.ActionMessage?
    ensures TypeOf(p) == Wait <==> p.ActionWait?
    ensures TypeOf(p) == Comment <==> p.ActionComment?
    ensures TypeOf(p) == Attach <==> p.ActionAttach?
    ensures TypeOf(p) == Detach <==> p.ActionDetach?
    ensures TypeOf(p) == IODigital <==> p.ActionIODigital?
    ensures TypeOf(p) == IOAnalog <==> p.ActionIOAnalog?
    ensures TypeOf(p) == Temperature <==> p.ActionTemperature?
    ensures TypeOf(p) == Extrusion <==> p.ActionExtrusion?
    ensures TypeOf(p) == ExtrusionRate <==> p.ActionExtrusionRate?
    ensures TypeOf(p) == Initialization <==> p.ActionInitialization?
  {
  }

  function Tag(a: Action): ActionType {
    TypeOf(a.payload)
  }

  /** "Decrease" for a negative delta, "Increase" otherwise. */
  function Trend(value: real): string {
    if value < 0.0 then "Decrease" else "Increase"
  }

  /** A relative or absolute description of a scalar setting. */
  function ScalarText(relative: bool, what: string, value: real, unit: string, f: Formats): string {
    if relative then Trend(value) + " " + what + " by " + f.number(value) + " " + unit
    else "Set " + what + " to " + f.number(value) + " " + unit
  }

  /** The `ToString` of every action subclass. */
  function Describe(p: Payload, f: Formats): string {
    match p
    case ActionAcceleration(acc, rel) => ScalarText(rel, "TCP acceleration", acc, "mm/s^2", f)
    case ActionSpeed(speed, rel) => ScalarText(rel, "TCP speed", speed, "mm/s", f)
    case ActionRotationSpeed(rs, rel) => ScalarText(rel, "TCP rotation speed", rs, "mm/s", f)
    case ActionJointSpeed(js, rel) => ScalarText(rel, "joint speed", js, "deg/s", f)
    case ActionJointAcceleration(ja, rel) => ScalarText(rel, "joint acceleration", ja, "deg/s^2", f)
    case ActionPrecision(pr, rel) => ScalarText(rel, "precision radius", pr, "mm", f)
    case ActionMotion(m) => "Set motion type to '" + MotionTypeName(m) + "'"
    case ActionCoordinates(cs) => "Set reference coordinate system to '" + cs.name + "'"
    case ActionPushPop(push) => if push then "Push settings to buffer" else "Pop settings"
    case ActionTranslation(v, rel) =>
      if rel then "Move " + f.vector(v) + " mm" else "Move to " + f.vector(v) + " mm"
    case ActionRotation(r, rel) =>
      if rel then "Rotate " + f.number(r.angle) + " deg around " + f.vector(r.axis)
      else "Rotate to " + f.orientation(r)
    case ActionTransformation(v, r, rel, tf) =>
      if rel && tf then
        "Transform: move " + f.vector(v) + " mm and rotate " + f.number(r.angle) + " deg around " + f.vector(r.axis)
      else if rel then
        "Transform: rotate " + f.number(r.angle) + " deg around " + f.vector(r.axis) + " and move " + f.vector(v) + " mm"
      else
        "Transform: move to " + f.vector(v) + " mm and rotate to " + f.orientation(r)
    case ActionAxes(j, rel) =>
      if rel then "Increase joint rotations by " + f.joints(j) + " deg"
      else "Set joint rotations to " + f.joints(j) + " deg"
    case ActionMessage(m) => "Display message \"" + m + "\""
    case ActionWait(ms) => "Wait " + IntToString(ms) + " ms"
    case ActionComment(c) => "Comment: \"" + c + "\""
    case ActionAttach(t, _) => "Attach tool \"" + t.name + "\""
    case ActionDetach => "Detach all tools"
    case ActionIODigital(pin, on) => "Turn digital IO " + IntToString(pin) + " " + (if on then "ON" else "OFF")
    case ActionIOAnalog(pin, v) => "Set analog IO " + IntToString(pin) + " to " + f.number(v)
    case ActionTemperature(t, part, wait, rel) =>
      (if rel then Trend(t) + " " + part.name + " temperature by " + f.number(t) + " °C"
       else "Set " + part.name + " temperature to " + f.number(t) + " °C")
      + (if wait then " and wait" else "")
    case ActionExtrusion(on) => "Turn extrusion " + (if on then "on" else "off")
    case ActionExtrusionRate(rate, rel) =>
      if rel then Trend(rate) + " feed rate by " + f.number(rate) + " mm/s"
      else "Set feed rate to " + f.number(rate) + " mm/s"
    case ActionInitialization(init) => (if init then "Initialize" else "Terminate") + " this device."
  }

  /** The payloads whose setting can be relative, and their value. */
  predicate IsScalarSetting(p: Payload) {
    p.ActionAcceleration? || p.ActionSpeed? || p.ActionRotationSpeed? || p.ActionJointSpeed?
    || p.ActionJointAcceleration? || p.ActionPrecision? || p.ActionTemperature? || p.ActionExtrusionRate?
  }

  function ScalarValue(p: Payload): real
    requires IsScalarSetting(p)
  {
    match p
    case ActionAcceleration(v, _) => v
    case ActionSpeed(v, _) => v
    case ActionRotationSpeed(v, _) => v
    case ActionJointSpeed(v, _) => v
    case ActionJointAcceleration(v, _) => v
    case ActionPrecision(v, _) => v
    case ActionTemperature(v, _, _, _) => v
    case ActionExtrusionRate(v, _) => v
  }

  /** A text that begins with the trend word of `value`. */
  lemma TrendPrefix(value: real, rest: string)
    ensures StartsWith(Trend(value) + rest, "Decrease") <==> value < 0.0
    ensures StartsWith(Trend(value) + rest, "Increase") <==> value >= 0.0
  {
    var d := Trend(value) + rest;
    assert d[..8] == Trend(value);
  }

  /** The sign rule for the description `d` of a setting with the given
      relative flag and value. */
  ghost predicate SignRule(d: string, relative: bool, value: real) {
    && (relative ==> (StartsWith(d, "Decrease") <==> value < 0.0))
    && (relative ==> (StartsWith(d, "Increase") <==> value >= 0.0))
    && (!relative ==> StartsWith(d, "Set "))
  }

  lemma ScalarTextSign(relative: bool, what: string, value: real, unit: string, f: Formats)
    ensures SignRule(ScalarText(relative, what, value, unit, f), relative, value)
  {
    var d := ScalarText(relative, what, value, unit, f);
    if relative {
      TrendPrefix(value, " " + what + " by " + f.number(value) + " " + unit);
    } else {
      assert d[..4] == "Set ";
    }
  }

  /** A relative setting is described as a decrease exactly when its delta is
      negative and as an increase otherwise; an absolute one as "Set ...". */
  lemma RelativeDescriptionSign(p: Payload, f: Formats)
    requires IsScalarSetting(p)
    ensures p.relative ==> (StartsWith(Describe(p, f), "Decrease") <==> ScalarValue(p) < 0.0)
    ensures p.relative ==> (StartsWith(Describe(p, f), "Increase") <==> ScalarValue(p) >= 0.0)
    ensures !p.relative ==> StartsWith(Describe(p, f), "Set ")
  {
    match p
    case ActionAcceleration(v, rel) => ScalarTextSign(rel, "TCP acceleration", v, "mm/s^2", f);
    case ActionSpeed(v, rel) => ScalarTextSign(rel, "TCP speed", v, "mm/s", f);
    case ActionRotationSpeed(v, rel) => ScalarTextSign(rel, "TCP rotation speed", v, "mm/s", f);
    case ActionJointSpeed(v, rel) => ScalarTextSign(rel, "joint speed", v, "deg/s", f);
    case ActionJointAcceleration(v, rel) => ScalarTextSign(rel, "joint acceleration", v, "deg/s^2", f);
    case ActionPrecision(v, rel) => ScalarTextSign(rel, "precision radius", v, "mm", f);
    case ActionTemperature(t, part, wait, rel) =>
      var tail := if wait then " and wait" else "";
      if rel {
        TrendPrefix(t, " " + part.name + " temperature by " + f.number(t) + " °C" + tail);
      } else {
        assert Describe(p, f)[..4] == "Set ";
      }
    case ActionExtrusionRate(rate, rel) =>
      if rel {
        TrendPrefix(rate, " feed rate by " + f.number(rate) + " mm/s");
      } else {
        assert Describe(p, f)[..4] == "Set ";
      }
  }

  /** The temperature description ends in " and wait" exactly when the action waits. */
  lemma TemperatureWaitSuffix(t: real, part: RobotPartType, wait: bool, relative: bool, f: Formats)
    ensures EndsWith(Describe(ActionTemperature(t, part, wait, relative), f), " and wait") <==> wait
  {
    var d := Describe(ActionTemperature(t, part, wait, relative), f);
    if !wait {
      assert d[|d| - 1] == 'C';
    } else {
      var head := d[..|d| - 9];
      assert d == head + " and wait";
    }
  }

  /**
   * The rolling id counter shared by every action constructor: each new
   * action receives the current value, which is then incremented.
   */
  class IdCounter {
    var currentId: int
    /** The ids handed out so far. */
    ghost var issued: set<int>

    ghost predicate Valid()
      reads this
    {
      forall i :: i in issued ==> i < currentId
    }

    constructor ()
      ensures Valid() && currentId == 1 && issued == {}
    {
      currentId := 1;
      issued := {};
    }

    /** The base constructor: stamps `p` with the next id. The new id is
        larger than every id issued before, so it is never reused. */
    method Construct(p: Payload) returns (a: Action)
      requires Valid()
      modifies this
      ensures Valid()
      ensures a == Action(old(currentId), p) && currentId == old(currentId) + 1
      ensures forall i :: i in old(issued) ==> i < a.id
      ensures issued == old(issued) + {a.id}
    {
      a := Action(currentId, p);
      currentId := currentId + 1;
      issued := issued + {a.id};
    }
  }
}
