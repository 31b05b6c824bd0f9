/**
 * The static factories of the Action class. Each builds the payload of one
 * variant; the id is stamped by `Actions.IdCounter.Construct`, which models
 * the base constructor every subclass constructor runs. A bare name builds a
 * relative action and the `...To` name an absolute one.
 */
module ActionFactory {
  import opened Geometry
  import opened Actions

  function Acceleration(accInc: real): (p: Payload)
    ensures TypeOf(p) == ActionType.Acceleration && p.relative && p.acceleration == accInc
  {
    ActionAcceleration(accInc, true)
  }

  function AccelerationTo(acc: real): (p: Payload)
    ensures TypeOf(p) == ActionType.Acceleration && !p.relative && p.acceleration == acc
  {
    ActionAcceleration(acc, false)
  }

  function Speed(speedInc: real): (p: Payload)
    ensures TypeOf(p) == ActionType.Speed && p.relative && p.speed == speedInc
  {
    ActionSpeed(speedInc, true)
  }

  function SpeedTo(speed: real): (p: Payload)
    ensures TypeOf(p) == ActionType.Speed && !p.relative && p.speed == speed
  {
    ActionSpeed(speed, false)
  }

  function RotationSpeed(rotSpeedInc: real): (p: Payload)
    ensures TypeOf(p) == ActionType.RotationSpeed && p.relative && p.rotationSpeed == rotSpeedInc
  {
    ActionRotationSpeed(rotSpeedInc, true)
  }

  function RotationSpeedTo(rotSpeed: real): (p: Payload)
    ensures TypeOf(p) == ActionType.RotationSpeed && !p.relative && p.rotationSpeed == rotSpeed
  {
    ActionRotationSpeed(rotSpeed, false)
  }

  function JointSpeed(jointSpeedInc: real): (p: Payload)
    ensures TypeOf(p) == ActionType.JointSpeed && p.relative && p.jointSpeed == jointSpeedInc
  {
    ActionJointSpeed(jointSpeedInc, true)
  }

  function JointSpeedTo(jointSpeed: real): (p: Payload)
    ensures TypeOf(p) == ActionType.JointSpeed && !p.relative && p.jointSpeed == jointSpeed
  {
    ActionJointSpeed(jointSpeed, false)
  }

  function JointAcceleration(jointAccelerationInc: real): (p: Payload)
    ensures TypeOf(p) == ActionType.JointAcceleration && p.relative && p.jointAcceleration == jointAccelerationInc
  {
    ActionJointAcceleration(jointAccelerationInc, true)
  }

  function JointAccelerationTo(jointAcceleration: real): (p: Payload)
    ensures TypeOf(p) == ActionType.JointAcceleration && !p.relative && p.jointAcceleration == jointAcceleration
  {
    ActionJointAcceleration(jointAcceleration, false)
  }

  function Precision(precisionInc: real): (p: Payload)
    ensures TypeOf(p) == ActionType.Precision && p.relative && p.precision == precisionInc
  {
    ActionPrecision(precisionInc, true)
  }

  function PrecisionTo(precision: real): (p: Payload)
    ensures TypeOf(p) == ActionType.Precision && !p.relative && p.precision == precision
  {
    ActionPrecision(precision, false)
  }

  function Motion(motionType: MotionType): (p: Payload)
    ensures TypeOf(p) == ActionType.Motion && p.motionType == motionType
  {
    ActionMotion(motionType)
  }

  function Coordinates(referenceCS: ReferenceCS): (p: Payload)
    ensures TypeOf(p) == ActionType.Coordinates && p.referenceCS == referenceCS
  {
    ActionCoordinates(referenceCS)
  }

  function Move(pos: Vector): (p: Payload)
    ensures TypeOf(p) == ActionType.Translation && p.relative && p.translation == pos
  {
    ActionTranslation(pos, true)
  }

  function MoveTo(pos: Vector): (p: Payload)
    ensures TypeOf(p) == ActionType.Translation && !p.relative && p.translation == pos
  {
    ActionTranslation(pos, false)
  }

  function Rotate(rot: Rotation): (p: Payload)
    ensures TypeOf(p) == ActionType.Rotation && p.relative && p.rotation == rot
  {
    ActionRotation(rot, true)
  }

  function RotateTo(rot: Rotation): (p: Payload)
    ensures TypeOf(p) == ActionType.Rotation && !p.relative && p.rotation == rot
  {
    ActionRotation(rot, false)
  }

  function Transform(pos: Vector, rot: Rotation, translationFirst: bool): (p: Payload)
    ensures TypeOf(p) == ActionType.Transformation && p.relative && p.translationFirst == translationFirst && p.translation == pos && p.rotation == rot
  {
    ActionTransformation(pos, rot, true, translationFirst)
  }

  function TransformTo(pos: Vector, rot: Rotation): (p: Payload)
    ensures TypeOf(p) == ActionType.Transformation && !p.relative && p.translationFirst && p.translation == pos && p.rotation == rot
  {
    ActionTransformation(pos, rot, false, true)
  }

  function Axes(jointsInc: Joints): (p: Payload)
    ensures TypeOf(p) == ActionType.Axes && p.relative && p.joints == jointsInc
  {
    ActionAxes(jointsInc, true)
  }

  function AxesTo(joints: Joints): (p: Payload)
    ensures TypeOf(p) == ActionType.Axes && !p.relative && p.joints == joints
  {
    ActionAxes(joints, false)
  }

  function Wait(millis: int): (p: Payload)
    ensures TypeOf(p) == ActionType.Wait && p.millis == millis
  {
    ActionWait(millis)
  }

  function Message(msg: string): (p: Payload)
    ensures TypeOf(p) == ActionType.Message && p.message == msg
  {
    ActionMessage(msg)
  }

  function PushSettings(): (p: Payload)
    ensures TypeOf(p) == ActionType.PushPop && p.push
  {
    ActionPushPop(true)
  }

  function PopSettings(): (p: Payload)
    ensures TypeOf(p) == ActionType.PushPop && !p.push
  {
    ActionPushPop(false)
  }

  function Comment(comment: string): (p: Payload)
    ensures TypeOf(p) == ActionType.Comment && p.comment == comment
  {
    ActionComment(comment)
  }

  /** The attach action copies the tool's translation-order flag. */
  function Attach(tool: Tool): (p: Payload)
    ensures TypeOf(p) == ActionType.Attach && p.tool == tool && p.translationFirst == tool.translationFirst
  {
    ActionAttach(tool, tool.translationFirst)
  }

  /** `ActionDetach` has no factory in the source; this is its constructor. */
  function Detach(): (p: Payload)
    ensures TypeOf(p) == ActionType.Detach && p.ActionDetach?
  {
    ActionDetach
  }

  function WriteDigital(pinNum: int, isOn: bool): (p: Payload)
    ensures TypeOf(p) == ActionType.IODigital && p.pin == pinNum && p.on == isOn
  {
    ActionIODigital(pinNum, isOn)
  }

  function WriteAnalog(pinNum: int, value: real): (p: Payload)
    ensures TypeOf(p) == ActionType.IOAnalog && p.pin == pinNum && p.value == value
  {
    ActionIOAnalog(pinNum, value)
  }

  function Temperature(temp: real, devicePart: RobotPartType, wait: bool, relative: bool): (p: Payload)
    ensures TypeOf(p) == ActionType.Temperature && p.temperature == temp && p.robotPart == devicePart && p.wait == wait && p.relative == relative
  {
    ActionTemperature(temp, devicePart, wait, relative)
  }

  function Extrude(extrude: bool): (p: Payload)
    ensures TypeOf(p) == ActionType.Extrusion && p.extrude == extrude
  {
    ActionExtrusion(extrude)
  }

  function FeedRate(rate: real, relative: bool): (p: Payload)
    ensures TypeOf(p) == ActionType.ExtrusionRate && p.rate == rate && p.relative == relative
  {
    ActionExtrusionRate(rate, relative)
  }

  function Initialize(init: bool): (p: Payload)
    ensures TypeOf(p) == ActionType.Initialization && p.initialize == init
  {
    ActionInitialization(init)
  }

  /** Push and Pop are described exactly as "Push settings to buffer" and
      "Pop settings". */
  lemma PushPopDescriptions(f: Text.Formats)
    ensures Describe(PushSettings(), f) == "Push settings to buffer"
    ensures Describe(PopSettings(), f) == "Pop settings"
  {
  }
}
