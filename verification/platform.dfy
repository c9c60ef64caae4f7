/** Vocabulary of the two platform services the watch face drives: the sensor
    framework (sensor_is_supported, sensor_get_default_sensor, the per-group
    listeners) and the privacy privilege manager (ppm_check_permission,
    ppm_request_permission). Every platform answer is an oracle value handed
    in by the caller; every platform call the model issues is recorded as a
    `Call` so that what was and was not attempted can be stated. */
module Platform {

  /** The eleven sensor types, one per global `sensor_h` handle. */
  datatype Sensor =
    | Hrm | HrmLedGreen
    | Accelerometer | Gravity | GyroscopeRotationVector | Gyroscope | LinearAcceleration
    | Light | Pedometer | Pressure | SleepMonitor

  /** The three listener groups: HRM, physics and environment. */
  datatype Group = HrmGroup | PhysicsGroup | EnvironmentGroup

  /** The sensors of a group, in the order the source's `||` chains open them. */
  function GroupSensors(g: Group): seq<Sensor>
  {
    match g
    case HrmGroup => [Hrm, HrmLedGreen]
    case PhysicsGroup => [Accelerometer, Gravity, GyroscopeRotationVector, Gyroscope, LinearAcceleration]
    case EnvironmentGroup => [Light, Pedometer, Pressure, SleepMonitor]
  }

  /** The order in which app_terminate visits the listeners. */
  const TeardownOrder: seq<Group> := [HrmGroup, PhysicsGroup, EnvironmentGroup]

  /** Return code of the sensor framework; only SENSOR_ERROR_NONE is ever
      distinguished, every other code is carried as an integer. */
  datatype SensorError = SensorErrorNone | SensorErrorCode(code: int)

  /** Return code of the privacy privilege manager. */
  datatype PpmError = PpmErrorNone | PpmErrorAlreadyInProgress | PpmErrorCode(code: int)

  /** Output of ppm_check_permission. */
  datatype CheckResult = CheckAllow | CheckDeny | CheckAsk

  /** Cause and answer delivered to a permission-response callback. */
  datatype CallCause = CauseAnswer | CauseError
  datatype RequestResult = AllowForever | DenyForever | DenyOnce

  /** The two privileges: healthinfo gates the HRM group, mediastorage gates
      both the physics and the environment group. */
  datatype Privilege = HealthInfo | MediaStorage

  /** A platform call issued by the model. */
  datatype Call =
    | CheckPermission(privilege: Privilege)
    | RequestPermission(privilege: Privilege)
    | GetDefaultSensor(sensor: Sensor)
    | CreateListener(group: Group)
    | StartListener(group: Group)
    | DestroyListener(group: Group)

  /** What the sensor framework answers while a group is acquired: the return
      code of sensor_get_default_sensor per type, and whether the group's
      listener create call and start call report success. */
  datatype Acquire = Acquire(
    defaultSensor: Sensor -> SensorError,
    createOk: Group -> bool,
    startOk: Group -> bool)

  /** One ppm_check_permission call: its return code and its result output. */
  datatype PermissionCheck = PermissionCheck(retval: PpmError, result: CheckResult)

  /** The return codes of the two ppm_request_permission calls made by one
      request_sensor_permission call (healthinfo first, mediastorage second). */
  datatype RequestReplies = RequestReplies(health: PpmError, storage: PpmError)

  /** Everything the platform answers during one activation: the two checks,
      the replies to the request issued from the HRM block and to the one
      issued from the storage block, and the sensor framework's answers. */
  datatype Activation = Activation(
    healthCheck: PermissionCheck,
    storageCheck: PermissionCheck,
    healthAsk: RequestReplies,
    storageAsk: RequestReplies,
    acquire: Acquire)

  /** The part of `xs` that a left-to-right chain of calls evaluates when it
      stops at the first call that fails: everything up to and including the
      first element for which `ok` is false. */
  function Attempted<T>(xs: seq<T>, ok: T -> bool): (r: seq<T>)
    ensures |r| <= |xs| && r == xs[..|r|]
    ensures forall i :: 0 <= i < |r| - 1 ==> ok(r[i])
    ensures r == xs || (0 < |r| && !ok(r[|r| - 1]))
    ensures r == xs <== (forall i :: 0 <= i < |xs| ==> ok(xs[i]))
  {
    if xs == [] then []
    else if !ok(xs[0]) then [xs[0]]
    else [xs[0]] + Attempted(xs[1..], ok)
  }
}
