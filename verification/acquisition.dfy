/** The permission-gated acquisition state machine of hda_watch_face.c, as
    functions from the process-wide sensor state (the three launched latches,
    the opened handles, the per-group listener state and the calls issued so
    far) and the platform's answers to the new state. The class in module
    Subsystem performs these steps in place and is proved to agree with them. */
module Acquisition {
  import opened Platform

  /** The globals the core reads and writes. `handles` holds the sensor types
      whose handle sensor_get_default_sensor has filled in; `created` and
      `started` are the abstract listener state per group; `trace` lists the
      platform calls issued so far. */
  datatype State = State(
    hrmLaunched: bool,
    physicsLaunched: bool,
    environmentLaunched: bool,
    handles: set<Sensor>,
    created: set<Group>,
    started: set<Group>,
    trace: seq<Call>)

  /** The state at process start: no latch set, no handle, no listener. */
  const Initial: State := State(false, false, false, {}, {}, {}, [])

  /** A listener is only ever started once it exists. */
  predicate Valid(st: State)
  {
    st.started <= st.created
  }

  /** The three launched latches, which only the consent callbacks set. */
  function Latches(st: State): (bool, bool, bool)
  {
    (st.hrmLaunched, st.physicsLaunched, st.environmentLaunched)
  }

  /** A step that also reports success or failure. */
  datatype Step = Step(st: State, ok: bool)

  function Issue(st: State, calls: seq<Call>): State
  {
    st.(trace := st.trace + calls)
  }

  /** The calls issued by opening the sensors `ss`, one by one. */
  function OpenCalls(ss: seq<Sensor>): (r: seq<Call>)
    ensures |r| == |ss|
    ensures forall i :: 0 <= i < |ss| ==> r[i] == GetDefaultSensor(ss[i])
  {
    if ss == [] then [] else [GetDefaultSensor(ss[0])] + OpenCalls(ss[1..])
  }

  /** A sensor_get_default_sensor call that returned SENSOR_ERROR_NONE. */
  function OpenedBy(ds: Sensor -> SensorError): Sensor -> bool
  {
    s => ds(s) == SensorErrorNone
  }

  /** initialize_*: one sensor_get_default_sensor call. It succeeds exactly
      when the framework returns SENSOR_ERROR_NONE, and only then is the
      handle recorded. */
  function InitializeSensor(st: State, s: Sensor, retval: SensorError): (r: Step)
    ensures r.ok <==> retval == SensorErrorNone
    ensures s in r.st.handles <==> (s in st.handles || r.ok)
    ensures r.st == Issue(st, [GetDefaultSensor(s)]).(handles := r.st.handles)
    ensures r.st.handles - {s} == st.handles - {s}
  {
    var issued := Issue(st, [GetDefaultSensor(s)]);
    if retval == SensorErrorNone then Step(issued.(handles := issued.handles + {s}), true)
    else Step(issued, false)
  }

  /** The `!initialize_a() || !initialize_b() || ...` chain: opens `ss` in
      order and stops at the first failure. */
  function OpenSensors(st: State, ss: seq<Sensor>, ds: Sensor -> SensorError): Step
    decreases |ss|
  {
    if ss == [] then Step(st, true)
    else
      var first := InitializeSensor(st, ss[0], ds(ss[0]));
      if !first.ok then first else OpenSensors(first.st, ss[1..], ds)
  }

  function OpenGroup(st: State, g: Group, ds: Sensor -> SensorError): Step
  {
    OpenSensors(st, GroupSensors(g), ds)
  }

  /** create_*_sensor_listener: on success the group's listener exists. */
  function CreateListenerStep(st: State, g: Group, ok: bool): (r: Step)
  {
    var issued := Issue(st, [CreateListener(g)]);
    if ok then Step(issued.(created := issued.created + {g}), true) else Step(issued, false)
  }

  /** start_*_sensor_listener: succeeds when the platform says so and the
      listener exists. */
  function StartListenerStep(st: State, g: Group, ok: bool): (r: Step)
  {
    var issued := Issue(st, [StartListener(g)]);
    if ok && g in st.created then Step(issued.(started := issued.started + {g}), true)
    else Step(issued, false)
  }

  /** destroy_*_sensor_listener: on success the listener is gone. */
  function DestroyListenerStep(st: State, g: Group, ok: bool): (r: Step)
  {
    var issued := Issue(st, [DestroyListener(g)]);
    if ok then Step(issued.(created := issued.created - {g}, started := issued.started - {g}), true)
    else Step(issued, false)
  }

  /** The open, create, start sequence the source spells out once per group
      on the immediate-allow path and again in the consent callbacks. Creation
      and start are attempted whatever the open chain returned. The result is
      the group's usability: handles opened and listener created; a failed
      start does not count against it. */
  function AcquireGroup(st: State, g: Group, a: Acquire): Step
  {
    var handles := OpenGroup(st, g, a.defaultSensor);
    var listener := CreateListenerStep(handles.st, g, a.createOk(g));
    var start := StartListenerStep(listener.st, g, a.startOk(g));
    Step(start.st, handles.ok && listener.ok)
  }

  /** The `if (!check_*_sensor_listener_is_created())` guard the immediate-allow
      path puts around a group's sequence: a group whose listener already
      exists is left alone and stays usable. */
  function AcquireUnlessCreated(st: State, g: Group, a: Acquire): Step
  {
    if g in st.created then Step(st, true) else AcquireGroup(st, g, a)
  }

  /** The verdict of request_sensor_permission on the return codes of its two
      ppm_request_permission calls. */
  function RequestGranted(health: PpmError, storage: PpmError): (r: bool)
    ensures r <==> health == storage && (health == PpmErrorNone || health == PpmErrorAlreadyInProgress)
  {
    if health == PpmErrorNone && storage == PpmErrorNone then true
    else if health == PpmErrorAlreadyInProgress && storage == PpmErrorAlreadyInProgress then true
    else false
  }

  /** request_sensor_permission: always requests both privileges. */
  function RequestSensorPermission(st: State, replies: RequestReplies): (r: Step)
    ensures r.st == Issue(st, [RequestPermission(HealthInfo), RequestPermission(MediaStorage)])
    ensures r.ok == RequestGranted(replies.health, replies.storage)
  {
    Step(Issue(st, [RequestPermission(HealthInfo), RequestPermission(MediaStorage)]),
         RequestGranted(replies.health, replies.storage))
  }

  /** The body of `if (hrm_is_launched != true)`: the HRM block. */
  function HealthBlock(st: State, act: Activation): Step
  {
    if act.healthCheck.retval != PpmErrorNone then Step(st, false)
    else match act.healthCheck.result
      case CheckAllow => AcquireUnlessCreated(st, HrmGroup, act.acquire)
      case CheckDeny => Step(st, false)
      case CheckAsk => RequestSensorPermission(st, act.healthAsk)
  }

  /** The state after the storage block and the physics and environment usable flags. */
  datatype StorageStep = StorageStep(st: State, physics: bool, environment: bool)

  /** The body of `if (physics_is_launched != true && environment_is_launched != true)`. */
  function StorageBlock(st: State, act: Activation): StorageStep
  {
    if act.storageCheck.retval != PpmErrorNone then StorageStep(st, false, false)
    else if act.storageCheck.result == CheckAllow then
      var physics := AcquireUnlessCreated(st, PhysicsGroup, act.acquire);
      var environment := AcquireUnlessCreated(physics.st, EnvironmentGroup, act.acquire);
      StorageStep(environment.st, physics.ok, environment.ok)
    else if act.storageCheck.result == CheckAsk then
      var request := RequestSensorPermission(st, act.storageAsk);
      StorageStep(request.st, request.ok, request.ok)
    else StorageStep(st, false, false)
  }

  /** The three usable flags of check_and_request_sensor_permission. */
  datatype Usability = Usability(health: bool, physics: bool, environment: bool)
  {
    predicate All() { health && physics && environment }
  }

  datatype Outcome = Outcome(st: State, usable: Usability)

  /** check_and_request_sensor_permission: both privileges are checked up
      front, each block runs only while its latch(es) are clear, and a block
      that does not run leaves its usable flag(s) true. */
  function CheckAndRequestSensorPermission(st: State, act: Activation): Outcome
  {
    var checked := Issue(st, [CheckPermission(HealthInfo), CheckPermission(MediaStorage)]);
    var health := if !st.hrmLaunched then HealthBlock(checked, act) else Step(checked, true);
    var storage := if !health.st.physicsLaunched && !health.st.environmentLaunched
                   then StorageBlock(health.st, act)
                   else StorageStep(health.st, true, true);
    Outcome(storage.st, Usability(health.ok, storage.physics, storage.environment))
  }

  /** request_health_sensor_permission_response_callback. */
  function HealthPermissionResponse(st: State, cause: CallCause, result: RequestResult, a: Acquire): State
  {
    if cause == CauseError then st
    else match result
      case AllowForever => AcquireGroup(st, HrmGroup, a).st.(hrmLaunched := true)
      case DenyForever => st
      case DenyOnce => st
  }

  /** request_physics_sensor_permission_response_callback: the mediastorage
      answer acquires both the physics and the environment group. */
  function StoragePermissionResponse(st: State, cause: CallCause, result: RequestResult, a: Acquire): State
  {
    if cause == CauseError then st
    else match result
      case AllowForever =>
        var physics := AcquireGroup(st, PhysicsGroup, a);
        var environment := AcquireGroup(physics.st, EnvironmentGroup, a);
        environment.st.(physicsLaunched := true, environmentLaunched := true)
      case DenyForever => st
      case DenyOnce => st
  }

  /** The listener part of app_terminate: a listener is destroyed only when
      check_*_sensor_listener_is_created reports it. */
  function DestroyIfCreated(st: State, g: Group, destroyOk: Group -> bool): State
  {
    if g in st.created then DestroyListenerStep(st, g, destroyOk(g)).st else st
  }

  function Terminate(st: State, destroyOk: Group -> bool): State
  {
    var hrm := DestroyIfCreated(st, HrmGroup, destroyOk);
    var physics := DestroyIfCreated(hrm, PhysicsGroup, destroyOk);
    DestroyIfCreated(physics, EnvironmentGroup, destroyOk)
  }
}
