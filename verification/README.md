# Permission-gated sensor acquisition of HDA_watch_face

A Dafny model of the sensor-acquisition core of `src/hda_watch_face.c`, the
Tizen watch face of HDA_watch_face. The watch face reads three groups of
sensors:

- HRM: the heart-rate sensor and the green-LED HRM sensor;
- physics: accelerometer, gravity, gyroscope rotation vector, gyroscope and
  linear acceleration;
- environment: light, pedometer, pressure and sleep monitor.

The healthinfo privilege gates the HRM group. The mediastorage privilege
gates both the physics and the environment group. The core is made of five
parts:

- three capability probes (`check_*_sensor_is_supported`);
- eleven handle openers (`initialize_*`);
- the activation routine `check_and_request_sensor_permission`;
- the request combiner `request_sensor_permission`;
- the two consent callbacks, which are the only code that sets the
  `hrm_is_launched`, `physics_is_launched` and `environment_is_launched`
  latches.

The listener teardown of `app_terminate` is modelled too.

Every platform answer is a parameter: the return codes of
`ppm_check_permission`, `ppm_request_permission`, `sensor_is_supported` and
`sensor_get_default_sensor`, and the success of the listener create, start
and destroy calls. The calls the acquisition state machine issues (permission
checks and requests, sensor opens, listener create, start and destroy) are
appended to a `trace`. That is how the model states what was attempted and
what was not. Capability probe queries are not in the trace; each probe
returns the list of types it queried instead. The listener-created checks
only read state and are not recorded.

The model has four modules.

- `Platform` (`platform.dfy`): the vocabulary (sensor types, groups, return
  codes, calls, oracle records). It also holds `Attempted`, the prefix of a
  list that a short-circuit `||` chain evaluates.
- `Probes` (`probes.dfy`): the capability probes. They write no state, so
  they are functions of the platform's replies.
- `Acquisition` (`acquisition.dfy`): the state machine as functions from a
  `State` value and the platform's answers to the next state. `Acquisition`
  states each step; `AcquisitionFacts` (`acquisition_facts.dfy`) proves what
  the steps promise.
- `Subsystem` (`subsystem.dfy`): class `SensorSubsystem`. Its fields are the
  globals the C file updates in place (the latches, the handles, the listener
  state) and, beside them, the call trace, which has no counterpart in the C
  file and only records what was called. Its methods mirror the C functions statement by
  statement. Each is proved to leave the object in the state that the
  matching `Acquisition` function computes, so every `AcquisitionFacts`
  lemma applies to the object.

The consent callbacks are separate methods on the same object. They can be
called in any order after an activation. They are not modelled as threads.

Behaviour of the code that a reader might not expect, and that the model
keeps as written:

- Opening a group's sensors is a short-circuit `||` chain
  (src/hda_watch_face.c:1437-1438, 1504-1508, 1537-1539). The first sensor
  that fails to open ends the chain, and no later sensor of that group is
  attempted (`AcquisitionFacts.OpenSensorsCalls`). The listener is still
  created and started afterwards.
- The activation routine never sets a latch, not even after a fully
  successful immediate-allow acquisition (`AcquisitionFacts.ActivationKeepsLatches`).
  What keeps a second activation from acquiring again is the
  `check_*_sensor_listener_is_created` guard
  (`AcquisitionFacts.RepeatedActivationAcquiresNothing`).
- An ALLOW_FOREVER callback sets its latch(es) whatever happened to the
  open, create and start calls.
- On ASK, the usable flag is the verdict of `request_sensor_permission`.
  An accepted request therefore reports the group usable in the same
  activation, before the user has answered.
- With both checks answering ASK, `request_sensor_permission` runs twice, so
  each privilege is requested twice.
- `app_resume` does not call the activation routine, because that call is
  commented out (`Subsystem.SensorSubsystem.Resume`).

## Model

| member | source | states |
|---|---|---|
| Platform.Attempted | src/hda_watch_face.c:1437-1438 | the part of a `\|\|` chain that gets evaluated: a prefix that is all successes except possibly its last element, and the whole chain when every element succeeds |
| Probes.RunProbes | src/hda_watch_face.c:1000-1234 | a probe chain says supported exactly when every queried sensor returns SENSOR_ERROR_NONE and reports supported; it queries only up to the first failing sensor |
| Probes.CheckHrmSensorIsSupported | src/hda_watch_face.c:1000-1023 | the HRM probe queries only SENSOR_HRM, and its verdict is that sensor's reply |
| Probes.CheckPhysicsSensorIsSupported | src/hda_watch_face.c:1025-1141 | as written, the verdict is the AND over accelerometer, gravity, gyroscope and linear acceleration; the rotation-vector sensor is never queried |
| Probes.CheckEnvironmentSensorIsSupported | src/hda_watch_face.c:1143-1234 | the verdict is the AND over light, pedometer, pressure and sleep monitor; when it is true, all four were queried in order |
| Probes.RunProbesReadsOnlyQueries | src/hda_watch_face.c:1000-1234 | two platforms that agree on the queried sensors give a probe the same verdict and the same queries |
| Probes.PhysicsProbeIgnoresRotationVector | src/hda_watch_face.c:1071-1094 | the physics probe's outcome does not depend on the rotation-vector sensor's reply |
| Probes.PhysicsProbeAcceptsMissingRotationVector | src/hda_watch_face.c:1073 | a device without a rotation-vector sensor but with the other four passes the physics probe |
| Probes.IntendedPhysicsSensorIsSupported | src/hda_watch_face.c:1025-1141 | the corrected physics probe is the AND over all five physics sensors, so a pass implies the rotation-vector sensor is present |
| Probes.ProbeStopsAtFirstFailure | src/hda_watch_face.c:1025-1141 | when query k is the first failing one, the probe answers false and has queried exactly the first k+1 sensors |
| Acquisition.InitializeSensor | src/hda_watch_face.c:1237-1412 | an opener succeeds exactly when sensor_get_default_sensor returns SENSOR_ERROR_NONE; only then is the handle recorded; no other state changes |
| Acquisition.RequestGranted | src/hda_watch_face.c:1611-1627 | the request verdict is true exactly when both return codes are ERROR_NONE or both are ALREADY_IN_PROGRESS; any mixed pair is false |
| Acquisition.RequestSensorPermission | src/hda_watch_face.c:1602-1628 | both privileges are always requested, healthinfo first, and the verdict is RequestGranted of the two return codes: true exactly for two ERROR_NONE or two ALREADY_IN_PROGRESS |
| Acquisition.OpenSensors | src/hda_watch_face.c:1537-1539 | the `\|\|` chain of openers; no ensures of its own: OpenSensorsSucceeds, OpenSensorsCalls, OpenSensorsHandles and OpenSensorsFrame state it |
| Acquisition.OpenGroup | src/hda_watch_face.c:1437-1438 | a group's open chain over its sensors in source order; no ensures of its own: the OpenSensors lemmas and AcquireGroupUsable state it |
| Acquisition.CreateListenerStep | src/hda_watch_face.c:1446-1453 | one create call; no ensures of its own: AcquireGroupListener and AcquireGroupCalls state it |
| Acquisition.StartListenerStep | src/hda_watch_face.c:1455-1460 | one start call; no ensures of its own: AcquireGroupListener and AcquireGroupCalls state it |
| Acquisition.DestroyListenerStep | src/hda_watch_face.c:357-363 | one destroy call; no ensures of its own: DestroyIfCreatedEffect states it |
| Acquisition.AcquireGroup | src/hda_watch_face.c:1436-1461 | the open, create, start sequence; no ensures of its own: AcquireGroupUsable, AcquireGroupCalls and AcquireGroupListener state it |
| Acquisition.AcquireUnlessCreated | src/hda_watch_face.c:1503-1534 | the is-created guard; no ensures of its own: AcquireUnlessCreatedCalls (an existing listener means no call, no change and usable; otherwise the full sequence), AcquireUnlessCreatedFrame and AcquireUnlessCreatedTouches state it |
| Acquisition.HealthBlock | src/hda_watch_face.c:1428-1494 | the HRM block; no ensures of its own: HealthUsability, HealthBlockFrame and HealthBlockCalls state it |
| Acquisition.StorageBlock | src/hda_watch_face.c:1496-1597 | the physics and environment block; no ensures of its own: StorageUsability, StorageBlockFrame, StorageBlockCalls, StorageBlockAllowCalls and StorageBlockAvoidsHrm state it |
| Acquisition.CheckAndRequestSensorPermission | src/hda_watch_face.c:1414-1600 | the activation; no ensures of its own: HealthUsability, StorageUsability, HealthBlockCalls, StorageBlockCalls, StorageBlockAllowCalls, ActivationAllowCalls, LaunchedBlocksAreSkipped, HrmLatchSkipsHealthBlock, StorageLatchSkipsStorageBlock, ActivationKeepsLatches and RepeatedActivationAcquiresNothing state it |
| Acquisition.HealthPermissionResponse | src/hda_watch_face.c:1630-1693 | the healthinfo callback; no ensures of its own: HealthResponseEffect states it |
| Acquisition.StoragePermissionResponse | src/hda_watch_face.c:1695-1788 | the mediastorage callback; no ensures of its own: StorageResponseEffect and StorageResponseCalls state it |
| Acquisition.DestroyIfCreated | src/hda_watch_face.c:356-363 | one guarded destroy; no ensures of its own: DestroyIfCreatedEffect states it |
| Acquisition.Terminate | src/hda_watch_face.c:351-381 | the listener teardown; no ensures of its own: TerminateEffect states it |
| AcquisitionFacts.OpenSensorsSucceeds | src/hda_watch_face.c:1437-1438 | opening a group's sensors succeeds exactly when every one of them opens |
| AcquisitionFacts.OpenSensorsCalls | src/hda_watch_face.c:1504-1508 | sensor_get_default_sensor is called for the sensors up to and including the first failing one, and for none after it |
| AcquisitionFacts.OpenSensorsHandles | src/hda_watch_face.c:1237-1412 | the handles recorded are exactly the attempted sensors that opened |
| AcquisitionFacts.OpenSensorsFrame | src/hda_watch_face.c:1237-1412 | opening sensors leaves the latches and the listener state alone |
| AcquisitionFacts.AcquireGroupUsable | src/hda_watch_face.c:1436-1461 | after open, create and start, a group is usable exactly when all its handles opened and its listener was created, whatever start returned |
| AcquisitionFacts.AcquireGroupCalls | src/hda_watch_face.c:1503-1534 | the open chain stops at its first failure, yet the listener is still created and then started |
| AcquisitionFacts.AcquireGroupListener | src/hda_watch_face.c:1436-1461 | the listener exists afterwards when creation succeeded and is started when start succeeded; other listeners and the latches are unchanged |
| AcquisitionFacts.FirstFailureStopsOpening | src/hda_watch_face.c:1536-1563 | when a group's first sensor fails to open, the only calls issued are that open, the create and the start |
| AcquisitionFacts.AcquireUnlessCreatedFrame | src/hda_watch_face.c:1503-1563 | the guarded sequence touches only its own group's listener, keeps the started-implies-created invariant, and leaves the listener present when it existed or creation succeeded |
| AcquisitionFacts.HealthBlockFrame | src/hda_watch_face.c:1428-1494 | the HRM block keeps the latches and the other listeners, keeps the invariant, and under ALLOW with creation succeeding leaves the HRM listener in place |
| AcquisitionFacts.StorageBlockFrame | src/hda_watch_face.c:1496-1597 | the storage block keeps the latches and the HRM listener, keeps the invariant, and under ALLOW with creation succeeding leaves both of its listeners in place |
| AcquisitionFacts.HealthUsability | src/hda_watch_face.c:1428-1494 | HRM usable per healthinfo outcome: false on a check error or DENY; the request verdict on ASK; on ALLOW, true when the listener existed, otherwise exactly when the handles opened and the listener was created |
| AcquisitionFacts.StorageUsability | src/hda_watch_face.c:1496-1597 | physics and environment usable per mediastorage outcome: both false on a check error or DENY; both the request verdict on ASK; on ALLOW, each group decided on its own as for HRM |
| AcquisitionFacts.LaunchedBlocksAreSkipped | src/hda_watch_face.c:1414-1600 | a block whose latch is set is skipped and leaves its flag(s) true; with every latch set, only the two checks are issued |
| AcquisitionFacts.HrmLatchSkipsHealthBlock | src/hda_watch_face.c:1428 | with the HRM latch set, the activation leaves the HRM listener's created and started state and the Hrm and HrmLedGreen handles as they were, and issues no open of an HRM sensor and no create, start or destroy of the HRM listener |
| AcquisitionFacts.HealthBlockCalls | src/hda_watch_face.c:1428-1494 | the HRM block issues nothing on a check error or DENY; exactly the healthinfo and mediastorage requests on ASK; nothing on ALLOW when the listener exists; otherwise exactly the attempted opens, then create and start of the HRM listener |
| AcquisitionFacts.StorageBlockCalls | src/hda_watch_face.c:1496-1597 | the storage block issues nothing on a check error or DENY; exactly the healthinfo and mediastorage requests on ASK; nothing on ALLOW when both listeners exist; on ALLOW only calls that concern the physics or environment group |
| AcquisitionFacts.StorageBlockAvoidsHrm | src/hda_watch_face.c:1496-1597 | the storage block only appends to the trace, issues no call that concerns the HRM group and leaves the HRM sensors' handles alone |
| AcquisitionFacts.AcquireUnlessCreatedCalls | src/hda_watch_face.c:1503-1563 | a group whose listener exists is skipped: no call, no change, and the group counts as usable; otherwise the trace grows by exactly the attempted opens, the create and the start |
| AcquisitionFacts.StorageBlockAllowCalls | src/hda_watch_face.c:1503-1563 | under ALLOW the storage block issues the physics group's guarded calls and then the environment group's, each group skipped exactly when its own listener exists |
| AcquisitionFacts.ActivationAllowCalls | src/hda_watch_face.c:1414-1563 | with no latch set and both privileges allowed, the activation issues its two checks, then the HRM, physics and environment guarded sequences in that order, each skipped exactly when its listener exists |
| AcquisitionFacts.AcquireUnlessCreatedTouches | src/hda_watch_face.c:1503-1563 | the guarded sequence of a group only appends calls that concern that group and leaves the handles of every other sensor alone |
| AcquisitionFacts.AcquireGroupTouches | src/hda_watch_face.c:1436-1461 | a group's open, create and start sequence only appends calls that concern that group |
| AcquisitionFacts.AcquireGroupHandlesOutside | src/hda_watch_face.c:1436-1461 | a group's sequence records or drops no handle of a sensor outside the group |
| AcquisitionFacts.StorageLatchSkipsStorageBlock | src/hda_watch_face.c:1496 | with a storage latch set, the activation ends in the state its two checks and the HRM block alone produce |
| AcquisitionFacts.ActivationKeepsLatches | src/hda_watch_face.c:1414-1600 | an activation never sets or clears a latch and keeps the started-implies-created invariant |
| AcquisitionFacts.RepeatedActivationAcquiresNothing | src/hda_watch_face.c:1436-1563 | after an activation with both privileges allowed and every creation succeeding, the next allowed activation opens, creates and starts nothing and reports every group usable |
| AcquisitionFacts.BothAskRequestsEachPrivilegeTwice | src/hda_watch_face.c:1471-1579 | with both checks answering ASK, each privilege is requested twice, and the activation is usable exactly when both requests were accepted |
| AcquisitionFacts.HealthResponseEffect | src/hda_watch_face.c:1630-1693 | ALLOW_FOREVER re-runs the HRM sequence without the listener guard and sets the HRM latch whatever happened; an error, DENY_FOREVER or DENY_ONCE changes nothing |
| AcquisitionFacts.StorageResponseEffect | src/hda_watch_face.c:1695-1788 | ALLOW_FOREVER sets both the physics and the environment latch whatever happened; an error, DENY_FOREVER or DENY_ONCE changes nothing; the invariant is kept |
| AcquisitionFacts.StorageResponseCalls | src/hda_watch_face.c:1708-1769 | ALLOW_FOREVER runs the physics sequence and then the environment sequence, neither guarded by the listener check |
| AcquisitionFacts.GrantedConsentEndsAcquisition | src/hda_watch_face.c:1630-1788 | once both callbacks answered ALLOW_FOREVER, every later activation only issues its two checks and reports every group usable, even when the acquisition inside the callbacks failed |
| AcquisitionFacts.DestroyIfCreatedEffect | src/hda_watch_face.c:356-363 | a destroy call is issued only for an existing listener; only that group's listener changes |
| AcquisitionFacts.DestroyCallsContent | src/hda_watch_face.c:356-381 | the teardown issues only destroy calls, one for each group that is both visited and has a listener, and none for any other group |
| AcquisitionFacts.TerminateEffect | src/hda_watch_face.c:351-381 | teardown destroys exactly the existing listeners in HRM, physics, environment order; a listener never created is left alone; a failed destroy leaves its listener; latches and handles are unchanged |
| Subsystem.SensorSubsystem.constructor | src/hda_watch_face.c:93-95 | at process start no latch is set, no handle is open and no listener exists |
| Subsystem.SensorSubsystem.ListenerIsCreated | src/hda_watch_face.c:356 | no ensures of its own: the abstraction of check_*_sensor_listener_is_created, whose definition is not part of this model; it reads the group's created state |
| Subsystem.SensorSubsystem.InitializeSensor | src/hda_watch_face.c:1237-1412 | the in-place opener leaves the object in the state Acquisition.InitializeSensor computes |
| Subsystem.SensorSubsystem.OpenGroup | src/hda_watch_face.c:1437-1438 | the short-circuit open chain, walked as a loop, ends in the state and verdict Acquisition.OpenGroup computes |
| Subsystem.SensorSubsystem.CreateListener | src/hda_watch_face.c:1446-1453 | a listener create call records the call, and the listener exists when the platform reports success |
| Subsystem.SensorSubsystem.StartListener | src/hda_watch_face.c:1455-1460 | a listener start call records the call, and the listener is started when the platform reports success and the listener exists |
| Subsystem.SensorSubsystem.DestroyListener | src/hda_watch_face.c:357-363 | a listener destroy call records the call, and on success the listener is neither created nor started |
| Subsystem.SensorSubsystem.AcquireGroup | src/hda_watch_face.c:1436-1461 | the in-place sequence matches Acquisition.AcquireGroup, and the group is usable exactly when its handles opened and its listener was created |
| Subsystem.SensorSubsystem.RequestSensorPermission | src/hda_watch_face.c:1602-1628 | the in-place request issues both requests and returns the verdict of Acquisition.RequestSensorPermission |
| Subsystem.SensorSubsystem.HealthBlock | src/hda_watch_face.c:1428-1494 | the HRM block, with its local usable flag, matches Acquisition.HealthBlock |
| Subsystem.SensorSubsystem.StorageBlock | src/hda_watch_face.c:1496-1597 | the storage block, with its two local usable flags, matches Acquisition.StorageBlock |
| Subsystem.SensorSubsystem.CheckAndRequestSensorPermission | src/hda_watch_face.c:1414-1600 | the activation leaves the state Acquisition.CheckAndRequestSensorPermission computes and returns the AND of its three usable flags; it keeps the latches and the invariant |
| Subsystem.SensorSubsystem.HealthPermissionResponse | src/hda_watch_face.c:1630-1693 | the callback matches Acquisition.HealthPermissionResponse; after ALLOW_FOREVER the HRM latch is set; the invariant is kept |
| Subsystem.SensorSubsystem.StoragePermissionResponse | src/hda_watch_face.c:1695-1788 | the callback matches Acquisition.StoragePermissionResponse; after ALLOW_FOREVER both storage latches are set; the invariant is kept |
| Subsystem.SensorSubsystem.Terminate | src/hda_watch_face.c:351-381 | the listener teardown matches Acquisition.Terminate and keeps the invariant |
| Subsystem.SensorSubsystem.Resume | src/hda_watch_face.c:338-349 | resuming changes no sensor state, because the activation call is commented out |

## Left out

- Window, widget, animation and button-handler code, the clock-hand and
  battery angle arithmetic (floating point), the date-update thread (a
  `sleep(1)` polling loop, which is concurrency and clock I/O), locale and
  event-handler registration, and `main`: none of this touches the sensor
  state machine.
- The Bluetooth GATT and advertiser teardown and the SQLite handle in
  `app_terminate`: foreign services with no visible logic.
- Logging (`dlog_print`) and error-message strings.
- The internals of the create, start, destroy and is-created listener
  functions: their definitions are not part of this model. They are an
  abstract created/started state per group with the platform's success as a
  parameter. Two assumptions are made about them. A start succeeds only on
  a created listener. Creating a listener that already exists leaves one
  listener, so a callback that re-creates one does not model the leak of the
  earlier listener.
- Sensor handles are a set of opened sensor types. Handle values, and what
  a failed `sensor_get_default_sensor` leaves in the handle variable, are
  not modelled.
- The probes are modelled but nothing in the file calls them, so no
  activation consults them.
- Consent callbacks arrive as separate method calls in any order. Their
  concurrency with the foreground path, and a callback arriving after
  teardown, are not modelled.
- The eleven `initialize_*` functions are one operation, parameterised by
  sensor type. The per-group `||` chains are one operation, parameterised
  by the group's sensor list, which the class walks with a loop.

## Findings

| source | as written | input that shows it | evidently intended | confidence | as-written member | corrected member |
|---|---|---|---|---|---|---|
| src/hda_watch_face.c:1073 | the rotation-vector support query asks about SENSOR_GYROSCOPE, so SENSOR_GYROSCOPE_ROTATION_VECTOR is never queried | every sensor supported except the rotation vector, which reports unsupported: the physics probe answers true | query SENSOR_GYROSCOPE_ROTATION_VECTOR, so the probe is the AND over all five physics sensors | high, not executed | Probes.PhysicsProbeAcceptsMissingRotationVector | Probes.IntendedPhysicsSensorIsSupported |
