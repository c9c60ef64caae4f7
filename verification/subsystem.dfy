/** The sensor subsystem as the C file holds it: process-wide globals (the
    three launched latches, the sensor handles, the listeners) that the
    activation, the two consent callbacks and the teardown update in place.
    Each method is proved to leave the object in the state the matching
    function of module Acquisition computes, so every fact proved about those
    functions holds of the object. */
module Subsystem {
  import opened Platform
  import A = Acquisition
  import F = AcquisitionFacts

  class SensorSubsystem {
    var hrmLaunched: bool
    var physicsLaunched: bool
    var environmentLaunched: bool
    var handles: set<Sensor>
    var created: set<Group>
    var started: set<Group>
    var trace: seq<Call>

    /** The object's fields as a value. */
    function State(): A.State
      reads this
    {
      A.State(hrmLaunched, physicsLaunched, environmentLaunched, handles, created, started, trace)
    }

    /** A listener is started only once it exists. This is a derived
        invariant: no method needs it to do its work, it holds after the
        constructor, and the activation, both callbacks and the teardown are
        proved to keep it. */
    predicate Valid()
      reads this
    {
      A.Valid(State())
    }

    /** Process start: the globals' static initialisers. */
    constructor ()
      ensures State() == A.Initial
      ensures Valid()
    {
      hrmLaunched, physicsLaunched, environmentLaunched := false, false, false;
      handles, created, started := {}, {}, {};
      trace := [];
    }

    /** check_*_sensor_listener_is_created. Its definition is not part of
        this model; this is its abstraction, reading the group's created
        state. */
    function ListenerIsCreated(g: Group): bool
      reads this
    {
      g in created
    }

    /** initialize_*: one sensor_get_default_sensor call. */
    method InitializeSensor(s: Sensor, retval: SensorError) returns (ok: bool)
      modifies this
      ensures A.Step(State(), ok) == A.InitializeSensor(old(State()), s, retval)
    {
      trace := trace + [GetDefaultSensor(s)];
      ok := retval == SensorErrorNone;
      if ok {
        handles := handles + {s};
      }
    }

    /** A group's `!initialize_a() || !initialize_b() || ...` chain, walked
        over the group's sensors in order and left at the first failure. */
    method OpenGroup(g: Group, ds: Sensor -> SensorError) returns (ok: bool)
      modifies this
      ensures A.Step(State(), ok) == A.OpenGroup(old(State()), g, ds)
    {
      var sensors := GroupSensors(g);
      var i := 0;
      ok := true;
      while i < |sensors| && ok
        invariant 0 <= i <= |sensors|
        invariant ok ==> A.OpenSensors(State(), sensors[i..], ds) == A.OpenSensors(old(State()), sensors, ds)
        invariant !ok ==> A.Step(State(), false) == A.OpenSensors(old(State()), sensors, ds)
        decreases |sensors| - i
      {
        assert sensors[i..][1..] == sensors[i + 1..];
        ok := InitializeSensor(sensors[i], ds(sensors[i]));
        i := i + 1;
      }
    }

    /** create_*_sensor_listener. */
    method CreateListener(g: Group, platformOk: bool) returns (ok: bool)
      modifies this
      ensures A.Step(State(), ok) == A.CreateListenerStep(old(State()), g, platformOk)
    {
      trace := trace + [Call.CreateListener(g)];
      ok := platformOk;
      if ok {
        created := created + {g};
      }
    }

    /** start_*_sensor_listener. */
    method StartListener(g: Group, platformOk: bool) returns (ok: bool)
      modifies this
      ensures A.Step(State(), ok) == A.StartListenerStep(old(State()), g, platformOk)
    {
      trace := trace + [Call.StartListener(g)];
      ok := platformOk && g in created;
      if ok {
        started := started + {g};
      }
    }

    /** destroy_*_sensor_listener. */
    method DestroyListener(g: Group, platformOk: bool) returns (ok: bool)
      modifies this
      ensures A.Step(State(), ok) == A.DestroyListenerStep(old(State()), g, platformOk)
    {
      trace := trace + [Call.DestroyListener(g)];
      ok := platformOk;
      if ok {
        created := created - {g};
        started := started - {g};
      }
    }

    /** The open, create, start sequence for one group: a failed open or a
        failed create clears the usable flag, a failed start does not. */
    method AcquireGroup(g: Group, a: Acquire) returns (usable: bool)
      modifies this
      ensures A.Step(State(), usable) == A.AcquireGroup(old(State()), g, a)
      ensures usable <==> F.HandlesOpen(g, a.defaultSensor) && a.createOk(g)
    {
      F.AcquireGroupUsable(State(), g, a);
      usable := true;
      var handlesOk := OpenGroup(g, a.defaultSensor);
      if !handlesOk {
        usable := false;
      }
      var listener := CreateListener(g, a.createOk(g));
      if !listener {
        usable := false;
      }
      var _ := StartListener(g, a.startOk(g));
    }

    /** request_sensor_permission: requests healthinfo, then mediastorage. */
    method RequestSensorPermission(replies: RequestReplies) returns (ok: bool)
      modifies this
      ensures A.Step(State(), ok) == A.RequestSensorPermission(old(State()), replies)
    {
      trace := trace + [RequestPermission(HealthInfo)];
      trace := trace + [RequestPermission(MediaStorage)];
      assert trace == old(trace) + [RequestPermission(HealthInfo), RequestPermission(MediaStorage)];
      ok := A.RequestGranted(replies.health, replies.storage);
    }

    /** The HRM block of check_and_request_sensor_permission. */
    method HealthBlock(act: Activation) returns (usable: bool)
      modifies this
      ensures A.Step(State(), usable) == A.HealthBlock(old(State()), act)
    {
      usable := true;
      if act.healthCheck.retval == PpmErrorNone {
        match act.healthCheck.result {
          case CheckAllow =>
            if !ListenerIsCreated(HrmGroup) {
              usable := AcquireGroup(HrmGroup, act.acquire);
            }
          case CheckDeny =>
            usable := false;
          case CheckAsk =>
            usable := RequestSensorPermission(act.healthAsk);
        }
      } else {
        usable := false;
      }
    }

    /** The physics and environment block of check_and_request_sensor_permission. */
    method StorageBlock(act: Activation) returns (physics: bool, environment: bool)
      modifies this
      ensures A.StorageStep(State(), physics, environment) == A.StorageBlock(old(State()), act)
    {
      physics, environment := true, true;
      if act.storageCheck.retval == PpmErrorNone {
        if act.storageCheck.result == CheckAllow {
          if !ListenerIsCreated(PhysicsGroup) {
            physics := AcquireGroup(PhysicsGroup, act.acquire);
          }
          if !ListenerIsCreated(EnvironmentGroup) {
            environment := AcquireGroup(EnvironmentGroup, act.acquire);
          }
        } else if act.storageCheck.result == CheckAsk {
          var granted := RequestSensorPermission(act.storageAsk);
          physics, environment := granted, granted;
        } else {
          physics, environment := false, false;
        }
      } else {
        physics, environment := false, false;
      }
    }

    /** check_and_request_sensor_permission: checks both privileges, runs each
        block while its latch(es) are clear, and reports whether all three
        groups are usable. It never sets a latch. */
    method CheckAndRequestSensorPermission(act: Activation) returns (usable: bool)
      modifies this
      ensures var o := A.CheckAndRequestSensorPermission(old(State()), act);
        State() == o.st && (usable <==> o.usable.All())
      ensures A.Latches(State()) == A.Latches(old(State()))
      ensures old(Valid()) ==> Valid()
    {
      F.ActivationKeepsLatches(State(), act);
      trace := trace + [CheckPermission(HealthInfo)];
      trace := trace + [CheckPermission(MediaStorage)];
      assert trace == old(trace) + [CheckPermission(HealthInfo), CheckPermission(MediaStorage)];
      var health := true;
      var physics := true;
      var environment := true;
      if !hrmLaunched {
        health := HealthBlock(act);
      }
      if !physicsLaunched && !environmentLaunched {
        physics, environment := StorageBlock(act);
      }
      usable := health && physics && environment;
    }

    /** request_health_sensor_permission_response_callback. */
    method HealthPermissionResponse(cause: CallCause, result: RequestResult, a: Acquire)
      modifies this
      ensures State() == A.HealthPermissionResponse(old(State()), cause, result, a)
      ensures cause == CauseAnswer && result == AllowForever ==> hrmLaunched
      ensures old(Valid()) ==> Valid()
    {
      F.HealthResponseEffect(State(), cause, result, a);
      if cause == CauseAnswer {
        match result {
          case AllowForever =>
            var _ := AcquireGroup(HrmGroup, a);
            hrmLaunched := true;
          case DenyForever =>
          case DenyOnce =>
        }
      }
    }

    /** request_physics_sensor_permission_response_callback. */
    method StoragePermissionResponse(cause: CallCause, result: RequestResult, a: Acquire)
      modifies this
      ensures State() == A.StoragePermissionResponse(old(State()), cause, result, a)
      ensures cause == CauseAnswer && result == AllowForever ==> physicsLaunched && environmentLaunched
      ensures old(Valid()) ==> Valid()
    {
      F.StorageResponseEffect(State(), cause, result, a);
      if cause == CauseAnswer {
        match result {
          case AllowForever =>
            var _ := AcquireGroup(PhysicsGroup, a);
            var _ := AcquireGroup(EnvironmentGroup, a);
            physicsLaunched := true;
            environmentLaunched := true;
          case DenyForever =>
          case DenyOnce =>
        }
      }
    }

    /** The listener part of app_terminate. */
    method Terminate(destroyOk: Group -> bool)
      modifies this
      ensures State() == A.Terminate(old(State()), destroyOk)
      ensures old(Valid()) ==> Valid()
    {
      F.TerminateEffect(State(), destroyOk);
      if ListenerIsCreated(HrmGroup) {
        var _ := DestroyListener(HrmGroup, destroyOk(HrmGroup));
      }
      if ListenerIsCreated(PhysicsGroup) {
        var _ := DestroyListener(PhysicsGroup, destroyOk(PhysicsGroup));
      }
      if ListenerIsCreated(EnvironmentGroup) {
        var _ := DestroyListener(EnvironmentGroup, destroyOk(EnvironmentGroup));
      }
    }

    /** app_resume: its call to check_and_request_sensor_permission is
        commented out, so resuming touches no sensor state. */
    method Resume()
      ensures State() == old(State())
    {
    }
  }
}
