/** The capability probes check_hrm_sensor_is_supported,
    check_physics_sensor_is_supported and check_environment_sensor_is_supported:
    straight-line chains of sensor_is_supported queries that return false on
    the first query error or unsupported sensor. They read nothing but the
    platform's answers, so they are functions of those answers. */
module Probes {
  import opened Platform

  /** What sensor_is_supported reports for one sensor type: its return code
      and its `supported` output. */
  datatype ProbeReply = ProbeReply(retval: SensorError, supported: bool)

  /** A query passes when it returned SENSOR_ERROR_NONE and reported the sensor supported. */
  predicate Confirms(r: ProbeReply)
  {
    r.retval == SensorErrorNone && r.supported
  }

  /** Outcome of a probe chain: its verdict and the sensor types actually
      queried, in order. */
  datatype ProbeRun = ProbeRun(supported: bool, queried: seq<Sensor>)

  /** A chain of sensor_is_supported queries with an early `return false`
      after each query that fails. */
  function RunProbes(queries: seq<Sensor>, reply: Sensor -> ProbeReply): (r: ProbeRun)
    ensures r.supported <==> forall i :: 0 <= i < |queries| ==> Confirms(reply(queries[i]))
    ensures r.queried == Attempted(queries, s => Confirms(reply(s)))
  {
    if queries == [] then ProbeRun(true, [])
    else if !Confirms(reply(queries[0])) then ProbeRun(false, [queries[0]])
    else
      var rest := RunProbes(queries[1..], reply);
      ProbeRun(rest.supported, [queries[0]] + rest.queried)
  }

  /** The sensor types each probe queries, as the source writes them. The HRM
      probe asks only about SENSOR_HRM; the physics probe asks about
      SENSOR_GYROSCOPE in the slot meant for the rotation-vector sensor. */
  function ProbeQueries(g: Group): seq<Sensor>
  {
    match g
    case HrmGroup => [Hrm]
    case PhysicsGroup => [Accelerometer, Gravity, Gyroscope, Gyroscope, LinearAcceleration]
    case EnvironmentGroup => [Light, Pedometer, Pressure, SleepMonitor]
  }

  function CheckHrmSensorIsSupported(reply: Sensor -> ProbeReply): (r: ProbeRun)
    ensures r.supported <==> Confirms(reply(Hrm))
    ensures r.queried == [Hrm]
  {
    RunProbes(ProbeQueries(HrmGroup), reply)
  }

  function CheckPhysicsSensorIsSupported(reply: Sensor -> ProbeReply): (r: ProbeRun)
    ensures r.supported <==>
      Confirms(reply(Accelerometer)) && Confirms(reply(Gravity)) &&
      Confirms(reply(Gyroscope)) && Confirms(reply(LinearAcceleration))
    ensures GyroscopeRotationVector !in r.queried
  {
    RunProbes(ProbeQueries(PhysicsGroup), reply)
  }

  function CheckEnvironmentSensorIsSupported(reply: Sensor -> ProbeReply): (r: ProbeRun)
    ensures r.supported <==>
      Confirms(reply(Light)) && Confirms(reply(Pedometer)) &&
      Confirms(reply(Pressure)) && Confirms(reply(SleepMonitor))
    ensures r.supported ==> r.queried == [Light, Pedometer, Pressure, SleepMonitor]
  {
    RunProbes(ProbeQueries(EnvironmentGroup), reply)
  }

  /** A probe chain only ever looks at the replies for the sensor types it
      queries: two platforms that agree on those give the same outcome. */
  lemma {:induction false} RunProbesReadsOnlyQueries(
    queries: seq<Sensor>, reply: Sensor -> ProbeReply, reply': Sensor -> ProbeReply)
    requires forall s :: s in queries ==> reply(s) == reply'(s)
    ensures RunProbes(queries, reply) == RunProbes(queries, reply')
  {
    if queries != [] {
      RunProbesReadsOnlyQueries(queries[1..], reply, reply');
    }
  }

  /** As written, the physics probe's verdict does not depend on what the
      platform says about the rotation-vector sensor at all. */
  lemma PhysicsProbeIgnoresRotationVector(reply: Sensor -> ProbeReply, reply': Sensor -> ProbeReply)
    requires forall s :: s != GyroscopeRotationVector ==> reply(s) == reply'(s)
    ensures CheckPhysicsSensorIsSupported(reply) == CheckPhysicsSensorIsSupported(reply')
  {
    RunProbesReadsOnlyQueries(ProbeQueries(PhysicsGroup), reply, reply');
  }

  /** The discrepancy as an input: a device whose rotation-vector sensor is
      missing while the other four physics sensors are present passes the
      physics probe. */
  lemma PhysicsProbeAcceptsMissingRotationVector(reply: Sensor -> ProbeReply)
    requires reply(GyroscopeRotationVector) == ProbeReply(SensorErrorNone, false)
    requires forall s :: s != GyroscopeRotationVector ==> reply(s) == ProbeReply(SensorErrorNone, true)
    ensures !Confirms(reply(GyroscopeRotationVector))
    ensures CheckPhysicsSensorIsSupported(reply).supported
  {
  }

  /** The physics probe as evidently intended: one query per physics sensor
      type, the rotation-vector sensor included. It is a strict AND over the
      whole group. */
  function IntendedPhysicsSensorIsSupported(reply: Sensor -> ProbeReply): (r: ProbeRun)
    ensures r.supported <==> forall s :: s in GroupSensors(PhysicsGroup) ==> Confirms(reply(s))
    ensures r.supported ==> Confirms(reply(GyroscopeRotationVector))
    ensures r.queried == Attempted(GroupSensors(PhysicsGroup), s => Confirms(reply(s)))
  {
    RunProbes(GroupSensors(PhysicsGroup), reply)
  }

  /** A probe chain stops at its first failing query: nothing after it is
      asked, and everything before it passed. */
  lemma {:induction false} ProbeStopsAtFirstFailure(queries: seq<Sensor>, reply: Sensor -> ProbeReply, k: nat)
    requires k < |queries| && !Confirms(reply(queries[k]))
    requires forall j :: 0 <= j < k ==> Confirms(reply(queries[j]))
    ensures !RunProbes(queries, reply).supported
    ensures RunProbes(queries, reply).queried == queries[..k + 1]
  {
    if k > 0 {
      ProbeStopsAtFirstFailure(queries[1..], reply, k - 1);
      assert queries[1..][..k] == queries[1..k + 1];
      assert queries[..k + 1] == [queries[0]] + queries[1..k + 1];
    }
  }
}
