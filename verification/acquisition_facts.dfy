/** Properties of the acquisition state machine: what opening a group
    attempts, which usable flag each permission outcome yields, when blocks
    are skipped, that repeated activations acquire nothing new, who sets the
    launched latches, and what teardown destroys. */
module AcquisitionFacts {
  import opened Platform
  import opened Acquisition

  /** The handles a chain of opens over `tried` records. */
  function OpenedAmong(tried: seq<Sensor>, ds: Sensor -> SensorError): set<Sensor>
  {
    set s | s in tried && ds(s) == SensorErrorNone
  }

  /** Opening a list of sensors succeeds exactly when every one of them opens. */
  lemma {:induction false} OpenSensorsSucceeds(st: State, ss: seq<Sensor>, ds: Sensor -> SensorError)
    ensures OpenSensors(st, ss, ds).ok <==> forall s :: s in ss ==> ds(s) == SensorErrorNone
    decreases |ss|
  {
    if ss != [] {
      var first := InitializeSensor(st, ss[0], ds(ss[0]));
      if first.ok {
        OpenSensorsSucceeds(first.st, ss[1..], ds);
        forall s | s in ss
          ensures s == ss[0] || s in ss[1..]
        {
          var i :| 0 <= i < |ss| && ss[i] == s;
          if i > 0 { assert ss[1..][i - 1] == s; }
        }
      }
    }
  }

  /** Opening a list of sensors issues sensor_get_default_sensor for the
      sensors up to and including the first failing one, and for no later one. */
  lemma {:induction false} OpenSensorsCalls(st: State, ss: seq<Sensor>, ds: Sensor -> SensorError)
    ensures OpenSensors(st, ss, ds).st.trace == st.trace + OpenCalls(Attempted(ss, OpenedBy(ds)))
    decreases |ss|
  {
    if ss != [] {
      var first := InitializeSensor(st, ss[0], ds(ss[0]));
      if !first.ok {
        assert Attempted(ss, OpenedBy(ds)) == [ss[0]];
      } else {
        OpenSensorsCalls(first.st, ss[1..], ds);
        var rest := Attempted(ss[1..], OpenedBy(ds));
        assert Attempted(ss, OpenedBy(ds)) == [ss[0]] + rest;
        assert ([ss[0]] + rest)[1..] == rest;
        assert OpenCalls([ss[0]] + rest) == [GetDefaultSensor(ss[0])] + OpenCalls(rest);
      }
    }
  }

  /** Opening a list of sensors records exactly the handles that opened. */
  lemma {:induction false} OpenSensorsHandles(st: State, ss: seq<Sensor>, ds: Sensor -> SensorError)
    ensures OpenSensors(st, ss, ds).st.handles == st.handles + OpenedAmong(Attempted(ss, OpenedBy(ds)), ds)
    decreases |ss|
  {
    if ss != [] {
      var first := InitializeSensor(st, ss[0], ds(ss[0]));
      if !first.ok {
        assert Attempted(ss, OpenedBy(ds)) == [ss[0]];
        assert OpenedAmong([ss[0]], ds) == {};
      } else {
        OpenSensorsHandles(first.st, ss[1..], ds);
        var rest := Attempted(ss[1..], OpenedBy(ds));
        assert Attempted(ss, OpenedBy(ds)) == [ss[0]] + rest;
        assert OpenedAmong([ss[0]] + rest, ds) == {ss[0]} + OpenedAmong(rest, ds);
      }
    }
  }

  /** Opening sensors touches neither the latches nor the listeners. */
  lemma {:induction false} OpenSensorsFrame(st: State, ss: seq<Sensor>, ds: Sensor -> SensorError)
    ensures var r := OpenSensors(st, ss, ds);
      r.st == st.(trace := r.st.trace, handles := r.st.handles)
    decreases |ss|
  {
    if ss != [] {
      var first := InitializeSensor(st, ss[0], ds(ss[0]));
      if first.ok {
        OpenSensorsFrame(first.st, ss[1..], ds);
      }
    }
  }

  /** Every sensor of the group opens. */
  predicate HandlesOpen(g: Group, ds: Sensor -> SensorError)
  {
    forall s :: s in GroupSensors(g) ==> ds(s) == SensorErrorNone
  }

  /** A group is usable after its open, create, start sequence exactly when
      its handles opened and its listener was created, whatever start returned. */
  lemma AcquireGroupUsable(st: State, g: Group, a: Acquire)
    ensures AcquireGroup(st, g, a).ok <==> HandlesOpen(g, a.defaultSensor) && a.createOk(g)
  {
    OpenSensorsSucceeds(st, GroupSensors(g), a.defaultSensor);
  }

  /** The open chain of a group stops at its first failing sensor, yet the
      listener is still created and started. */
  lemma AcquireGroupCalls(st: State, g: Group, a: Acquire)
    ensures AcquireGroup(st, g, a).st.trace
         == st.trace + OpenCalls(Attempted(GroupSensors(g), OpenedBy(a.defaultSensor)))
                     + [CreateListener(g), StartListener(g)]
  {
    var handles := OpenGroup(st, g, a.defaultSensor);
    OpenSensorsCalls(st, GroupSensors(g), a.defaultSensor);
    var opens := OpenCalls(Attempted(GroupSensors(g), OpenedBy(a.defaultSensor)));
    var listener := CreateListenerStep(handles.st, g, a.createOk(g));
    assert listener.st.trace == st.trace + opens + [CreateListener(g)];
    var start := StartListenerStep(listener.st, g, a.startOk(g));
    assert start.st.trace == st.trace + opens + [CreateListener(g)] + [StartListener(g)];
  }

  /** The group's listener exists afterwards when creation succeeded, and is
      started when start succeeded on an existing listener; other groups'
      listeners and the latches are untouched. */
  lemma AcquireGroupListener(st: State, g: Group, a: Acquire)
    ensures var r := AcquireGroup(st, g, a).st;
      && r.created == (if a.createOk(g) then st.created + {g} else st.created)
      && r.started == (if a.startOk(g) && g in r.created then st.started + {g} else st.started)
      && Latches(r) == Latches(st)
  {
    OpenSensorsFrame(st, GroupSensors(g), a.defaultSensor);
  }

  /** A group whose first sensor fails to open: no later sensor of it is
      asked for, but its listener is still created and started. */
  lemma FirstFailureStopsOpening(st: State, g: Group, a: Acquire)
    requires a.defaultSensor(GroupSensors(g)[0]) != SensorErrorNone
    ensures AcquireGroup(st, g, a).st.trace
         == st.trace + [GetDefaultSensor(GroupSensors(g)[0]), CreateListener(g), StartListener(g)]
    ensures !AcquireGroup(st, g, a).ok
  {
    AcquireGroupCalls(st, g, a);
    AcquireGroupUsable(st, g, a);
    assert Attempted(GroupSensors(g), OpenedBy(a.defaultSensor)) == [GroupSensors(g)[0]];
  }

  /** Every listener other than `g`'s is in the same state in `r` as in `st`. */
  predicate OthersUnchanged(r: State, st: State, g: Group)
  {
    forall h :: h != g ==> (h in r.created <==> h in st.created) && (h in r.started <==> h in st.started)
  }

  /** The guarded sequence leaves the latches and every other group's
      listener alone, keeps the listener invariant, and leaves the group's
      listener in place when it existed or creation succeeded. */
  lemma AcquireUnlessCreatedFrame(st: State, g: Group, a: Acquire)
    ensures var r := AcquireUnlessCreated(st, g, a).st;
      && Latches(r) == Latches(st)
      && OthersUnchanged(r, st, g)
      && (Valid(st) ==> Valid(r))
      && (g in r.created <==> g in st.created || a.createOk(g))
  {
    AcquireGroupListener(st, g, a);
  }

  /** The calls the guarded sequence of group `g` issues: none when the
      group's listener exists, otherwise the attempted opens, the create and
      the start. */
  function GuardedCalls(st: State, g: Group, a: Acquire): seq<Call>
  {
    if g in st.created then []
    else OpenCalls(Attempted(GroupSensors(g), OpenedBy(a.defaultSensor))) + [CreateListener(g), StartListener(g)]
  }

  /** A group whose listener exists is skipped: nothing is issued, nothing
      changes and the group counts as usable. Otherwise the full sequence
      runs. Either way the trace grows by exactly the group's guarded calls. */
  lemma AcquireUnlessCreatedCalls(st: State, g: Group, a: Acquire)
    ensures g in st.created ==> AcquireUnlessCreated(st, g, a) == Step(st, true)
    ensures AcquireUnlessCreated(st, g, a).st.trace == st.trace + GuardedCalls(st, g, a)
  {
    if g !in st.created {
      AcquireGroupCalls(st, g, a);
    }
  }

  /** A platform call that concerns group `g`: opening one of its sensors,
      or a call on its listener. */
  predicate Touches(c: Call, g: Group)
  {
    match c
    case GetDefaultSensor(s) => s in GroupSensors(g)
    case CreateListener(h) => h == g
    case StartListener(h) => h == g
    case DestroyListener(h) => h == g
    case CheckPermission(_) => false
    case RequestPermission(_) => false
  }

  /** `r`'s calls are `st`'s calls followed by more. */
  predicate Extends(r: State, st: State)
  {
    |st.trace| <= |r.trace| && r.trace[..|st.trace|] == st.trace
  }

  /** The calls issued between `st` and `r`. */
  function NewCalls(r: State, st: State): seq<Call>
    requires Extends(r, st)
  {
    r.trace[|st.trace|..]
  }

  /** Two steps in a row: every call issued by both was issued by one of them. */
  lemma ExtendsTrans(st: State, m: State, r: State)
    requires Extends(m, st) && Extends(r, m)
    ensures Extends(r, st)
    ensures forall c :: c in NewCalls(r, st) ==> c in NewCalls(m, st) || c in NewCalls(r, m)
  {
    assert r.trace[..|st.trace|] == r.trace[..|m.trace|][..|st.trace|];
    assert NewCalls(r, st) == NewCalls(m, st) + NewCalls(r, m);
  }

  /** Appending calls extends the trace by exactly those calls. */
  lemma IssueExtends(st: State, calls: seq<Call>)
    ensures Extends(Issue(st, calls), st) && NewCalls(Issue(st, calls), st) == calls
  {
    assert (st.trace + calls)[..|st.trace|] == st.trace;
  }

  /** Every element a short-circuit chain evaluates is an element of the chain. */
  lemma AttemptedWithin<T>(xs: seq<T>, ok: T -> bool)
    ensures forall x :: x in Attempted(xs, ok) ==> x in xs
  {
    var r := Attempted(xs, ok);
    forall x | x in r
      ensures x in xs
    {
      var i :| 0 <= i < |r| && r[i] == x;
      assert xs[..|r|][i] == x;
    }
  }

  /** Opening sensors of `g` only issues calls that concern `g`. */
  lemma OpenCallsTouch(ss: seq<Sensor>, g: Group)
    requires forall s :: s in ss ==> s in GroupSensors(g)
    ensures forall c :: c in OpenCalls(ss) ==> Touches(c, g)
  {
    forall c | c in OpenCalls(ss)
      ensures Touches(c, g)
    {
      var i :| 0 <= i < |ss| && OpenCalls(ss)[i] == c;
      assert ss[i] in ss;
    }
  }

  /** A group's open, create, start sequence issues only calls that concern it. */
  lemma AcquireGroupTouches(st: State, g: Group, a: Acquire)
    ensures var r := AcquireGroup(st, g, a).st;
      Extends(r, st) && forall c :: c in NewCalls(r, st) ==> Touches(c, g)
  {
    var r := AcquireGroup(st, g, a).st;
    var attempted := Attempted(GroupSensors(g), OpenedBy(a.defaultSensor));
    AcquireGroupCalls(st, g, a);
    AttemptedWithin(GroupSensors(g), OpenedBy(a.defaultSensor));
    OpenCallsTouch(attempted, g);
    var tail := OpenCalls(attempted) + [CreateListener(g), StartListener(g)];
    assert r.trace == st.trace + tail;
    assert r.trace[..|st.trace|] == st.trace;
    assert NewCalls(r, st) == tail;
  }

  /** A group's sequence records or drops no handle of a sensor outside it. */
  lemma AcquireGroupHandlesOutside(st: State, g: Group, a: Acquire)
    ensures var r := AcquireGroup(st, g, a).st;
      forall s :: s !in GroupSensors(g) ==> (s in r.handles <==> s in st.handles)
  {
    OpenSensorsHandles(st, GroupSensors(g), a.defaultSensor);
    AttemptedWithin(GroupSensors(g), OpenedBy(a.defaultSensor));
  }

  /** The guarded sequence of a group issues only calls that concern that
      group, and records or drops no handle outside it. */
  lemma AcquireUnlessCreatedTouches(st: State, g: Group, a: Acquire)
    ensures var r := AcquireUnlessCreated(st, g, a).st;
      && Extends(r, st)
      && (forall c :: c in NewCalls(r, st) ==> Touches(c, g))
      && (forall s :: s !in GroupSensors(g) ==> (s in r.handles <==> s in st.handles))
  {
    IssueExtends(st, []);
    AcquireGroupTouches(st, g, a);
    AcquireGroupHandlesOutside(st, g, a);
  }

  /** The HRM block leaves the latches and the other listeners alone, keeps
      the listener invariant, and under ALLOW with creation succeeding leaves
      the HRM listener in place. */
  lemma HealthBlockFrame(st: State, act: Activation)
    ensures var r := HealthBlock(st, act).st;
      && Latches(r) == Latches(st)
      && OthersUnchanged(r, st, HrmGroup)
      && (Valid(st) ==> Valid(r))
      && ((Allowed(act.healthCheck) && act.acquire.createOk(HrmGroup)) ==> HrmGroup in r.created)
  {
    AcquireUnlessCreatedFrame(st, HrmGroup, act.acquire);
  }

  /** The storage block leaves the latches and the HRM listener alone, keeps
      the listener invariant, and under ALLOW with creation succeeding leaves
      both its listeners in place. */
  lemma StorageBlockFrame(st: State, act: Activation)
    ensures var r := StorageBlock(st, act).st;
      && Latches(r) == Latches(st)
      && (HrmGroup in r.created <==> HrmGroup in st.created)
      && (HrmGroup in r.started <==> HrmGroup in st.started)
      && (Valid(st) ==> Valid(r))
      && ((Allowed(act.storageCheck) && act.acquire.createOk(PhysicsGroup) && act.acquire.createOk(EnvironmentGroup))
            ==> PhysicsGroup in r.created && EnvironmentGroup in r.created)
  {
    var physics := AcquireUnlessCreated(st, PhysicsGroup, act.acquire);
    AcquireUnlessCreatedFrame(st, PhysicsGroup, act.acquire);
    AcquireUnlessCreatedFrame(physics.st, EnvironmentGroup, act.acquire);
  }

  predicate Allowed(c: PermissionCheck)
  {
    c == PermissionCheck(PpmErrorNone, CheckAllow)
  }

  /** The HRM usable flag per outcome of the healthinfo check, when the HRM
      block runs: a check error or DENY makes it false, ASK makes it the
      verdict of request_sensor_permission, and ALLOW makes it true when the
      listener already existed and otherwise exactly when the handles opened
      and the listener was created. */
  lemma HealthUsability(st: State, act: Activation)
    requires !st.hrmLaunched
    ensures var u := CheckAndRequestSensorPermission(st, act).usable;
      var c := act.healthCheck;
      && (c.retval != PpmErrorNone || c.result == CheckDeny ==> !u.health)
      && (c.retval == PpmErrorNone && c.result == CheckAsk ==>
            u.health == RequestGranted(act.healthAsk.health, act.healthAsk.storage))
      && (c.retval == PpmErrorNone && c.result == CheckAllow ==>
            (u.health <==>
               HrmGroup in st.created ||
               (HandlesOpen(HrmGroup, act.acquire.defaultSensor) && act.acquire.createOk(HrmGroup))))
  {
    var checked := Issue(st, [CheckPermission(HealthInfo), CheckPermission(MediaStorage)]);
    AcquireGroupUsable(checked, HrmGroup, act.acquire);
  }

  /** The physics and environment usable flags per outcome of the
      mediastorage check, when the storage block runs: an error or DENY makes
      both false, ASK makes both the verdict of request_sensor_permission, and
      ALLOW decides each group on its own as for HRM. */
  lemma StorageUsability(st: State, act: Activation)
    requires !st.physicsLaunched && !st.environmentLaunched
    ensures var u := CheckAndRequestSensorPermission(st, act).usable;
      var c := act.storageCheck;
      var a := act.acquire;
      && (c.retval != PpmErrorNone || c.result == CheckDeny ==> !u.physics && !u.environment)
      && (c.retval == PpmErrorNone && c.result == CheckAsk ==>
            u.physics == u.environment == RequestGranted(act.storageAsk.health, act.storageAsk.storage))
      && (c.retval == PpmErrorNone && c.result == CheckAllow ==>
            && (u.physics <==>
                  PhysicsGroup in st.created ||
                  (HandlesOpen(PhysicsGroup, a.defaultSensor) && a.createOk(PhysicsGroup)))
            && (u.environment <==>
                  EnvironmentGroup in st.created ||
                  (HandlesOpen(EnvironmentGroup, a.defaultSensor) && a.createOk(EnvironmentGroup))))
  {
    var checked := Issue(st, [CheckPermission(HealthInfo), CheckPermission(MediaStorage)]);
    var health := if !st.hrmLaunched then HealthBlock(checked, act) else Step(checked, true);
    HealthBlockFrame(checked, act);
    AcquireGroupUsable(health.st, PhysicsGroup, act.acquire);
    AcquireUnlessCreatedFrame(health.st, PhysicsGroup, act.acquire);
    var physics := AcquireUnlessCreated(health.st, PhysicsGroup, act.acquire);
    AcquireGroupUsable(physics.st, EnvironmentGroup, act.acquire);
  }

  /** A block whose latch is set is skipped and leaves its usable flag(s)
      true; with every latch set an activation only issues its two checks. */
  lemma LaunchedBlocksAreSkipped(st: State, act: Activation)
    ensures var o := CheckAndRequestSensorPermission(st, act);
      && (st.hrmLaunched ==> o.usable.health)
      && (st.physicsLaunched || st.environmentLaunched ==> o.usable.physics && o.usable.environment)
      && (st.hrmLaunched && (st.physicsLaunched || st.environmentLaunched) ==>
            o.st == Issue(st, [CheckPermission(HealthInfo), CheckPermission(MediaStorage)]))
  {
    var checked := Issue(st, [CheckPermission(HealthInfo), CheckPermission(MediaStorage)]);
    HealthBlockFrame(checked, act);
  }

  /** The storage block issues no call that concerns the HRM group and
      leaves the HRM handles as they were. */
  lemma StorageBlockAvoidsHrm(st: State, act: Activation)
    ensures var r := StorageBlock(st, act).st;
      && Extends(r, st)
      && (forall c :: c in NewCalls(r, st) ==> !Touches(c, HrmGroup))
      && (forall s :: s in GroupSensors(HrmGroup) ==> (s in r.handles <==> s in st.handles))
  {
    IssueExtends(st, []);
    IssueExtends(st, [RequestPermission(HealthInfo), RequestPermission(MediaStorage)]);
    if act.storageCheck.retval == PpmErrorNone && act.storageCheck.result == CheckAllow {
      var physics := AcquireUnlessCreated(st, PhysicsGroup, act.acquire);
      var environment := AcquireUnlessCreated(physics.st, EnvironmentGroup, act.acquire);
      AcquireUnlessCreatedTouches(st, PhysicsGroup, act.acquire);
      AcquireUnlessCreatedTouches(physics.st, EnvironmentGroup, act.acquire);
      ExtendsTrans(st, physics.st, environment.st);
    }
  }

  /** With the HRM latch set the HRM block does not run, so the activation
      leaves the HRM listener and the HRM handles as they were and issues no
      call that opens an HRM sensor or touches the HRM listener, whatever the
      storage block does. */
  lemma HrmLatchSkipsHealthBlock(st: State, act: Activation)
    requires st.hrmLaunched
    ensures var r := CheckAndRequestSensorPermission(st, act).st;
      && (HrmGroup in r.created <==> HrmGroup in st.created)
      && (HrmGroup in r.started <==> HrmGroup in st.started)
      && (Hrm in r.handles <==> Hrm in st.handles)
      && (HrmLedGreen in r.handles <==> HrmLedGreen in st.handles)
      && Extends(r, st)
      && (forall c :: c in NewCalls(r, st) ==> !Touches(c, HrmGroup))
  {
    var checked := Issue(st, [CheckPermission(HealthInfo), CheckPermission(MediaStorage)]);
    IssueExtends(st, [CheckPermission(HealthInfo), CheckPermission(MediaStorage)]);
    StorageBlockFrame(checked, act);
    StorageBlockAvoidsHrm(checked, act);
    IssueExtends(checked, []);
    var r := CheckAndRequestSensorPermission(st, act).st;
    ExtendsTrans(st, checked, r);
  }

  /** The permission gate of the HRM block: a check error or DENY issues
      nothing and changes nothing; ASK issues exactly the two permission
      requests; ALLOW with the listener already present issues nothing; ALLOW
      without it runs the open chain, the create and the start, and nothing
      that concerns another group. */
  lemma HealthBlockCalls(st: State, act: Activation)
    ensures var r := HealthBlock(st, act).st;
      var c := act.healthCheck;
      && (c.retval != PpmErrorNone || c.result == CheckDeny ==> r == st)
      && (c.retval == PpmErrorNone && c.result == CheckAsk ==>
            r == Issue(st, [RequestPermission(HealthInfo), RequestPermission(MediaStorage)]))
      && (Allowed(c) && HrmGroup in st.created ==> r == st)
      && (Allowed(c) && HrmGroup !in st.created ==>
            r.trace == st.trace + OpenCalls(Attempted(GroupSensors(HrmGroup), OpenedBy(act.acquire.defaultSensor)))
                                + [CreateListener(HrmGroup), StartListener(HrmGroup)])
      && (Allowed(c) ==> Extends(r, st) && forall call :: call in NewCalls(r, st) ==> Touches(call, HrmGroup))
  {
    AcquireGroupCalls(st, HrmGroup, act.acquire);
    AcquireUnlessCreatedTouches(st, HrmGroup, act.acquire);
  }

  /** The permission gate of the storage block: a check error or DENY issues
      nothing and changes nothing; ASK issues exactly the two permission
      requests; ALLOW with both listeners present issues nothing; ALLOW
      otherwise issues only calls that concern the physics or the environment
      group. */
  lemma StorageBlockCalls(st: State, act: Activation)
    ensures var r := StorageBlock(st, act).st;
      var c := act.storageCheck;
      && (c.retval != PpmErrorNone || c.result == CheckDeny ==> r == st)
      && (c.retval == PpmErrorNone && c.result == CheckAsk ==>
            r == Issue(st, [RequestPermission(HealthInfo), RequestPermission(MediaStorage)]))
      && (Allowed(c) && PhysicsGroup in st.created && EnvironmentGroup in st.created ==> r == st)
      && (Allowed(c) ==>
            && Extends(r, st)
            && forall call :: call in NewCalls(r, st) ==> Touches(call, PhysicsGroup) || Touches(call, EnvironmentGroup))
  {
    if Allowed(act.storageCheck) {
      var physics := AcquireUnlessCreated(st, PhysicsGroup, act.acquire);
      var environment := AcquireUnlessCreated(physics.st, EnvironmentGroup, act.acquire);
      AcquireUnlessCreatedTouches(st, PhysicsGroup, act.acquire);
      AcquireUnlessCreatedTouches(physics.st, EnvironmentGroup, act.acquire);
      ExtendsTrans(st, physics.st, environment.st);
    }
  }

  /** Under ALLOW the storage block runs the physics group's guarded
      sequence and then the environment group's, each skipped exactly when
      its own listener exists before the block. */
  lemma StorageBlockAllowCalls(st: State, act: Activation)
    requires Allowed(act.storageCheck)
    ensures StorageBlock(st, act).st.trace
         == st.trace + GuardedCalls(st, PhysicsGroup, act.acquire) + GuardedCalls(st, EnvironmentGroup, act.acquire)
  {
    var physics := AcquireUnlessCreated(st, PhysicsGroup, act.acquire);
    AcquireUnlessCreatedFrame(st, PhysicsGroup, act.acquire);
    AcquireUnlessCreatedCalls(st, PhysicsGroup, act.acquire);
    AcquireUnlessCreatedCalls(physics.st, EnvironmentGroup, act.acquire);
    assert GuardedCalls(physics.st, EnvironmentGroup, act.acquire) == GuardedCalls(st, EnvironmentGroup, act.acquire);
  }

  /** With no latch set and both privileges allowed, an activation issues
      its two checks and then the HRM, physics and environment guarded
      sequences in that order, each group skipped exactly when its listener
      exists at the start. */
  lemma ActivationAllowCalls(st: State, act: Activation)
    requires !st.hrmLaunched && !st.physicsLaunched && !st.environmentLaunched
    requires Allowed(act.healthCheck) && Allowed(act.storageCheck)
    ensures CheckAndRequestSensorPermission(st, act).st.trace
         == st.trace + [CheckPermission(HealthInfo), CheckPermission(MediaStorage)]
              + GuardedCalls(st, HrmGroup, act.acquire)
              + GuardedCalls(st, PhysicsGroup, act.acquire)
              + GuardedCalls(st, EnvironmentGroup, act.acquire)
  {
    var checked := Issue(st, [CheckPermission(HealthInfo), CheckPermission(MediaStorage)]);
    var health := HealthBlock(checked, act);
    AcquireUnlessCreatedCalls(checked, HrmGroup, act.acquire);
    HealthBlockFrame(checked, act);
    StorageBlockAllowCalls(health.st, act);
    assert GuardedCalls(checked, HrmGroup, act.acquire) == GuardedCalls(st, HrmGroup, act.acquire);
    assert GuardedCalls(health.st, PhysicsGroup, act.acquire) == GuardedCalls(st, PhysicsGroup, act.acquire);
    assert GuardedCalls(health.st, EnvironmentGroup, act.acquire) == GuardedCalls(st, EnvironmentGroup, act.acquire);
  }

  /** With a storage latch set the storage block does not run: the activation
      ends in the state its two checks and the HRM block alone produce. */
  lemma StorageLatchSkipsStorageBlock(st: State, act: Activation)
    requires st.physicsLaunched || st.environmentLaunched
    ensures var checked := Issue(st, [CheckPermission(HealthInfo), CheckPermission(MediaStorage)]);
      CheckAndRequestSensorPermission(st, act).st
        == (if st.hrmLaunched then checked else HealthBlock(checked, act).st)
  {
    var checked := Issue(st, [CheckPermission(HealthInfo), CheckPermission(MediaStorage)]);
    HealthBlockFrame(checked, act);
  }

  /** check_and_request_sensor_permission never sets or clears a latch, and
      keeps the listener invariant. */
  lemma ActivationKeepsLatches(st: State, act: Activation)
    ensures var r := CheckAndRequestSensorPermission(st, act).st;
      && Latches(r) == Latches(st)
      && (Valid(st) ==> Valid(r))
  {
    var checked := Issue(st, [CheckPermission(HealthInfo), CheckPermission(MediaStorage)]);
    HealthBlockFrame(checked, act);
    var health := if !st.hrmLaunched then HealthBlock(checked, act) else Step(checked, true);
    StorageBlockFrame(health.st, act);
  }


  /** Repeated activation: once an activation with both privileges allowed
      and every listener creation succeeding has run, the next allowed
      activation opens, creates and starts nothing; it issues only its two
      checks and reports every group usable. */
  lemma RepeatedActivationAcquiresNothing(st: State, first: Activation, second: Activation)
    requires Allowed(first.healthCheck) && Allowed(first.storageCheck)
    requires Allowed(second.healthCheck) && Allowed(second.storageCheck)
    requires forall g :: first.acquire.createOk(g)
    ensures var after := CheckAndRequestSensorPermission(st, first).st;
      var again := CheckAndRequestSensorPermission(after, second);
      && again.st == Issue(after, [CheckPermission(HealthInfo), CheckPermission(MediaStorage)])
      && again.usable.All()
  {
    var checked := Issue(st, [CheckPermission(HealthInfo), CheckPermission(MediaStorage)]);
    HealthBlockFrame(checked, first);
    var health := if !st.hrmLaunched then HealthBlock(checked, first) else Step(checked, true);
    StorageBlockFrame(health.st, first);
    ActivationKeepsLatches(st, first);
    var after := CheckAndRequestSensorPermission(st, first).st;
    assert !st.hrmLaunched ==> HrmGroup in after.created;
    assert !st.physicsLaunched && !st.environmentLaunched ==>
      PhysicsGroup in after.created && EnvironmentGroup in after.created;
  }

  /** When both checks answer ASK, request_sensor_permission runs twice, so
      each privilege is requested twice; the activation is reported usable
      exactly when both requests were accepted. */
  lemma BothAskRequestsEachPrivilegeTwice(st: State, act: Activation)
    requires !st.hrmLaunched && !st.physicsLaunched && !st.environmentLaunched
    requires act.healthCheck == PermissionCheck(PpmErrorNone, CheckAsk)
    requires act.storageCheck == PermissionCheck(PpmErrorNone, CheckAsk)
    ensures var o := CheckAndRequestSensorPermission(st, act);
      && o.st == Issue(st, [CheckPermission(HealthInfo), CheckPermission(MediaStorage),
                            RequestPermission(HealthInfo), RequestPermission(MediaStorage),
                            RequestPermission(HealthInfo), RequestPermission(MediaStorage)])
      && (o.usable.All() <==> RequestGranted(act.healthAsk.health, act.healthAsk.storage) &&
                               RequestGranted(act.storageAsk.health, act.storageAsk.storage))
  {
  }

  /** The healthinfo callback: an ALLOW_FOREVER answer re-runs the HRM
      sequence without asking whether the listener exists and sets the HRM
      latch whatever that sequence returned; an error, DENY_FOREVER or
      DENY_ONCE changes nothing. */
  lemma HealthResponseEffect(st: State, cause: CallCause, result: RequestResult, a: Acquire)
    ensures var st' := HealthPermissionResponse(st, cause, result, a);
      && (cause == CauseAnswer && result == AllowForever ==>
            && Latches(st') == (true, st.physicsLaunched, st.environmentLaunched)
            && st'.trace == st.trace + OpenCalls(Attempted(GroupSensors(HrmGroup), OpenedBy(a.defaultSensor)))
                                     + [CreateListener(HrmGroup), StartListener(HrmGroup)])
      && (cause == CauseError || result != AllowForever ==> st' == st)
      && (Valid(st) ==> Valid(st'))
  {
    AcquireGroupListener(st, HrmGroup, a);
    AcquireGroupCalls(st, HrmGroup, a);
  }

  /** The mediastorage callback: an ALLOW_FOREVER answer acquires the physics
      group and then the environment group and sets both of their latches
      whatever happened; an error, DENY_FOREVER or DENY_ONCE changes nothing. */
  lemma StorageResponseEffect(st: State, cause: CallCause, result: RequestResult, a: Acquire)
    ensures var st' := StoragePermissionResponse(st, cause, result, a);
      && (cause == CauseAnswer && result == AllowForever ==> Latches(st') == (st.hrmLaunched, true, true))
      && (cause == CauseError || result != AllowForever ==> st' == st)
      && (Valid(st) ==> Valid(st'))
  {
    var physics := AcquireGroup(st, PhysicsGroup, a);
    AcquireGroupListener(st, PhysicsGroup, a);
    AcquireGroupListener(physics.st, EnvironmentGroup, a);
  }

  /** The calls an ALLOW_FOREVER answer to the mediastorage request issues:
      the physics sequence, then the environment sequence, each without asking
      whether the listener already exists. */
  lemma StorageResponseCalls(st: State, a: Acquire)
    ensures StoragePermissionResponse(st, CauseAnswer, AllowForever, a).trace
         == st.trace
            + OpenCalls(Attempted(GroupSensors(PhysicsGroup), OpenedBy(a.defaultSensor)))
            + [CreateListener(PhysicsGroup), StartListener(PhysicsGroup)]
            + OpenCalls(Attempted(GroupSensors(EnvironmentGroup), OpenedBy(a.defaultSensor)))
            + [CreateListener(EnvironmentGroup), StartListener(EnvironmentGroup)]
  {
    var physics := AcquireGroup(st, PhysicsGroup, a);
    AcquireGroupCalls(st, PhysicsGroup, a);
    AcquireGroupCalls(physics.st, EnvironmentGroup, a);
  }

  /** Once both callbacks have answered ALLOW_FOREVER every latch is set, so
      every later activation skips both blocks: it issues only its checks and
      reports every group usable, whether or not the acquisition inside the
      callbacks succeeded and whatever the platform answers now. */
  lemma GrantedConsentEndsAcquisition(
    st: State, health: Acquire, storage: Acquire, act: Activation)
    ensures var granted := StoragePermissionResponse(
                             HealthPermissionResponse(st, CauseAnswer, AllowForever, health),
                             CauseAnswer, AllowForever, storage);
      var o := CheckAndRequestSensorPermission(granted, act);
      && o.st == Issue(granted, [CheckPermission(HealthInfo), CheckPermission(MediaStorage)])
      && o.usable.All()
  {
    var mid := HealthPermissionResponse(st, CauseAnswer, AllowForever, health);
    AcquireGroupListener(st, HrmGroup, health);
    var physics := AcquireGroup(mid, PhysicsGroup, storage);
    AcquireGroupListener(mid, PhysicsGroup, storage);
    AcquireGroupListener(physics.st, EnvironmentGroup, storage);
  }

  /** The DestroyListener calls of a teardown: one per created listener, in
      teardown order. */
  function DestroyCalls(order: seq<Group>, created: set<Group>): seq<Call>
  {
    if order == [] then []
    else (if order[0] in created then [DestroyListener(order[0])] else []) + DestroyCalls(order[1..], created)
  }

  /** The teardown calls are destroy calls, one for each group that is both
      visited and created, and none for any other group. */
  lemma {:induction false} DestroyCallsContent(order: seq<Group>, created: set<Group>)
    ensures forall g :: DestroyListener(g) in DestroyCalls(order, created) <==> g in order && g in created
    ensures forall c :: c in DestroyCalls(order, created) ==> c.DestroyListener?
  {
    if order != [] {
      DestroyCallsContent(order[1..], created);
      forall g | g in order
        ensures g == order[0] || g in order[1..]
      {
        var i :| 0 <= i < |order| && order[i] == g;
        if i > 0 { assert order[1..][i - 1] == g; }
      }
    }
  }

  /** One guarded destroy: the call is issued only for a listener that
      exists; only that group's listener state changes. */
  lemma DestroyIfCreatedEffect(st: State, g: Group, destroyOk: Group -> bool)
    ensures var r := DestroyIfCreated(st, g, destroyOk);
      && r.trace == st.trace + (if g in st.created then [DestroyListener(g)] else [])
      && OthersUnchanged(r, st, g)
      && (g in st.created && destroyOk(g) ==> g !in r.created && g !in r.started)
      && (!(g in st.created && destroyOk(g)) ==> (g in r.created <==> g in st.created) && (g in r.started <==> g in st.started))
      && Latches(r) == Latches(st) && r.handles == st.handles
  {
  }

  /** app_terminate destroys exactly the listeners that exist, in HRM,
      physics, environment order; a listener that was never created is left
      alone; a destroyed one is gone, one whose destroy failed stays; latches
      and handles are untouched. */
  lemma TerminateEffect(st: State, destroyOk: Group -> bool)
    ensures var st' := Terminate(st, destroyOk);
      && st'.trace == st.trace + DestroyCalls(TeardownOrder, st.created)
      && (forall g :: g !in st.created ==> g !in st'.created && (g in st'.started <==> g in st.started))
      && (forall g :: g in st.created && destroyOk(g) ==> g !in st'.created && g !in st'.started)
      && (forall g :: g in st.created && !destroyOk(g) ==> g in st'.created && (g in st'.started <==> g in st.started))
      && Latches(st') == Latches(st) && st'.handles == st.handles
      && (Valid(st) ==> Valid(st'))
  {
    var hrm := DestroyIfCreated(st, HrmGroup, destroyOk);
    var physics := DestroyIfCreated(hrm, PhysicsGroup, destroyOk);
    DestroyIfCreatedEffect(st, HrmGroup, destroyOk);
    DestroyIfCreatedEffect(hrm, PhysicsGroup, destroyOk);
    DestroyIfCreatedEffect(physics, EnvironmentGroup, destroyOk);
    var one := (if HrmGroup in st.created then [DestroyListener(HrmGroup)] else []);
    var two := (if PhysicsGroup in st.created then [DestroyListener(PhysicsGroup)] else []);
    var three := (if EnvironmentGroup in st.created then [DestroyListener(EnvironmentGroup)] else []);
    assert TeardownOrder[1..][1..][1..] == [];
    assert DestroyCalls([EnvironmentGroup], st.created) == three + [];
    assert DestroyCalls(TeardownOrder, st.created) == one + (two + (three + []));
  }
}
