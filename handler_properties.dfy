/** What one or several invocations of the handler promise, proved about the
    decision `Decide` and its effect `Apply`; `LambdaHandler` is proved to
    behave as they say. */
module HandlerProperties {
  import opened Common
  import opened IntParse
  import opened Handler

  /** `os.environ[key]` is present and `int` reads it as `n`. */
  predicate EnvHolds(environ: map<string, string>, key: string, n: int) {
    key in environ && ParseInt(environ[key]) == Some(n)
  }

  // ---------------------------------------------------------------------
  // Dispatch on the action

  /** Only the exact strings "scale_down" and "scale_up" select an action; a
      missing key, a value that is not a string, and every other spelling
      do not. */
  lemma ActionMatchingIsExact(event: Event)
    ensures ActionOf(event) != NoAction <==>
              "action" in event && (event["action"] == Str("scale_down") || event["action"] == Str("scale_up"))
    ensures ActionOf(map[]) == NoAction
    ensures ActionOf(map["action" := Null]) == NoAction
    ensures ActionOf(map["action" := Other]) == NoAction
    ensures ActionOf(map["action" := Str("Scale_Down")]) == NoAction
    ensures ActionOf(map["action" := Str("scale_down ")]) == NoAction
    ensures ActionOf(map["action" := Str("scale_down")]) == ScaleDown
    ensures ActionOf(map["action" := Str("scale_up")]) == ScaleUp
  {
  }

  /** "no action" is returned exactly when the action is unknown, and then no
      call is issued and nothing changes. */
  lemma UnknownActionIsInert(event: Event, cfg: Config, before: Cloud)
    ensures var d := Decide(event, cfg, before.faults);
            d.outcome == Status("no action") <==> ActionOf(event) == NoAction
    ensures var d := Decide(event, cfg, before.faults);
            ActionOf(event) == NoAction ==> d.calls == [] && Apply(before, d) == before
  {
  }

  // ---------------------------------------------------------------------
  // The two targets

  /** "scale_down" sets the configured group to 0/0/0 and then the configured
      service to 0, and returns "scaled down"; nothing else changes. */
  lemma ScaleDownSetsZeroTarget(event: Event, cfg: Config, before: Cloud)
    requires ActionOf(event) == ScaleDown
    requires !before.faults.autoScalingFails && !before.faults.ecsFails
    ensures var d := Decide(event, cfg, before.faults);
            d == Decision(Status("scaled down"),
                          [UpdateGroup(cfg.asgName, Group(0, 0, 0)), UpdateService(ServiceOf(cfg), 0)], 2)
    ensures var after := Apply(before, Decide(event, cfg, before.faults));
            after.groups == before.groups[cfg.asgName := Group(0, 0, 0)] &&
            after.services == before.services[ServiceOf(cfg) := 0]
  {
    var d := Decide(event, cfg, before.faults);
    ReplayShort(before, d.calls, d.applied);
  }

  /** "scale_up" sets the configured group to the configured min, desired and
      max, then the configured service to the configured count, and returns
      "scaled up"; nothing else changes. */
  lemma ScaleUpSetsConfiguredTarget(event: Event, cfg: Config, before: Cloud,
                                    minSize: int, desired: int, maxSize: int, count: int)
    requires ActionOf(event) == ScaleUp
    requires !before.faults.autoScalingFails && !before.faults.ecsFails
    requires EnvHolds(cfg.environ, MinSizeKey, minSize) && EnvHolds(cfg.environ, DesiredKey, desired)
    requires EnvHolds(cfg.environ, MaxSizeKey, maxSize) && EnvHolds(cfg.environ, EcsCountKey, count)
    ensures var d := Decide(event, cfg, before.faults);
            d == Decision(Status("scaled up"),
                          [UpdateGroup(cfg.asgName, Group(minSize, desired, maxSize)),
                           UpdateService(ServiceOf(cfg), count)], 2)
    ensures var after := Apply(before, Decide(event, cfg, before.faults));
            after.groups == before.groups[cfg.asgName := Group(minSize, desired, maxSize)] &&
            after.services == before.services[ServiceOf(cfg) := count]
  {
    var d := Decide(event, cfg, before.faults);
    ReplayShort(before, d.calls, d.applied);
  }

  /** The scale-up sizes are applied as configured, without any check that
      min <= desired <= max or that they are not negative. */
  lemma ScaleUpAppliesUnvalidatedSizes(cfg: Config)
    requires cfg.environ == map[MinSizeKey := "5", DesiredKey := "2", MaxSizeKey := "4", EcsCountKey := "-1"]
    ensures Decide(map["action" := Str("scale_up")], cfg, Faults(false, false)) ==
              Decision(Status("scaled up"),
                       [UpdateGroup(cfg.asgName, Group(5, 2, 4)), UpdateService(ServiceOf(cfg), -1)], 2)
  {
  }

  // ---------------------------------------------------------------------
  // Order of the calls and of the evaluation

  /** At most one call per resource, the group's first; the log grows by
      exactly the calls issued. */
  lemma GroupBeforeService(event: Event, cfg: Config, before: Cloud)
    ensures var d := Decide(event, cfg, before.faults);
            forall i, j :: 0 <= i < j < |d.calls| ==>
              ClientOf(d.calls[i]) == AutoScaling && ClientOf(d.calls[j]) == Ecs
    ensures var d := Decide(event, cfg, before.faults);
            Apply(before, d).log == before.log + d.calls
  {
  }

  /** When the group update fails, the service update is never issued,
      nothing changes and an exception escapes instead of a status. */
  lemma GroupFailureStopsInvocation(event: Event, cfg: Config, before: Cloud)
    requires ActionOf(event) != NoAction
    requires before.faults.autoScalingFails
    ensures var d := Decide(event, cfg, before.faults);
            d.outcome.Raised? && d.applied == 0 && |d.calls| <= 1 &&
            (|d.calls| == 1 ==> d.outcome == Raised(ClientError(AutoScaling)))
    ensures var after := Apply(before, Decide(event, cfg, before.faults));
            after.groups == before.groups && after.services == before.services
  {
  }

  /** When the service update fails after the group update, the group stays
      updated: there is no rollback, and the error escapes. */
  lemma ServiceFailureLeavesGroupUpdated(event: Event, cfg: Config, before: Cloud)
    requires ActionOf(event) == ScaleDown
    requires !before.faults.autoScalingFails && before.faults.ecsFails
    ensures Decide(event, cfg, before.faults).outcome == Raised(ClientError(Ecs))
    ensures var after := Apply(before, Decide(event, cfg, before.faults));
            after.groups == before.groups[cfg.asgName := Group(0, 0, 0)] &&
            after.services == before.services &&
            after.log == before.log + [UpdateGroup(cfg.asgName, Group(0, 0, 0)), UpdateService(ServiceOf(cfg), 0)]
  {
    var d := Decide(event, cfg, before.faults);
    ReplayShort(before, d.calls, d.applied);
  }

  /** The same for "scale_up": when the service update fails after the group
      update, the group keeps its configured sizes and the ECS error escapes. */
  lemma ScaleUpServiceFailureLeavesGroupUpdated(event: Event, cfg: Config, before: Cloud, size: Group)
    requires ActionOf(event) == ScaleUp
    requires ScaleUpGroup(cfg.environ) == Success(size)
    requires EnvInt(cfg.environ, EcsCountKey).Success?
    requires !before.faults.autoScalingFails && before.faults.ecsFails
    ensures Decide(event, cfg, before.faults).outcome == Raised(ClientError(Ecs))
    ensures var after := Apply(before, Decide(event, cfg, before.faults));
            after.groups == before.groups[cfg.asgName := size] &&
            after.services == before.services &&
            after.log == before.log + [UpdateGroup(cfg.asgName, size),
                                       UpdateService(ServiceOf(cfg), EnvInt(cfg.environ, EcsCountKey).value)]
  {
    var d := Decide(event, cfg, before.faults);
    ReplayShort(before, d.calls, d.applied);
  }

  /** The group sizes are read in argument order, min, desired, max; the first
      one missing (KeyError) or unreadable (ValueError) is the error. */
  lemma ScaleUpGroupFirstError(environ: map<string, string>)
    ensures ScaleUpGroup(environ).Success? <==>
              (exists a, b, c :: EnvHolds(environ, MinSizeKey, a) && EnvHolds(environ, DesiredKey, b) &&
                                 EnvHolds(environ, MaxSizeKey, c))
    ensures MinSizeKey !in environ ==> ScaleUpGroup(environ) == Failure(KeyError(MinSizeKey))
    ensures MinSizeKey in environ && ParseInt(environ[MinSizeKey]).None? ==>
              ScaleUpGroup(environ) == Failure(ValueError(environ[MinSizeKey]))
    ensures (exists a :: EnvHolds(environ, MinSizeKey, a)) && DesiredKey !in environ ==>
              ScaleUpGroup(environ) == Failure(KeyError(DesiredKey))
    ensures (exists a, b :: EnvHolds(environ, MinSizeKey, a) && EnvHolds(environ, DesiredKey, b)) &&
            MaxSizeKey !in environ ==>
              ScaleUpGroup(environ) == Failure(KeyError(MaxSizeKey))
    ensures (exists a :: EnvHolds(environ, MinSizeKey, a)) &&
            DesiredKey in environ && ParseInt(environ[DesiredKey]).None? ==>
              ScaleUpGroup(environ) == Failure(ValueError(environ[DesiredKey]))
    ensures (exists a, b :: EnvHolds(environ, MinSizeKey, a) && EnvHolds(environ, DesiredKey, b)) &&
            MaxSizeKey in environ && ParseInt(environ[MaxSizeKey]).None? ==>
              ScaleUpGroup(environ) == Failure(ValueError(environ[MaxSizeKey]))
  {
    if ScaleUpGroup(environ).Success? {
      var g := ScaleUpGroup(environ).value;
      assert EnvHolds(environ, MinSizeKey, g.minSize);
      assert EnvHolds(environ, DesiredKey, g.desired);
      assert EnvHolds(environ, MaxSizeKey, g.maxSize);
    }
  }

  /** A missing or unreadable group size is raised before any call is issued. */
  lemma GroupSizesParsedBeforeAnyCall(event: Event, cfg: Config, before: Cloud)
    requires ActionOf(event) == ScaleUp
    requires ScaleUpGroup(cfg.environ).Failure?
    ensures var d := Decide(event, cfg, before.faults);
            d == Decision(Raised(ScaleUpGroup(cfg.environ).error), [], 0) && Apply(before, d) == before
  {
  }

  /** The service count is read only after the group update returned: a
      missing or unreadable count leaves the group updated and the service
      untouched. */
  lemma LateCountErrorLeavesGroupUpdated(event: Event, cfg: Config, before: Cloud, size: Group)
    requires ActionOf(event) == ScaleUp
    requires ScaleUpGroup(cfg.environ) == Success(size)
    requires !before.faults.autoScalingFails
    requires EnvInt(cfg.environ, EcsCountKey).Failure?
    ensures var d := Decide(event, cfg, before.faults);
            d == Decision(Raised(EnvInt(cfg.environ, EcsCountKey).error), [UpdateGroup(cfg.asgName, size)], 1)
    ensures var after := Apply(before, Decide(event, cfg, before.faults));
            after.groups == before.groups[cfg.asgName := size] && after.services == before.services
  {
    var d := Decide(event, cfg, before.faults);
    ReplayShort(before, d.calls, d.applied);
  }

  // ---------------------------------------------------------------------
  // Absolute assignment and idempotence

  /** The last size each call sequence gives each group. */
  function GroupWrites(calls: seq<Call>): map<string, Group>
    decreases |calls|
  {
    if calls == [] then map[]
    else
      var last := calls[|calls| - 1];
      var earlier := GroupWrites(calls[..|calls| - 1]);
      if last.UpdateGroup? then earlier[last.groupName := last.size] else earlier
  }

  /** The last count each call sequence gives each service. */
  function ServiceWrites(calls: seq<Call>): map<ServiceRef, int>
    decreases |calls|
  {
    if calls == [] then map[]
    else
      var last := calls[|calls| - 1];
      var earlier := ServiceWrites(calls[..|calls| - 1]);
      if last.UpdateService? then earlier[last.target := last.desiredCount] else earlier
  }

  /** Replaying calls overrides the resources with their last writes and leaves
      everything else as it was: the calls never read the current sizes. */
  lemma {:induction false} ReplayOverrides(c: Cloud, calls: seq<Call>)
    ensures Replay(c, calls) == c.(groups := c.groups + GroupWrites(calls),
                                   services := c.services + ServiceWrites(calls))
    decreases |calls|
  {
    if calls == [] {
      assert c.groups + map[] == c.groups;
      assert c.services + map[] == c.services;
    } else {
      var init := calls[..|calls| - 1];
      ReplayOverrides(c, init);
      var last := calls[|calls| - 1];
      match last
      case UpdateGroup(name, size) =>
        assert (c.groups + GroupWrites(init))[name := size] == c.groups + GroupWrites(init)[name := size];
      case UpdateService(target, count) =>
        assert (c.services + ServiceWrites(init))[target := count] == c.services + ServiceWrites(init)[target := count];
    }
  }

  /** The decision does not read the current sizes (`Decide` takes no
      `Cloud`), so for two clouds that fail alike, whatever it writes ends up
      the same in both, whatever the sizes were before. */
  lemma TargetsIgnoreCurrentSizes(event: Event, cfg: Config, c1: Cloud, c2: Cloud)
    requires c1.faults == c2.faults
    ensures var d := Decide(event, cfg, c1.faults);
            var a1, a2 := Apply(c1, d), Apply(c2, d);
            (forall name :: name in GroupWrites(d.calls[..d.applied]) ==>
               name in a1.groups && name in a2.groups && a1.groups[name] == a2.groups[name]) &&
            (forall target :: target in ServiceWrites(d.calls[..d.applied]) ==>
               target in a1.services && target in a2.services && a1.services[target] == a2.services[target])
  {
    var d := Decide(event, cfg, c1.faults);
    ReplayOverrides(c1, d.calls[..d.applied]);
    ReplayOverrides(c2, d.calls[..d.applied]);
  }

  /** Invoking the same action twice leaves both resources as invoking it
      once does, with the same outcome; only the log records the second
      round of calls. */
  lemma InvocationIsIdempotent(event: Event, cfg: Config, before: Cloud)
    ensures var d := Decide(event, cfg, before.faults);
            var once := Apply(before, d);
            var twice := Apply(once, Decide(event, cfg, once.faults));
            Decide(event, cfg, once.faults) == d &&
            twice.groups == once.groups && twice.services == once.services &&
            twice.log == once.log + d.calls
  {
    var d := Decide(event, cfg, before.faults);
    var once := Apply(before, d);
    var applied := d.calls[..d.applied];
    ReplayOverrides(before, applied);
    ReplayOverrides(once, applied);
    var gw, sw := GroupWrites(applied), ServiceWrites(applied);
    assert before.groups + gw + gw == before.groups + gw;
    assert before.services + sw + sw == before.services + sw;
  }

  /** The resources after `k` invocations of the same action. */
  function Repeat(event: Event, cfg: Config, c: Cloud, k: nat): (r: Cloud)
    ensures r.faults == c.faults
  {
    if k == 0 then c
    else
      var previous := Repeat(event, cfg, c, k - 1);
      Apply(previous, Decide(event, cfg, previous.faults))
  }

  /** Any number of repetitions of an action converge after the first. */
  lemma {:induction false} RepeatConverges(event: Event, cfg: Config, c: Cloud, k: nat)
    requires k >= 1
    ensures var once := Repeat(event, cfg, c, 1);
            var r := Repeat(event, cfg, c, k);
            r.groups == once.groups && r.services == once.services
  {
    if k > 1 {
      RepeatConverges(event, cfg, c, k - 1);
      var previous := Repeat(event, cfg, c, k - 1);
      var once := Repeat(event, cfg, c, 1);
      assert once == Apply(c, Decide(event, cfg, c.faults));
      InvocationIsIdempotent(event, cfg, c);
      var d := Decide(event, cfg, c.faults);
      ReplayOverrides(previous, d.calls[..d.applied]);
      ReplayOverrides(once, d.calls[..d.applied]);
    }
  }

  // ---------------------------------------------------------------------
  // The handler itself

  /** An invocation against concrete resources: "scale_down" ends with the
      configured group at 0/0/0 and the configured service at 0, and a
      following "Scale_Down" is no action and leaves them there. */
  method ScaleDownThenUnknown(cfg: Config) returns (first: Outcome, second: Outcome, aws: Aws)
    ensures first == Status("scaled down") && second == Status("no action")
    ensures cfg.asgName in aws.groups && aws.groups[cfg.asgName] == Group(0, 0, 0)
    ensures ServiceOf(cfg) in aws.services && aws.services[ServiceOf(cfg)] == 0
  {
    var start := Cloud(map[cfg.asgName := Group(1, 2, 4)], map[ServiceOf(cfg) := 2], [], Faults(false, false));
    aws := new Aws(start.groups, start.services, start.faults);
    first := LambdaHandler(map["action" := Str("scale_down")], cfg, aws);
    ScaleDownSetsZeroTarget(map["action" := Str("scale_down")], cfg, start);
    second := LambdaHandler(map["action" := Str("Scale_Down")], cfg, aws);
  }
}
