/** The capacity switch of the autoscaling scheduler: one invocation reads the
    event's `action`, and for "scale_down" or "scale_up" updates the auto
    scaling group and then the ECS service to absolute target sizes.

    The decision is specified by the pure function `Decide` (what the
    invocation returns, which calls it issues, how many of them take effect)
    and `Apply` (what that does to the resources). `LambdaHandler` is the
    handler itself, step by step, over the mutable `Aws` object. */
module Handler {
  import opened Common
  import opened IntParse

  // ---------------------------------------------------------------------
  // The invocation event

  /** A value found in the event. The handler only compares it with two
      string literals, so every value that is not a string is `Other`;
      `Null` is what `event.get` yields for a missing key. */
  datatype Value = Str(text: string) | Null | Other

  type Event = map<string, Value>

  datatype Action = ScaleDown | ScaleUp | NoAction

  /** `event.get(key)`. */
  function Get(event: Event, key: string): Value {
    if key in event then event[key] else Null
  }

  /** Exact equality with the two literals; anything else is no action. */
  function ActionOf(event: Event): Action {
    var action := Get(event, "action");
    if action == Str("scale_down") then ScaleDown
    else if action == Str("scale_up") then ScaleUp
    else NoAction
  }

  /** The status the handler returns when the action completes. */
  function StatusText(a: Action): string {
    match a
    case ScaleDown => "scaled down"
    case ScaleUp => "scaled up"
    case NoAction => "no action"
  }

  // ---------------------------------------------------------------------
  // Configuration: the process environment

  /** `asgName`, `ecsCluster` and `ecsService` are read once when the module
      loads; the four scale-up numbers are looked up in `environ` and parsed
      with `int` only while a "scale_up" request is being handled. */
  datatype Config = Config(asgName: string, ecsCluster: string, ecsService: string,
                           environ: map<string, string>)

  const MinSizeKey: string := "SCALE_UP_MIN_SIZE"
  const DesiredKey: string := "SCALE_UP_DESIRED"
  const MaxSizeKey: string := "SCALE_UP_MAX_SIZE"
  const EcsCountKey: string := "SCALE_UP_ECS_COUNT"

  // ---------------------------------------------------------------------
  // Outcomes and errors

  datatype Client = AutoScaling | Ecs

  /** The exceptions that escape the handler: a missing environment variable,
      a value `int` refuses, and a failed call of one of the two clients. */
  datatype Error = KeyError(key: string) | ValueError(literal: string) | ClientError(client: Client)

  /** What an invocation ends with: the returned `{"status": ...}` or a raised exception. */
  datatype Outcome = Status(status: string) | Raised(error: Error)

  /** `int(os.environ[key])`. */
  function EnvInt(environ: map<string, string>, key: string): Result<int, Error> {
    if key !in environ then Failure(KeyError(key))
    else match ParseInt(environ[key])
      case Some(n) => Success(n)
      case None => Failure(ValueError(environ[key]))
  }

  // ---------------------------------------------------------------------
  // The two resources and the calls that update them

  datatype Group = Group(minSize: int, desired: int, maxSize: int)

  datatype ServiceRef = ServiceRef(cluster: string, service: string)

  datatype Call =
    | UpdateGroup(groupName: string, size: Group)
    | UpdateService(target: ServiceRef, desiredCount: int)

  function ClientOf(call: Call): Client {
    if call.UpdateGroup? then AutoScaling else Ecs
  }

  /** Which client's calls fail (throttling, permissions, a missing resource):
      the code cannot see why, only that the call raises. */
  datatype Faults = Faults(autoScalingFails: bool, ecsFails: bool)

  predicate Fails(faults: Faults, client: Client) {
    match client
    case AutoScaling => faults.autoScalingFails
    case Ecs => faults.ecsFails
  }

  /** The sizes of every group and service, the calls issued so far, and the faults. */
  datatype Cloud = Cloud(groups: map<string, Group>, services: map<ServiceRef, int>,
                         log: seq<Call>, faults: Faults)

  /** The effect of one successful call: an absolute assignment. */
  function Write(c: Cloud, call: Call): Cloud {
    match call
    case UpdateGroup(name, size) => c.(groups := c.groups[name := size])
    case UpdateService(target, count) => c.(services := c.services[target := count])
  }

  /** The effect of the successful calls, in order; they change only sizes. */
  function Replay(c: Cloud, calls: seq<Call>): (r: Cloud)
    ensures r.log == c.log && r.faults == c.faults
    decreases |calls|
  {
    if calls == [] then c else Write(Replay(c, calls[..|calls| - 1]), calls[|calls| - 1])
  }

  /** Replay of at most two calls, written out. */
  lemma ReplayShort(c: Cloud, calls: seq<Call>, n: nat)
    requires n <= |calls| <= 2
    ensures Replay(c, calls[..n]) ==
              if n == 0 then c
              else if n == 1 then Write(c, calls[0])
              else Write(Write(c, calls[0]), calls[1])
  {
    if n >= 1 {
      assert calls[..1][..0] == [];
      assert Replay(c, calls[..1]) == Write(c, calls[0]);
    }
    if n == 2 {
      assert calls[..2][..1] == calls[..1];
    }
  }

  function ServiceOf(cfg: Config): ServiceRef {
    ServiceRef(cfg.ecsCluster, cfg.ecsService)
  }

  // ---------------------------------------------------------------------
  // The decision

  /** One invocation: its outcome, the calls it issued in order, and how many
      of them (a prefix) took effect. */
  datatype Decision = Decision(outcome: Outcome, calls: seq<Call>, applied: nat)

  /** The resources after an invocation: the effective calls replayed over the
      resources as they were, and every issued call appended to the log. */
  function Apply(before: Cloud, d: Decision): Cloud
    requires d.applied <= |d.calls|
  {
    Replay(before, d.calls[..d.applied]).(log := before.log + d.calls)
  }

  /** The group sizes of a "scale_up": min, desired and max, each looked up
      and parsed in the order the call's arguments are evaluated. */
  function ScaleUpGroup(environ: map<string, string>): Result<Group, Error> {
    var minSize :- EnvInt(environ, MinSizeKey);
    var desired :- EnvInt(environ, DesiredKey);
    var maxSize :- EnvInt(environ, MaxSizeKey);
    Success(Group(minSize, desired, maxSize))
  }

  /** The common shape of both branches: the group call (only if its arguments
      evaluated), then the service count (evaluated only after the group call
      returned), then the service call, then the status. */
  function Dispatch(cfg: Config, faults: Faults, group: Result<Group, Error>,
                    count: Result<int, Error>, status: string): Decision
  {
    match group
    case Failure(e) => Decision(Raised(e), [], 0)
    case Success(size) =>
      var groupCall := UpdateGroup(cfg.asgName, size);
      if faults.autoScalingFails then Decision(Raised(ClientError(AutoScaling)), [groupCall], 0)
      else match count
        case Failure(e) => Decision(Raised(e), [groupCall], 1)
        case Success(n) =>
          var serviceCall := UpdateService(ServiceOf(cfg), n);
          if faults.ecsFails then Decision(Raised(ClientError(Ecs)), [groupCall, serviceCall], 1)
          else Decision(Status(status), [groupCall, serviceCall], 2)
  }

  /** What `lambda_handler(event, context)` decides. At most two calls are
      issued, the group's before the service's, each to the configured
      resource; a call that fails is the last one issued and its client's
      error is what escapes; a returned status belongs to the action and means
      every issued call took effect. */
  function Decide(event: Event, cfg: Config, faults: Faults): (d: Decision)
    ensures d.applied <= |d.calls| <= 2
    ensures |d.calls| >= 1 ==> d.calls[0].UpdateGroup? && d.calls[0].groupName == cfg.asgName
    ensures |d.calls| == 2 ==> d.calls[1].UpdateService? && d.calls[1].target == ServiceOf(cfg)
    ensures d.applied < |d.calls| ==>
              d.applied == |d.calls| - 1 && Fails(faults, ClientOf(d.calls[d.applied])) &&
              d.outcome == Raised(ClientError(ClientOf(d.calls[d.applied])))
    ensures d.outcome.Status? ==> d.applied == |d.calls| && d.outcome.status == StatusText(ActionOf(event))
    ensures d.outcome.Status? <==> ActionOf(event) == NoAction || (|d.calls| == 2 && d.applied == 2)
  {
    match ActionOf(event)
    case ScaleDown =>
      Dispatch(cfg, faults, Success(Group(0, 0, 0)), Success(0), "scaled down")
    case ScaleUp =>
      Dispatch(cfg, faults, ScaleUpGroup(cfg.environ), EnvInt(cfg.environ, EcsCountKey), "scaled up")
    case NoAction =>
      Decision(Status("no action"), [], 0)
  }

  // ---------------------------------------------------------------------
  // The handler over mutable resources

  /** The two boto3 clients `asg` and `ecs` together with the resources they
      manage; `log` records every call issued, in order, whether or not it
      succeeded. */
  class Aws {
    var groups: map<string, Group>
    var services: map<ServiceRef, int>
    var log: seq<Call>
    const faults: Faults

    function Snapshot(): Cloud
      reads this
    {
      Cloud(groups, services, log, faults)
    }

    constructor (groups: map<string, Group>, services: map<ServiceRef, int>, faults: Faults)
      ensures Snapshot() == Cloud(groups, services, [], faults)
    {
      this.groups := groups;
      this.services := services;
      this.log := [];
      this.faults := faults;
    }

    /** `asg.update_auto_scaling_group(...)`: returns false where the call raises. */
    method UpdateAutoScalingGroup(name: string, minSize: int, desired: int, maxSize: int) returns (ok: bool)
      modifies this
      ensures ok == !faults.autoScalingFails
      ensures log == old(log) + [UpdateGroup(name, Group(minSize, desired, maxSize))]
      ensures groups == if ok then old(groups)[name := Group(minSize, desired, maxSize)] else old(groups)
      ensures services == old(services)
    {
      log := log + [UpdateGroup(name, Group(minSize, desired, maxSize))];
      ok := !faults.autoScalingFails;
      if ok {
        groups := groups[name := Group(minSize, desired, maxSize)];
      }
    }

    /** `ecs.update_service(...)`: returns false where the call raises. */
    method UpdateService(cluster: string, service: string, desiredCount: int) returns (ok: bool)
      modifies this
      ensures ok == !faults.ecsFails
      ensures log == old(log) + [Call.UpdateService(ServiceRef(cluster, service), desiredCount)]
      ensures services == if ok then old(services)[ServiceRef(cluster, service) := desiredCount] else old(services)
      ensures groups == old(groups)
    {
      log := log + [Call.UpdateService(ServiceRef(cluster, service), desiredCount)];
      ok := !faults.ecsFails;
      if ok {
        services := services[ServiceRef(cluster, service) := desiredCount];
      }
    }
  }

  /** `lambda_handler(event, context)`, in the source's order of evaluation.
      No exception is caught: the first failure ends the invocation. */
  method LambdaHandler(event: Event, cfg: Config, aws: Aws) returns (out: Outcome)
    modifies aws
    ensures var d := Decide(event, cfg, aws.faults);
            out == d.outcome && aws.Snapshot() == Apply(old(aws.Snapshot()), d)
  {
    ghost var d := Decide(event, cfg, aws.faults);
    ReplayShort(aws.Snapshot(), d.calls, d.applied);
    var action := Get(event, "action");
    if action == Str("scale_down") {
      var ok := aws.UpdateAutoScalingGroup(cfg.asgName, 0, 0, 0);
      if !ok {
        return Raised(ClientError(AutoScaling));
      }
      ok := aws.UpdateService(cfg.ecsCluster, cfg.ecsService, 0);
      if !ok {
        return Raised(ClientError(Ecs));
      }
      return Status("scaled down");
    } else if action == Str("scale_up") {
      var minSize := EnvInt(cfg.environ, MinSizeKey);
      if minSize.Failure? {
        return Raised(minSize.error);
      }
      var desired := EnvInt(cfg.environ, DesiredKey);
      if desired.Failure? {
        return Raised(desired.error);
      }
      var maxSize := EnvInt(cfg.environ, MaxSizeKey);
      if maxSize.Failure? {
        return Raised(maxSize.error);
      }
      var ok := aws.UpdateAutoScalingGroup(cfg.asgName, minSize.value, desired.value, maxSize.value);
      if !ok {
        return Raised(ClientError(AutoScaling));
      }
      var count := EnvInt(cfg.environ, EcsCountKey);
      if count.Failure? {
        return Raised(count.error);
      }
      ok := aws.UpdateService(cfg.ecsCluster, cfg.ecsService, count.value);
      if !ok {
        return Raised(ClientError(Ecs));
      }
      return Status("scaled up");
    } else {
      return Status("no action");
    }
  }
}
