# Autoscaling scheduler: the capacity switch

This project models the Lambda handler of the autoscaling scheduler
(`modules/autoscaling_scheduler/lambda/handler.py`). The handler receives an
event whose `"action"` is `"scale_down"` or `"scale_up"`. It sets the
configured EC2 auto scaling group to absolute sizes (min, desired, max) and
then sets the configured ECS service's `desiredCount`. It returns
`{"status": ...}`. Any other action returns `"no action"` and touches nothing.

Modules:

- `Common` (`common.dfy`): `Option` and a `Result` usable with `:-`, which
  stands for a Python exception propagating.
- `IntParse` (`int_parse.dfy`): `ParseInt`, the partial `int(text)` the
  handler applies to the scale-up environment variables.
- `Handler` (`handler.dfy`):
  - the event, the configuration, the calls and the resources;
  - the decision `Decide(event, cfg, faults)`: the outcome, the calls issued
    in order, and how many of them took effect;
  - its effect on the resources, `Apply`;
  - the class `Aws`, holding the two clients, the groups and services they
    manage, and a log of issued calls;
  - the method `LambdaHandler`. It follows the source line by line and is
    proved to do what `Decide` and `Apply` say.
- `HandlerProperties` (`handler_properties.dfy`): lemmas about one or several
  invocations. They cover exact action matching, the inert unknown action,
  the zero and configured targets, call order, evaluation order, failure
  without rollback, absolute assignment and idempotence.

The environment becomes a `Config`. Its three identifiers are read once
when the module loads (lines 7-9). A map `environ` holds what the scale-up
branch reads at call time. Whether a client call fails is a `Faults` value
fixed for each `Aws` object. A failing call is still logged, because it was
issued, but it has no effect. It ends the invocation with
`Raised(ClientError(client))`.

## Behaviour worth noting

Three behaviours of the code that the model keeps:

- No scale-up validation. The code does not validate the scale-up sizes.
  It checks neither `min <= desired <= max` nor non-negativity, and raises
  no configuration error of its own. The
  configured values are applied as they are (`ScaleUpAppliesUnvalidatedSizes`).
- Late service count. `SCALE_UP_ECS_COUNT` is read only after the group
  update has returned. A missing or unreadable count therefore raises after
  the group has been resized (`LateCountErrorLeavesGroupUpdated`). It is not
  caught before any call is made.
- No wrapping of errors. Failures escape as Python raises them: `KeyError`,
  `ValueError`, or the client's own exception. They are not wrapped into
  dedicated error kinds.

## Model

| member | source | states |
|---|---|---|
| IntParse.ParseInt | modules/autoscaling_scheduler/lambda/handler.py:31-38 | `int(text)` is partial. A parsed value needs a non-empty text. It is at most 0 when the text starts with `-`, and at least 0 otherwise. Its magnitude is bounded by the numeral's length. |
| IntParse.ParseShow | modules/autoscaling_scheduler/lambda/handler.py:31-38 | Every integer, negative ones included, written as a decimal numeral is read back by the modelled `int` as itself. The model has no limit on the number of digits. |
| IntParse.ParseIntRefuses | modules/autoscaling_scheduler/lambda/handler.py:31-38 | `int` refuses the empty text, a lone sign, a fraction and a word (the ValueError cases). |
| Handler.Decide | modules/autoscaling_scheduler/lambda/handler.py:11-43 | At most two calls are issued: first the group update of `ASG_NAME`, then the service update of `ECS_SERVICE` in `ECS_CLUSTER`. A failing call is the last one issued and its client's error escapes. A returned status is the action's own, and it means every issued call took effect. "no action" is returned exactly for the unknown action. |
| Handler.Aws.constructor | modules/autoscaling_scheduler/lambda/handler.py:4-5 | The clients start with the given groups, services and faults, and an empty call log. |
| Handler.Aws.UpdateAutoScalingGroup | modules/autoscaling_scheduler/lambda/handler.py:15-20 | Logs the call. It succeeds exactly when the auto scaling client does not fail, and then assigns the named group's sizes. Services are untouched. |
| Handler.Aws.UpdateService | modules/autoscaling_scheduler/lambda/handler.py:21-25 | Logs the call. It succeeds exactly when the ECS client does not fail, and then assigns the service's desired count. Groups are untouched. |
| Handler.LambdaHandler | modules/autoscaling_scheduler/lambda/handler.py:11-43 | Returns the outcome `Decide` gives, and leaves the resources and log as `Apply` gives for that decision. |
| HandlerProperties.ActionMatchingIsExact | modules/autoscaling_scheduler/lambda/handler.py:12-28 | An action is selected exactly when `event["action"]` is the string "scale_down" or "scale_up". A missing key, a non-string, "Scale_Down" and "scale_down " select nothing. |
| HandlerProperties.UnknownActionIsInert | modules/autoscaling_scheduler/lambda/handler.py:12-43 | "no action" is returned exactly for an unknown action. Then no call is issued and the resources and log are unchanged. |
| HandlerProperties.ScaleDownSetsZeroTarget | modules/autoscaling_scheduler/lambda/handler.py:14-26 | "scale_down" issues group 0/0/0, then service count 0, to the configured identifiers. It returns "scaled down", and no other group or service changes. |
| HandlerProperties.ScaleUpSetsConfiguredTarget | modules/autoscaling_scheduler/lambda/handler.py:28-40 | "scale_up" issues the group update with the configured min/desired/max, then the service update with the configured count. It returns "scaled up", and no other group or service changes. |
| HandlerProperties.ScaleUpAppliesUnvalidatedSizes | modules/autoscaling_scheduler/lambda/handler.py:28-40 | Sizes with min > desired, and a negative service count, are applied as configured. Nothing is rejected. |
| HandlerProperties.GroupBeforeService | modules/autoscaling_scheduler/lambda/handler.py:14-40 | Of any two calls issued, the first goes to the auto scaling client and the second to ECS, so each resource gets at most one call. The log grows by exactly the calls issued. |
| HandlerProperties.GroupFailureStopsInvocation | modules/autoscaling_scheduler/lambda/handler.py:15-35 | When the group update fails, no service call is issued and nothing changes. The auto scaling error escapes and no status is returned. |
| HandlerProperties.ServiceFailureLeavesGroupUpdated | modules/autoscaling_scheduler/lambda/handler.py:15-25 | When the service update fails after the group update, the group stays updated and the ECS error escapes. There is no rollback. |
| HandlerProperties.ScaleUpServiceFailureLeavesGroupUpdated | modules/autoscaling_scheduler/lambda/handler.py:29-39 | On "scale_up", when the service update fails after the group update, the group keeps its configured sizes and the service is untouched. Both calls are logged and the ECS error escapes. There is no rollback. |
| HandlerProperties.ScaleUpGroupFirstError | modules/autoscaling_scheduler/lambda/handler.py:29-34 | The group sizes are read as min, then desired, then max. They evaluate exactly when all three are present and readable. Otherwise the first size that fails gives the error: `KeyError` for that variable when it is missing, `ValueError` for its text when it is unreadable. |
| HandlerProperties.GroupSizesParsedBeforeAnyCall | modules/autoscaling_scheduler/lambda/handler.py:29-34 | A bad group size raises before any call is issued, and nothing changes. |
| HandlerProperties.LateCountErrorLeavesGroupUpdated | modules/autoscaling_scheduler/lambda/handler.py:29-39 | A bad `SCALE_UP_ECS_COUNT` raises after the group update. The group is resized and the service is untouched. |
| HandlerProperties.ReplayOverrides | modules/autoscaling_scheduler/lambda/handler.py:15-39 | The effective calls override the sizes with their last writes and leave all else as it was. They never read the current sizes. |
| HandlerProperties.TargetsIgnoreCurrentSizes | modules/autoscaling_scheduler/lambda/handler.py:15-39 | The decision does not depend on the current sizes. Whatever it writes ends up identical from any starting sizes. |
| HandlerProperties.InvocationIsIdempotent | modules/autoscaling_scheduler/lambda/handler.py:15-39 | A second identical invocation makes the same decision and leaves both resources as the first left them. Only the log records the repeated calls. |
| HandlerProperties.RepeatConverges | modules/autoscaling_scheduler/lambda/handler.py:15-39 | Any number (at least one) of identical invocations leaves the resources as one invocation does. |
| HandlerProperties.ScaleDownThenUnknown | modules/autoscaling_scheduler/lambda/handler.py:12-43 | Against concrete resources, "scale_down" returns "scaled down" and a following "Scale_Down" returns "no action". The returned object ends with the configured group at 0/0/0 and the configured service at 0. |

## Left out

- The boto3 clients and the real AWS calls are not modelled (lines 1 and 4-5). AWS-side checks, such as rejecting `min > max` or an unknown group, are not visible in the code. The clients are the `Aws` object, whose calls either assign or fail as its `Faults` say.
- Reading the process environment is not modelled. The three identifiers become `Config` fields. A missing `ASG_NAME`, `ECS_CLUSTER` or `ECS_SERVICE` fails the module import before any invocation, so it is not part of an invocation's outcome.
- The full grammar of Python's `int()` is not modelled: surrounding whitespace, `_` digit separators and non-ASCII digits. `ParseInt` accepts an optional sign followed by ASCII digits.
- ParseShow: the integer-string conversion length limit of CPython 3.11 and later (and of the 2022 security releases of 3.7-3.10) is not modelled. There, `int()` of a decimal text of more than 4300 digits raises `ValueError`; `ParseInt` accepts numerals of any length, so the round trip holds only below that limit on those interpreters.
- A call that raises is modelled as having had no effect on its resource. The code cannot see more than that the call raised, but on a read timeout, for example, AWS may already have applied the update. GroupFailureStopsInvocation, ServiceFailureLeavesGroupUpdated and ScaleUpServiceFailureLeavesGroupUpdated state "unchanged" for the failed call's resource under this assumption.
- An event that is not a JSON object is not modelled. `Event` is a map; a payload that is a JSON string, list, number or `null` makes `event.get` raise `AttributeError` before any call (line 12).
- The concrete exception classes raised by botocore are not modelled. A failed call is `ClientError(client)`, naming the client that raised.
- The unused `context` argument, the Lambda invocation plumbing, and concurrent invocations are not modelled. Within one `Aws` object the faults do not change between calls.
