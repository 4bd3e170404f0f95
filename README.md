# Automated ARC zonal shift: the Lambda handler, modelled in Dafny

The handler in `src/lambda_code/zonal_shift_logic.py` runs once per SQS
event. It reads the first record. If the record has an empty `messageId`, or its
body does not look like a shift request, it stops. Otherwise it decodes the
body into an `elb_arn` and an `az_id`. It asks Route 53 ARC to start a zonal
shift of that load balancer away from that Availability Zone. It writes the
outcome into a module-level `notification` dict and publishes the dict to an
SNS topic.

The project has three files:

- `python_text.dfy` models the Python text semantics the handler depends on:
  - module `Wrappers`: an `Option` datatype.
  - module `PythonText`: truthiness of a str, the substring test `p in s`,
    `repr` of a str with a proved round trip, and `str` of a dict.
- `zonal_shift_logic.dfy`, module `ZonalShiftLogic`:
  - the data model: records, shift requests and responses, publish requests,
    the call outcomes and the exceptions;
  - the stages of one invocation as pure functions: `Validate`, `StartShift`,
    `NotifyStep`, `ShiftAndNotify`, and `Invoke`, which composes them;
  - the class `ZonalShiftFunction`. It holds the state of one warm Lambda
    runtime: the configuration, the shared `notification` map, and logs of
    the calls made to the shift and SNS services. Its `Handler` and `Notify`
    methods update that state in place, and each is proved to agree exactly
    with its pure function.
- `zonal_shift_properties.dfy`, module `ZonalShiftProperties`: lemmas about a
  single invocation and about a sequence of invocations.

The AWS calls and `json.loads` are inputs, bundled in a `Services` value.
`decode` maps a body to its decoded dict, or to nothing when the body does
not parse. `startZonalShift` maps a request to `ShiftOk(response)` or to
`ShiftFailed(ClientError | ParamValidationError | Unexpected)`. `publish`
maps a request to `PublishOk(messageId)` or to `PublishFailed(...)`. The
topic ARN and the shift expiration are constructor parameters.
Each invocation gets its own `Services` value, because AWS keeps state of its
own: a request that starts a shift once can be refused later while that shift
is active. `Run` therefore takes one `Invocation` (an event with the services
as they answer it) per event.

Two quirks of the source are modelled as written:

- The structure check at line 37 parses as `'elb_arn' and ('az_id' not in body)`.
  It is only a substring test for `az_id` on the raw body. `RejectsBody`,
  `BodyWithoutElbArnPasses` and `MissingElbArnRaises` state this.
- `notification` is one dict shared by all invocations of a warm runtime. A
  failed shift after an earlier successful one rewrites only `Title`, so the
  failure message that line 90 publishes still carries the old shift's fields
  (`FailureAfterSuccessShowsStaleShiftId`, `WarmRuntime`).

Two further behaviours of the code, each stated by the model:

- State is shared between invocations of one runtime. `notification` is
  created once, at module load (line 22). Every invocation whose shift call
  returns a response or None updates it (lines 52 and 55-60); every other
  invocation leaves it as it was (`Run`, `RunKeepsShape`).
- A malformed body is not always rejected quietly. If the body contains
  `az_id` but does not decode (line 42), or its dict lacks `elb_arn` or
  `az_id` (lines 43-44), the handler raises (`UndecodableRaises`,
  `MissingElbArnRaises`, `MissingAzIdRaises`). Conversely, in the model these
  are the only ways, besides an empty event and an unexpected AWS error, that
  the handler raises (`RaisesOnlyUnhandledFailures`). The handler itself has
  two more, which the model leaves out (see "## Left out"): a JSON body that is
  not an object, and a publish response without `MessageId`.

The notification keys are the datatype `Key`; `Key.Name()` gives the string
literal the source uses. `Shape` is the proved invariant on the key sets. The
map is empty before the first notice, holds `Title` alone until a shift
starts, and holds all six keys from then on. So Python's insertion order is
always the order of `NotificationKeys`, and `Render` (`str(notification)`)
writes the entries in that order.

## Model

| member | source | states |
|---|---|---|
| PythonText.Truthy | src/lambda_code/zonal_shift_logic.py:34 | the `not` of line 34 on a str: a str is falsy exactly when it is empty; used by `Validate` and `FalsyMessageIdAborts` |
| PythonText.Contains | src/lambda_code/zonal_shift_logic.py:37 | Python's `p in s` on strings: true exactly when `p` occurs at some index of `s` |
| PythonText.ReprRoundTrip | src/lambda_code/zonal_shift_logic.py:90 | reading back the literal that `repr` writes for a str yields the same text and leaves whatever follows |
| PythonText.Repr | src/lambda_code/zonal_shift_logic.py:90 | `repr` of a str: its properties are stated by `ReprRoundTrip` and `ReprInjective` |
| PythonText.ReprInjective | src/lambda_code/zonal_shift_logic.py:90 | `repr` of a str is injective: different texts are written differently |
| PythonText.DictStr | src/lambda_code/zonal_shift_logic.py:90 | `str` of a dict: `{`, the entries separated by `, `, `}`; every entry occurs in it (`DictStrContainsItem`) |
| PythonText.DictStrContainsItem | src/lambda_code/zonal_shift_logic.py:90 | every item of a dict appears in its `str` |
| ZonalShiftLogic.RejectsBody | src/lambda_code/zonal_shift_logic.py:37-39 | the structure check rejects a body exactly when the substring `az_id` is absent; `elb_arn` is never looked for |
| ZonalShiftLogic.Validate | src/lambda_code/zonal_shift_logic.py:34-44 | returns at once exactly when the messageId is falsy or the body lacks `az_id`; yields the pair to shift exactly when both checks pass and the decoded body has both keys, and then the pair is the body's `elb_arn` and `az_id`; otherwise it raises |
| ZonalShiftLogic.StartShift | src/lambda_code/zonal_shift_logic.py:64-81 | asks the shift service with awayFrom = az, the fixed comment, expiresIn = the configured expiration and resourceIdentifier = the ARN; returns the response unchanged on success, None on ClientError or ParamValidationError, and lets an unexpected error propagate |
| ZonalShiftLogic.ValueRepr | src/lambda_code/zonal_shift_logic.py:90 | `repr` of a dict value: a str through `Repr`, a datetime as `datetime.datetime(` + its arguments + `)`; stated by `ValueReprInjective` |
| ZonalShiftLogic.Item | src/lambda_code/zonal_shift_logic.py:90 | how `str` of a dict writes one entry, `repr(key): repr(value)`; stated by `ItemInjective` and `RenderShowsEntry` |
| ZonalShiftLogic.ValueReprInjective | src/lambda_code/zonal_shift_logic.py:90 | a value of the dict is written injectively: two strs, two datetimes, or a str and a datetime are written alike only when they are the same value |
| ZonalShiftLogic.ItemInjective | src/lambda_code/zonal_shift_logic.py:90 | different entries `repr(key): repr(value)` of the notification are written differently in the message text |
| ZonalShiftLogic.Render | src/lambda_code/zonal_shift_logic.py:90 | `str(notification)`, its entries in the order of `NotificationKeys`; every entry appears in it (`RenderShowsEntry`) |
| ZonalShiftLogic.RenderShowsEntry | src/lambda_code/zonal_shift_logic.py:90 | every entry of the notification appears, as `'key': repr(value)`, in the message text |
| ZonalShiftLogic.NotifyStep | src/lambda_code/zonal_shift_logic.py:84-96 | one publish call, with subject `notice['Title']` and message `str` of the module-level notification; a success is recorded in `published` with its message id; ClientError and ParamValidationError are swallowed; a missing Title raises KeyError before any call; the dict and the shift log are untouched |
| ZonalShiftLogic.ShiftRequestFor | src/lambda_code/zonal_shift_logic.py:69-74 | the arguments of `start_zonal_shift`; that the call carries exactly these is stated by `StartShift` and `ShiftCallIfAccepted` |
| ZonalShiftLogic.FailedNotice | src/lambda_code/zonal_shift_logic.py:52 | the dict after a failed shift; stated by `FailedNoticeEntries` and `FailedNoticeKeepsShape` |
| ZonalShiftLogic.StartedNotice | src/lambda_code/zonal_shift_logic.py:55-60 | the dict after a started shift; stated by `StartedNoticeEntries` and `StartedNoticeKeepsShape` |
| ZonalShiftLogic.FailedNoticeEntries | src/lambda_code/zonal_shift_logic.py:52 | on a failed shift only Title is written, with `Failed to start Zonal Shift for AZ: ` + az, and every other entry is kept |
| ZonalShiftLogic.StartedNoticeEntries | src/lambda_code/zonal_shift_logic.py:55-60 | on a started shift Title becomes `Zonal Shift Started for AZ: ` + az, and ZonalShiftID, DegradedAZ, Reason, StartTime and EndTime are copied from zonalShiftId, awayFrom, comment, startTime and expiryTime |
| ZonalShiftLogic.FailedNoticeKeepsShape | src/lambda_code/zonal_shift_logic.py:22-52 | writing the failure Title keeps the notification's key invariant |
| ZonalShiftLogic.StartedNoticeKeepsShape | src/lambda_code/zonal_shift_logic.py:55-60 | after a started shift the notification holds all six keys |
| ZonalShiftLogic.ShiftAndNotify | src/lambda_code/zonal_shift_logic.py:46-61 | after validation: exactly one shift call with the request built from the message; at most one publish call; the logs are only appended to; the key invariant is kept |
| ZonalShiftLogic.Invoke | src/lambda_code/zonal_shift_logic.py:31-61 | one handler invocation: at most one shift call, no more publish calls than shift calls, no more publications than publish calls, the logs are only appended to, and the key invariant is kept |
| ZonalShiftLogic.Run | src/lambda_code/zonal_shift_logic.py:22-61 | one warm runtime: the handler invoked on one event after another, each with the services as they answer it, sharing the state; stated by `RunKeepsShape` and `RunCallBounds` |
| ZonalShiftLogic.ZonalShiftFunction.constructor | src/lambda_code/zonal_shift_logic.py:18-22 | module load: the topic ARN and expiration are fixed, the notification is empty, and no call has been made |
| ZonalShiftLogic.ZonalShiftFunction.Notify | src/lambda_code/zonal_shift_logic.py:84-96 | updates the object exactly as NotifyStep says and keeps the key invariant |
| ZonalShiftLogic.ZonalShiftFunction.Handler | src/lambda_code/zonal_shift_logic.py:31-61 | updates the object's notification and call logs exactly as Invoke says and keeps the key invariant |
| ZonalShiftProperties.FalsyMessageIdAborts | src/lambda_code/zonal_shift_logic.py:34-36 | an empty messageId ends the invocation normally, with no call, no publish and the notification unchanged |
| ZonalShiftProperties.BodyWithoutAzIdAborts | src/lambda_code/zonal_shift_logic.py:37-39 | a body without the substring `az_id` ends the invocation normally with the state unchanged |
| ZonalShiftProperties.BodyWithoutElbArnPasses | src/lambda_code/zonal_shift_logic.py:37 | the body `{"az_id": "use1-az2"}` holds no `elb_arn` and still passes the structure check |
| ZonalShiftProperties.UndecodableRaises | src/lambda_code/zonal_shift_logic.py:37-42 | a body that passes the check but does not decode raises JSONDecodeError, with the state untouched |
| ZonalShiftProperties.MissingAzIdRaises | src/lambda_code/zonal_shift_logic.py:37-44 | a decoded dict with `elb_arn` but without `az_id` raises KeyError('az_id'), with the state untouched |
| ZonalShiftProperties.MissingElbArnRaises | src/lambda_code/zonal_shift_logic.py:37-43 | a body that passes the check but decodes without `elb_arn` raises KeyError, with no call and no publish |
| ZonalShiftProperties.ShiftCallIfAccepted | src/lambda_code/zonal_shift_logic.py:43-48 | a shift call is made exactly when the event is accepted; its awayFrom is the message's az_id, its resourceIdentifier the elb_arn, its expiresIn the configured expiration, and its comment `Shifting traffic away from degraded workload` |
| ZonalShiftProperties.UnexpectedShiftErrorPropagates | src/lambda_code/zonal_shift_logic.py:68-81 | an unexpected error from the shift call escapes the handler after the call, with nothing written and nothing published |
| ZonalShiftProperties.FailedShiftNotifies | src/lambda_code/zonal_shift_logic.py:49-53 | a shift that did not start writes only the failure Title, keeps every other key, and is followed by exactly one publish with that Title as subject and `str` of the whole dict as message |
| ZonalShiftProperties.StartedShiftNotifies | src/lambda_code/zonal_shift_logic.py:54-61 | a started shift sets the started Title and the five fields from the response, and is followed by exactly one publish with that Title as subject |
| ZonalShiftProperties.StartedMessageShowsFields | src/lambda_code/zonal_shift_logic.py:55-61 | the message published after a started shift shows all five shift fields with the response's values |
| ZonalShiftProperties.FailureAfterSuccessShowsStaleShiftId | src/lambda_code/zonal_shift_logic.py:22-53 | a failed shift after an earlier successful one keeps the old ZonalShiftID, and the failure message shows it |
| ZonalShiftProperties.NotifyReadsOnlyTitle | src/lambda_code/zonal_shift_logic.py:88-92 | two notices with the same Title give the same notify step: only Title is read from the argument |
| ZonalShiftProperties.PublishErrorSwallowed | src/lambda_code/zonal_shift_logic.py:87-96 | a ClientError or ParamValidationError from publish is swallowed: the handler returns normally and nothing is added to the published log |
| ZonalShiftProperties.PublishSuccessRecorded | src/lambda_code/zonal_shift_logic.py:88-94 | a successful publish logs exactly the subject and message sent, with the returned message id, and the handler returns normally |
| ZonalShiftProperties.RaisesOnlyUnhandledFailures | src/lambda_code/zonal_shift_logic.py:31-96 | an exception leaves the handler only for an empty event, a body that does not decode, a missing key, or an unexpected error from one of the two AWS calls |
| ZonalShiftProperties.ReplayRepeatsShift | src/lambda_code/zonal_shift_logic.py:31-61 | processing an accepted event twice, each time with the services as they answer then, makes two identical shift calls and two publish calls whenever neither shift call raises an unexpected error: nothing deduplicates |
| ZonalShiftProperties.RunKeepsShape | src/lambda_code/zonal_shift_logic.py:22-61 | over any run of invocations in one runtime the notification keeps its key invariant |
| ZonalShiftProperties.RunCallBounds | src/lambda_code/zonal_shift_logic.py:31-96 | over any run of invocations there are at most as many shift calls as events, no more publish calls than shift calls, and the logs are only appended to |
| ZonalShiftProperties.WarmRuntime | src/lambda_code/zonal_shift_logic.py:22-61 | returns a fresh `ZonalShiftFunction` object whose state is exactly that of a cold start followed by the two `Handler` calls (the nested `Invoke`): a started shift and then a failed shift, possibly for the same message, redelivered. Its two shift calls are the two requests; its second publish call carries the failure subject for the second AZ and `str` of the dict as message; the dict still holds the first shift's id; and the returned alert is that message and shows the id |
| ZonalShiftProperties.StartedThenFailed | src/lambda_code/zonal_shift_logic.py:22-61 | the same two invocations as functions of the state of a cold start: two shift calls, two publish calls, the second with the failure subject and `str` of the dict, and the first shift's id kept in the dict and shown in that message |

## Left out

- The boto3 session, the region lookup and the creation of the three clients (lines 18-27) are not modelled. The `elbv2` client is created but never used.
- The `getenv` reads are replaced by constructor parameters. An unset variable, which `getenv` returns as None, is not modelled.
- Logging is left out. It has no effect that the model could observe.
- `json.loads` is the `decode` input. It yields a dict of strings or nothing. JSON values other than strings, and a top-level JSON value that is not an object, are not modelled. Such a value, a list such as `["az_id"]` say, passes line 37 and makes `msg['elb_arn']` at line 43 raise TypeError.
- StartShift: Python raises TypeError when it reaches the `except exceptions` clause at line 79, because that clause names a module rather than an exception class. The model does not reproduce this matching; any unexpected error becomes `UnexpectedShiftError`, which propagates.
- NotifyStep: a publish response without `MessageId` (a KeyError at line 93) is not modelled; `PublishOk` always carries an id. An unexpected publish error propagates as `UnexpectedPublishError`.
- The event is assumed to be SQS-shaped: a `Records` list whose records carry a str `messageId` and a str `body`. An event without `Records` or a record without either key (a KeyError at lines 34 and 37) and a `None` messageId (falsy, so an early return at line 34) are not modelled; an empty list is modelled and raises IndexError.
- Only `event['Records'][0]` is read, as in the source. The rest of the batch and the Lambda `context` argument are not modelled.
- Python's `repr` of a str is modelled for ASCII: the quote choice and the escapes of backslash, the quote, tab, newline, carriage return and other control characters. Non-ASCII characters are passed through unescaped, so the escaping of non-printable Unicode is not modelled.
- boto3 returns `startTime` and `expiryTime` as datetime objects. Each is carried by the argument text of its `repr`, written as `datetime.datetime(` + arguments + `)`; how a datetime formats its fields and time zone is not modelled.
- Whether AWS reuses a runtime after an unhandled exception is outside the model. `Run` keeps the state in every case.
- The DNS-name variant that resolves a load balancer through `list_managed_resources` is not in `zonal_shift_logic.py`, so it is not part of this model.
- `arc_zonal_shift/zonal_shift_stack.py` and `app.py` declare infrastructure and contain no decision logic, so they are not part of this model.
