/**
 The Lambda handler that starts a Route 53 ARC zonal shift away from a degraded
 Availability Zone and publishes the outcome to an SNS topic
 (src/lambda_code/zonal_shift_logic.py).

 The three AWS clients and `json.loads` are replaced by the `Services` value,
 whose functions give the outcome of each call for the request it is given.
 The calls made are recorded in the state, so that a contract can say which
 calls happened and with what.
 */
module ZonalShiftLogic {
  import opened Wrappers
  import opened PythonText

  // ---------------------------------------------------------------------------
  // Constants of the source

  const ShiftComment := "Shifting traffic away from degraded workload"
  const StartedTitlePrefix := "Zonal Shift Started for AZ: "
  const FailedTitlePrefix := "Failed to start Zonal Shift for AZ: "

  /** Keys of the inbound message body. */
  const ElbArnKey := "elb_arn"
  const AzIdKey := "az_id"

  /** How `repr` of a `datetime.datetime` begins. */
  const DatetimePrefix := "datetime.datetime("

  /**
   The keys the handler writes into the notification dict; Name is the
   string literal the source uses as the key.
   */
  datatype Key = Title | ZonalShiftID | DegradedAZ | Reason | StartTime | EndTime {
    function Name(): string {
      match this
      case Title => "Title"
      case ZonalShiftID => "ZonalShiftID"
      case DegradedAZ => "DegradedAZ"
      case Reason => "Reason"
      case StartTime => "StartTime"
      case EndTime => "EndTime"
    }
  }

  /** The keys in the order the handler first writes them. */
  const NotificationKeys := [Title, ZonalShiftID, DegradedAZ, Reason, StartTime, EndTime]
  /** The five keys copied from a shift response. */
  const ShiftFieldKeys := {ZonalShiftID, DegradedAZ, Reason, StartTime, EndTime}

  // ---------------------------------------------------------------------------
  // Data model

  /** The two environment values read at start-up. */
  datatype Config = Config(topicArn: string, shiftExpiration: string)

  /** One SQS record; only the first record of an event is ever read. */
  datatype Record = Record(messageId: string, body: string)

  /** The arguments of `start_zonal_shift`. */
  datatype ShiftRequest = ShiftRequest(awayFrom: string, comment: string, expiresIn: string, resourceIdentifier: string)

  /**
   The fields of a `start_zonal_shift` response that the handler reads.
   boto3 returns the two times as datetime objects; each is carried by the
   argument list its `repr` shows, such as `2024, 1, 1, 0, 0, tzinfo=tzlocal()`.
   */
  datatype ShiftResponse = ShiftResponse(zonalShiftId: string, awayFrom: string, comment: string, startTime: string, expiryTime: string)

  /** The exceptions a boto3 call can raise, as the handler tells them apart. */
  datatype CallError = ClientError | ParamValidationError | Unexpected

  datatype ShiftOutcome = ShiftOk(response: ShiftResponse) | ShiftFailed(shiftError: CallError)

  /** The arguments of `sns.publish`; the subject is whatever `notice['Title']` holds. */
  datatype PublishRequest = PublishRequest(topicArn: string, message: string, subject: Value)

  datatype PublishOutcome = PublishOk(messageId: string) | PublishFailed(publishError: CallError)

  /** A value stored in the notification dict: a str, or a datetime given by the arguments its repr shows. */
  datatype Value = Text(text: string) | Time(timeArgs: string)

  /** A notification that SNS accepted. */
  datatype Publication = Publication(subject: Value, message: string, messageId: string)

  /** The exceptions that can leave the handler. */
  datatype PyError =
    | IndexError                 // the event has no records
    | KeyError(key: string)      // a key absent from the message body or the notice
    | JsonDecodeError            // the body is not valid JSON
    | UnexpectedShiftError       // start_zonal_shift raised something unexpected
    | UnexpectedPublishError     // publish raised something unexpected

  /** What a Python call does: return a value or raise. */
  datatype Returns<T> = Return(value: T) | Raise(error: PyError)

  /** The handler's outcome: it returns None, or an exception escapes it. */
  datatype Completion = Normal | Raised(error: PyError)

  /** The collaborators: `json.loads` of a body, and the two AWS calls. */
  datatype Services = Services(
    decode: string -> Option<map<string, string>>,
    startZonalShift: ShiftRequest -> ShiftOutcome,
    publish: PublishRequest -> PublishOutcome)

  /**
   What persists between invocations: the module-level notification dict, and
   the calls made to the two AWS services so far.
   */
  datatype State = State(
    notification: map<Key, Value>,
    shiftCalls: seq<ShiftRequest>,
    publishCalls: seq<PublishRequest>,
    published: seq<Publication>)

  /** The handler's ClientError and ParamValidationError, which it catches. */
  predicate Expected(e: CallError) {
    e.ClientError? || e.ParamValidationError?
  }

  /**
   The keys the notification can hold: none before the first notice, then Title
   alone until the first successful shift, then all six. Because of this, the
   dict's insertion order is always that of NotificationKeys. Python keeps the
   position of a key that is assigned again, so only the first assignment of
   each key fixes the order, and the dict starts empty (line 22) in one of two
   histories:
   - a failed shift comes first: line 52 inserts Title; later failures only
     reassign it; the first started shift then reassigns Title and inserts
     ZonalShiftID, DegradedAZ, Reason, StartTime and EndTime in that order
     (lines 55-60);
   - a started shift comes first: lines 55-60 insert all six keys in that order.
   In both, each key entered in the order of NotificationKeys, and once all six
   are present no assignment adds a key or moves one.
   */
  predicate Shape(n: map<Key, Value>) {
    n.Keys == {} || n.Keys == {Title} || n.Keys == {Title} + ShiftFieldKeys
  }

  // ---------------------------------------------------------------------------
  // Validation

  /**
   The structure check `'elb_arn' and 'az_id' not in body`: Python reads it as
   `'elb_arn' and ('az_id' not in body)`, and the non-empty literal is truthy.
   */
  function RejectsBody(body: string): (r: bool)
    ensures r <==> !Contains(body, AzIdKey)
  {
    Truthy(ElbArnKey) && !Contains(body, AzIdKey)
  }

  // ---------------------------------------------------------------------------
  // start_shift

  /** The request `start_shift` sends. */
  function ShiftRequestFor(cfg: Config, elbArn: string, az: string): ShiftRequest {
    ShiftRequest(az, ShiftComment, cfg.shiftExpiration, elbArn)
  }

  /**
   `start_shift`: the response on success, None on a ClientError or a
   ParamValidationError, and anything else propagates.
   */
  function StartShift(cfg: Config, elbArn: string, az: string, api: ShiftRequest -> ShiftOutcome): (r: Returns<Option<ShiftResponse>>)
    ensures var o := api(ShiftRequest(az, ShiftComment, cfg.shiftExpiration, elbArn));
      && (o.ShiftOk? ==> r == Return(Some(o.response)))
      && (o.ShiftFailed? && Expected(o.shiftError) ==> r == Return(None))
      && (o == ShiftFailed(Unexpected) ==> r == Raise(UnexpectedShiftError))
  {
    match api(ShiftRequestFor(cfg, elbArn, az))
    case ShiftOk(response) => Return(Some(response))
    case ShiftFailed(e) => if Expected(e) then Return(None) else Raise(UnexpectedShiftError)
  }

  // ---------------------------------------------------------------------------
  // The message text: str(notification)

  /** `repr` of a value stored in the dict. */
  function ValueRepr(v: Value): string {
    match v
    case Text(s) => Repr(s)
    case Time(args) => DatetimePrefix + args + ")"
  }

  /** How `str` of a dict writes one entry. */
  function Item(key: Key, v: Value): string {
    Repr(key.Name()) + ": " + ValueRepr(v)
  }

  lemma StrNotDatetime(s: string, args: string)
    ensures ValueRepr(Text(s)) != ValueRepr(Time(args))
  {
    assert ValueRepr(Text(s))[0] != ValueRepr(Time(args))[0];
  }

  /** A str and a datetime are never written alike, and each is written faithfully. */
  lemma ValueReprInjective(v: Value, w: Value)
    requires ValueRepr(v) == ValueRepr(w)
    ensures v == w
  {
    match (v, w)
    case (Text(a), Text(b)) =>
      ReprInjective(a, b);
    case (Time(a), Time(b)) =>
      assert a == ValueRepr(v)[|DatetimePrefix|..|ValueRepr(v)| - 1];
      assert b == ValueRepr(w)[|DatetimePrefix|..|ValueRepr(w)| - 1];
    case (Text(a), Time(b)) =>
      StrNotDatetime(a, b);
    case (Time(a), Text(b)) =>
      StrNotDatetime(b, a);
  }

  /** No two keys have the same name. */
  lemma NameInjective(k1: Key, k2: Key)
    requires k1.Name() == k2.Name()
    ensures k1 == k2
  {
    assert |k1.Name()| == |k2.Name()| && k1.Name()[0] == k2.Name()[0];
  }

  /** Different entries are written differently in the message text. */
  lemma ItemInjective(k1: Key, v1: Value, k2: Key, v2: Value)
    requires Item(k1, v1) == Item(k2, v2)
    ensures k1 == k2 && v1 == v2
  {
    EntryInjective(k1.Name(), ValueRepr(v1), k2.Name(), ValueRepr(v2));
    NameInjective(k1, k2);
    ValueReprInjective(v1, v2);
  }

  /** The entries of `n` whose keys are among `keys`, written in the order of `keys`. */
  function Items(n: map<Key, Value>, keys: seq<Key>): (r: seq<string>)
    ensures forall k :: 0 <= k < |keys| && keys[k] in n ==> Item(keys[k], n[keys[k]]) in r
    decreases |keys|
  {
    if keys == [] then []
    else if keys[0] in n then [Item(keys[0], n[keys[0]])] + Items(n, keys[1..])
    else Items(n, keys[1..])
  }

  /**
   `str(notification)`. Python writes a dict in insertion order; under Shape that
   is the order of NotificationKeys.
   */
  function Render(n: map<Key, Value>): string {
    DictStr(Items(n, NotificationKeys))
  }

  /** Where a key stands in NotificationKeys. */
  function KeyPosition(key: Key): (k: nat)
    ensures k < |NotificationKeys| && NotificationKeys[k] == key
  {
    match key
    case Title => 0
    case ZonalShiftID => 1
    case DegradedAZ => 2
    case Reason => 3
    case StartTime => 4
    case EndTime => 5
  }

  /** Every entry of the notification is written into the message text. */
  lemma RenderShowsEntry(n: map<Key, Value>, key: Key)
    requires key in n
    ensures Contains(Render(n), Item(key, n[key]))
  {
    var items := Items(n, NotificationKeys);
    assert NotificationKeys[KeyPosition(key)] == key;
    assert Item(key, n[key]) in items;
    var j :| 0 <= j < |items| && items[j] == Item(key, n[key]);
    DictStrContainsItem(items, j);
  }

  // ---------------------------------------------------------------------------
  // notify and handler, as functions of the state

  /**
   `notify(notice)`: the subject is `notice['Title']`, but the message is
   `str` of the module-level notification, not of the argument. A ClientError
   or ParamValidationError from publish is swallowed.
   */
  function NotifyStep(cfg: Config, st: State, notice: map<Key, Value>, publish: PublishRequest -> PublishOutcome): (r: (State, Completion))
    ensures r.0.notification == st.notification && r.0.shiftCalls == st.shiftCalls
    ensures Title !in notice ==> r == (st, Raised(KeyError(Title.Name())))
    ensures Title in notice ==>
      var req := PublishRequest(cfg.topicArn, Render(st.notification), notice[Title]);
      && r.0.publishCalls == st.publishCalls + [req]
      && match publish(req)
         case PublishOk(id) => r.0.published == st.published + [Publication(notice[Title], Render(st.notification), id)] && r.1 == Normal
         case PublishFailed(e) => r.0.published == st.published && (r.1 == Normal <==> Expected(e))
    ensures r.1.Raised? ==>
      || (r.1.error == KeyError(Title.Name()) && Title !in notice)
      || (r.1.error == UnexpectedPublishError && |r.0.publishCalls| == |st.publishCalls| + 1
            && publish(r.0.publishCalls[|st.publishCalls|]) == PublishFailed(Unexpected))
  {
    if Title !in notice then (st, Raised(KeyError(Title.Name())))
    else
      var req := PublishRequest(cfg.topicArn, Render(st.notification), notice[Title]);
      var called := st.(publishCalls := st.publishCalls + [req]);
      match publish(req)
      case PublishOk(id) => (called.(published := called.published + [Publication(req.subject, req.message, id)]), Normal)
      case PublishFailed(e) => (called, if Expected(e) then Normal else Raised(UnexpectedPublishError))
  }

  /** The notification after a shift that did not start: only Title is written. */
  function FailedNotice(n: map<Key, Value>, az: string): map<Key, Value> {
    n[Title := Text(FailedTitlePrefix + az)]
  }

  /** The notification after a shift that started: Title and the five shift fields. */
  function StartedNotice(n: map<Key, Value>, az: string, resp: ShiftResponse): map<Key, Value> {
    n[Title := Text(StartedTitlePrefix + az)]
     [ZonalShiftID := Text(resp.zonalShiftId)]
     [DegradedAZ := Text(resp.awayFrom)]
     [Reason := Text(resp.comment)]
     [StartTime := Time(resp.startTime)]
     [EndTime := Time(resp.expiryTime)]
  }

  /** Failure: Title is written and every other entry is kept. */
  lemma FailedNoticeEntries(n: map<Key, Value>, az: string)
    ensures var m := FailedNotice(n, az);
      && m.Keys == n.Keys + {Title}
      && m[Title] == Text("Failed to start Zonal Shift for AZ: " + az)
      && forall k :: k in n && k != Title ==> m[k] == n[k]
  {
  }

  /** Success: Title is written and the five shift fields are copied from the response. */
  lemma StartedNoticeEntries(n: map<Key, Value>, az: string, resp: ShiftResponse)
    ensures var m := StartedNotice(n, az, resp);
      && m.Keys == n.Keys + {Title} + ShiftFieldKeys
      && m[Title] == Text("Zonal Shift Started for AZ: " + az)
      && m[ZonalShiftID] == Text(resp.zonalShiftId)
      && m[DegradedAZ] == Text(resp.awayFrom)
      && m[Reason] == Text(resp.comment)
      && m[StartTime] == Time(resp.startTime)
      && m[EndTime] == Time(resp.expiryTime)
  {
  }

  lemma FailedNoticeKeepsShape(n: map<Key, Value>, az: string)
    ensures Shape(n) ==> Shape(FailedNotice(n, az))
  {
    FailedNoticeEntries(n, az);
  }

  lemma StartedNoticeKeepsShape(n: map<Key, Value>, az: string, resp: ShiftResponse)
    ensures Shape(StartedNotice(n, az, resp))
  {
    StartedNoticeEntries(n, az, resp);
    var m := StartedNotice(n, az, resp);
    forall k: Key ensures k in m && k in {Title} + ShiftFieldKeys {
      assert k == Title || k in ShiftFieldKeys;
    }
    assert m.Keys == {Title} + ShiftFieldKeys;
  }

  /**
   The checks and parsing that open `handler`: the (elb_arn, az_id) pair to
   shift, None when the handler returns at once, or the exception raised.
   */
  function Validate(records: seq<Record>, decode: string -> Option<map<string, string>>): (r: Returns<Option<(string, string)>>)
    ensures r == Return(None) <==>
      |records| > 0 && (!Truthy(records[0].messageId) || !Contains(records[0].body, AzIdKey))
    ensures r.Return? && r.value.Some? <==>
      && |records| > 0 && Truthy(records[0].messageId) && Contains(records[0].body, AzIdKey)
      && decode(records[0].body).Some?
      && ElbArnKey in decode(records[0].body).value && AzIdKey in decode(records[0].body).value
    ensures r.Return? && r.value.Some? ==>
      r.value.value == (decode(records[0].body).value[ElbArnKey], decode(records[0].body).value[AzIdKey])
  {
    if |records| == 0 then Raise(IndexError)
    else if !Truthy(records[0].messageId) then Return(None)
    else if RejectsBody(records[0].body) then Return(None)
    else match decode(records[0].body)
      case None => Raise(JsonDecodeError)
      case Some(msg) =>
        if ElbArnKey !in msg then Raise(KeyError(ElbArnKey))
        else if AzIdKey !in msg then Raise(KeyError(AzIdKey))
        else Return(Some((msg[ElbArnKey], msg[AzIdKey])))
  }

  /**
   The rest of `handler` once a message is accepted: exactly one shift call,
   then, unless it raised unexpectedly, the notification is updated and notify
   is called once. The notification keeps its Shape.
   */
  function ShiftAndNotify(cfg: Config, st: State, elbArn: string, az: string, svc: Services): (r: (State, Completion))
    ensures r.0.shiftCalls == st.shiftCalls + [ShiftRequest(az, ShiftComment, cfg.shiftExpiration, elbArn)]
    ensures st.publishCalls <= r.0.publishCalls && |r.0.publishCalls| <= |st.publishCalls| + 1
    ensures st.published <= r.0.published
    ensures |r.0.published| - |st.published| <= |r.0.publishCalls| - |st.publishCalls|
    ensures Shape(st.notification) ==> Shape(r.0.notification)
  {
    var called := st.(shiftCalls := st.shiftCalls + [ShiftRequestFor(cfg, elbArn, az)]);
    match StartShift(cfg, elbArn, az, svc.startZonalShift)
    case Raise(e) => (called, Raised(e))
    case Return(None) =>
      var n := FailedNotice(st.notification, az);
      FailedNoticeKeepsShape(st.notification, az);
      NotifyStep(cfg, called.(notification := n), n, svc.publish)
    case Return(Some(resp)) =>
      var n := StartedNotice(st.notification, az, resp);
      StartedNoticeKeepsShape(st.notification, az, resp);
      NotifyStep(cfg, called.(notification := n), n, svc.publish)
  }

  /**
   One invocation of `handler(event, context)`: the new state and how it ends.
   Each invocation makes at most one shift call and at most one publish call,
   publishes only after a shift call, only ever appends to the logs, and keeps
   the notification's Shape.
   */
  function Invoke(cfg: Config, st: State, records: seq<Record>, svc: Services): (r: (State, Completion))
    ensures st.shiftCalls <= r.0.shiftCalls && |r.0.shiftCalls| <= |st.shiftCalls| + 1
    ensures st.publishCalls <= r.0.publishCalls
    ensures |r.0.publishCalls| - |st.publishCalls| <= |r.0.shiftCalls| - |st.shiftCalls|
    ensures st.published <= r.0.published
    ensures |r.0.published| - |st.published| <= |r.0.publishCalls| - |st.publishCalls|
    ensures Shape(st.notification) ==> Shape(r.0.notification)
  {
    match Validate(records, svc.decode)
    case Raise(e) => (st, Raised(e))
    case Return(None) => (st, Normal)
    case Return(Some((elbArn, az))) => ShiftAndNotify(cfg, st, elbArn, az, svc)
  }

  /**
   One invocation of the handler: its event, and the services as they answer
   at that moment. AWS keeps state of its own (an active shift, say), so the
   same request can be answered differently by different invocations.
   */
  datatype Invocation = Invocation(records: seq<Record>, svc: Services)

  /** A warm runtime: the handler invoked on one event after another. */
  function Run(cfg: Config, st: State, events: seq<Invocation>): State
    decreases |events|
  {
    if events == [] then st else Run(cfg, Invoke(cfg, st, events[0].records, events[0].svc).0, events[1..])
  }

  // ---------------------------------------------------------------------------
  // The Lambda module as an object

  /**
   The module-level state of zonal_shift_logic.py in one warm runtime: the
   configuration read at load time, the shared `notification` dict, and the
   calls made to the shift and notification services.
   */
  class ZonalShiftFunction {
    const config: Config
    var notification: map<Key, Value>
    var shiftCalls: seq<ShiftRequest>
    var publishCalls: seq<PublishRequest>
    var published: seq<Publication>

    function Model(): State
      reads this
    {
      State(notification, shiftCalls, publishCalls, published)
    }

    ghost predicate Valid()
      reads this
    {
      Shape(notification)
    }

    /** Module load: the configuration is read and `notification = {}`. */
    constructor (topicArn: string, shiftExpiration: string)
      ensures Valid()
      ensures config == Config(topicArn, shiftExpiration)
      ensures Model() == State(map[], [], [], [])
    {
      config := Config(topicArn, shiftExpiration);
      notification := map[];
      shiftCalls := [];
      publishCalls := [];
      published := [];
    }

    method Notify(notice: map<Key, Value>, publish: PublishRequest -> PublishOutcome) returns (c: Completion)
      requires Valid()
      modifies this
      ensures Valid()
      ensures (Model(), c) == NotifyStep(config, old(Model()), notice, publish)
    {
      if Title !in notice {
        return Raised(KeyError(Title.Name()));
      }
      var req := PublishRequest(config.topicArn, Render(notification), notice[Title]);
      publishCalls := publishCalls + [req];
      var response := publish(req);
      match response
      case PublishOk(id) =>
        published := published + [Publication(req.subject, req.message, id)];
        c := Normal;
      case PublishFailed(e) =>
        c := if Expected(e) then Normal else Raised(UnexpectedPublishError);
    }

    method Handler(records: seq<Record>, svc: Services) returns (c: Completion)
      requires Valid()
      modifies this
      ensures Valid()
      ensures (Model(), c) == Invoke(config, old(Model()), records, svc)
    {
      if |records| == 0 {
        return Raised(IndexError);
      }
      if !Truthy(records[0].messageId) {
        return Normal;
      } else if RejectsBody(records[0].body) {
        return Normal;
      }
      var decoded := svc.decode(records[0].body);
      if decoded.None? {
        return Raised(JsonDecodeError);
      }
      var msg := decoded.value;
      if ElbArnKey !in msg {
        return Raised(KeyError(ElbArnKey));
      }
      var elbArn := msg[ElbArnKey];
      if AzIdKey !in msg {
        return Raised(KeyError(AzIdKey));
      }
      var az := msg[AzIdKey];

      shiftCalls := shiftCalls + [ShiftRequestFor(config, elbArn, az)];
      var shift := StartShift(config, elbArn, az, svc.startZonalShift);
      if shift.Raise? {
        return Raised(shift.error);
      }
      if shift.value.None? {
        notification := notification[Title := Text(FailedTitlePrefix + az)];
        c := Notify(notification, svc.publish);
      } else {
        var resp := shift.value.value;
        notification := notification[Title := Text(StartedTitlePrefix + az)];
        notification := notification[ZonalShiftID := Text(resp.zonalShiftId)];
        notification := notification[DegradedAZ := Text(resp.awayFrom)];
        notification := notification[Reason := Text(resp.comment)];
        notification := notification[StartTime := Time(resp.startTime)];
        notification := notification[EndTime := Time(resp.expiryTime)];
        c := Notify(notification, svc.publish);
      }
    }
  }
}
