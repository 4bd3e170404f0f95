/**
 Properties of the handler model: what each stage of one invocation does, how
 the shared notification dict carries over between invocations, and bounds over
 a run of invocations in one warm runtime.
 */
module ZonalShiftProperties {
  import opened PythonText
  import opened ZonalShiftLogic

  /** The event passes both checks and its body decodes to a dict with both keys: a shift is attempted. */
  ghost predicate Accepted(records: seq<Record>, svc: Services) {
    && |records| > 0
    && Truthy(records[0].messageId)
    && Contains(records[0].body, AzIdKey)
    && svc.decode(records[0].body).Some?
    && ElbArnKey in svc.decode(records[0].body).value
    && AzIdKey in svc.decode(records[0].body).value
  }

  /** The message body of an accepted event. */
  ghost function Message(records: seq<Record>, svc: Services): map<string, string>
    requires Accepted(records, svc)
  {
    svc.decode(records[0].body).value
  }

  /** The request an accepted event leads to. */
  ghost function RequestOf(cfg: Config, records: seq<Record>, svc: Services): ShiftRequest
    requires Accepted(records, svc)
  {
    ShiftRequestFor(cfg, Message(records, svc)[ElbArnKey], Message(records, svc)[AzIdKey])
  }

  // ---------------------------------------------------------------------------
  // Validation

  /** A falsy messageId ends the invocation at once: no call, no publish, the dict untouched. */
  lemma FalsyMessageIdAborts(cfg: Config, st: State, records: seq<Record>, svc: Services)
    requires |records| > 0 && records[0].messageId == ""
    ensures Invoke(cfg, st, records, svc) == (st, Normal)
  {
  }

  /** A body without the substring "az_id" ends the invocation at once, whatever else it holds. */
  lemma BodyWithoutAzIdAborts(cfg: Config, st: State, records: seq<Record>, svc: Services)
    requires |records| > 0 && Truthy(records[0].messageId)
    requires !Contains(records[0].body, AzIdKey)
    ensures Invoke(cfg, st, records, svc) == (st, Normal)
  {
  }

  /** The structure check does not look for "elb_arn": a body holding only "az_id" passes it. */
  lemma BodyWithoutElbArnPasses()
    ensures var body := "{\"az_id\": \"use1-az2\"}";
      !RejectsBody(body) && !Contains(body, ElbArnKey)
  {
    var body := "{\"az_id\": \"use1-az2\"}";
    assert OccursAt(body, AzIdKey, 2);
    forall i ensures !OccursAt(body, ElbArnKey, i) {
      if 0 <= i && i + 7 <= |body| {
        assert body[i..i + 7][0] == body[i];
        assert body[i..i + 7][1] == body[i + 1];
      }
    }
  }

  /**
   A body that passes the check but whose decoded dict has no "elb_arn" raises
   KeyError before any shift call, so nothing is published.
   */
  lemma MissingElbArnRaises(cfg: Config, st: State, records: seq<Record>, svc: Services)
    requires |records| > 0 && Truthy(records[0].messageId)
    requires Contains(records[0].body, AzIdKey)
    requires svc.decode(records[0].body).Some? && ElbArnKey !in svc.decode(records[0].body).value
    ensures Invoke(cfg, st, records, svc) == (st, Raised(KeyError(ElbArnKey)))
  {
  }

  /** A body that passes the check but does not decode raises before any shift call. */
  lemma UndecodableRaises(cfg: Config, st: State, records: seq<Record>, svc: Services)
    requires |records| > 0 && Truthy(records[0].messageId)
    requires Contains(records[0].body, AzIdKey)
    requires svc.decode(records[0].body).None?
    ensures Invoke(cfg, st, records, svc) == (st, Raised(JsonDecodeError))
  {
  }

  /** A decoded dict with "elb_arn" but no "az_id" raises KeyError before any shift call. */
  lemma MissingAzIdRaises(cfg: Config, st: State, records: seq<Record>, svc: Services)
    requires |records| > 0 && Truthy(records[0].messageId)
    requires Contains(records[0].body, AzIdKey)
    requires svc.decode(records[0].body).Some?
    requires ElbArnKey in svc.decode(records[0].body).value && AzIdKey !in svc.decode(records[0].body).value
    ensures Invoke(cfg, st, records, svc) == (st, Raised(KeyError(AzIdKey)))
  {
  }

  // ---------------------------------------------------------------------------
  // The shift request

  /**
   A shift call is made exactly when the event is accepted, and then it asks to
   shift away from the message's az_id, for its elb_arn, for the configured
   expiration, with the fixed comment.
   */
  lemma ShiftCallIfAccepted(cfg: Config, st: State, records: seq<Record>, svc: Services)
    ensures var r := Invoke(cfg, st, records, svc).0;
      |r.shiftCalls| == |st.shiftCalls| + 1 <==> Accepted(records, svc)
    ensures Accepted(records, svc) ==>
      var r := Invoke(cfg, st, records, svc).0;
      var msg := Message(records, svc);
      && r.shiftCalls == st.shiftCalls + [RequestOf(cfg, records, svc)]
      && r.shiftCalls[|st.shiftCalls|].awayFrom == msg[AzIdKey]
      && r.shiftCalls[|st.shiftCalls|].resourceIdentifier == msg[ElbArnKey]
      && r.shiftCalls[|st.shiftCalls|].expiresIn == cfg.shiftExpiration
      && r.shiftCalls[|st.shiftCalls|].comment == "Shifting traffic away from degraded workload"
  {
  }

  /** An unexpected exception from the shift call escapes the handler and nothing is published. */
  lemma UnexpectedShiftErrorPropagates(cfg: Config, st: State, records: seq<Record>, svc: Services)
    requires Accepted(records, svc)
    requires svc.startZonalShift(RequestOf(cfg, records, svc)) == ShiftFailed(Unexpected)
    ensures var r := Invoke(cfg, st, records, svc);
      && r.1 == Raised(UnexpectedShiftError)
      && r.0 == st.(shiftCalls := st.shiftCalls + [RequestOf(cfg, records, svc)])
  {
  }

  // ---------------------------------------------------------------------------
  // The notification

  /** An accepted event whose shift started ends in notify, with Title and the shift fields written. */
  lemma InvokeStarted(cfg: Config, st: State, records: seq<Record>, svc: Services)
    requires Accepted(records, svc)
    requires svc.startZonalShift(RequestOf(cfg, records, svc)).ShiftOk?
    ensures var n := StartedNotice(st.notification, Message(records, svc)[AzIdKey], svc.startZonalShift(RequestOf(cfg, records, svc)).response);
      Invoke(cfg, st, records, svc)
        == NotifyStep(cfg, st.(shiftCalls := st.shiftCalls + [RequestOf(cfg, records, svc)], notification := n), n, svc.publish)
  {
  }

  /** An accepted event whose shift did not start ends in notify, with only Title written. */
  lemma InvokeFailed(cfg: Config, st: State, records: seq<Record>, svc: Services)
    requires Accepted(records, svc)
    requires svc.startZonalShift(RequestOf(cfg, records, svc)).ShiftFailed?
    requires Expected(svc.startZonalShift(RequestOf(cfg, records, svc)).shiftError)
    ensures var n := FailedNotice(st.notification, Message(records, svc)[AzIdKey]);
      Invoke(cfg, st, records, svc)
        == NotifyStep(cfg, st.(shiftCalls := st.shiftCalls + [RequestOf(cfg, records, svc)], notification := n), n, svc.publish)
  {
  }

  /**
   A shift that did not start: only Title is written, every other key keeps its
   value, and exactly one publish follows, with the failure subject and the text
   of the whole dict as message.
   */
  lemma FailedShiftNotifies(cfg: Config, st: State, records: seq<Record>, svc: Services)
    requires Accepted(records, svc)
    requires svc.startZonalShift(RequestOf(cfg, records, svc)).ShiftFailed?
    requires Expected(svc.startZonalShift(RequestOf(cfg, records, svc)).shiftError)
    ensures var r := Invoke(cfg, st, records, svc).0;
      var title := Text("Failed to start Zonal Shift for AZ: " + Message(records, svc)[AzIdKey]);
      && r.notification.Keys == st.notification.Keys + {Title}
      && r.notification[Title] == title
      && (forall k :: k in st.notification && k != Title ==> r.notification[k] == st.notification[k])
      && r.publishCalls == st.publishCalls + [PublishRequest(cfg.topicArn, Render(r.notification), title)]
  {
    InvokeFailed(cfg, st, records, svc);
    FailedNoticeEntries(st.notification, Message(records, svc)[AzIdKey]);
  }

  /**
   A shift that started: Title names the AZ, the five shift fields are copied
   from the response, and exactly one publish follows with that Title as subject.
   */
  lemma StartedShiftNotifies(cfg: Config, st: State, records: seq<Record>, svc: Services)
    requires Accepted(records, svc)
    requires svc.startZonalShift(RequestOf(cfg, records, svc)).ShiftOk?
    ensures var r := Invoke(cfg, st, records, svc).0;
      var resp := svc.startZonalShift(RequestOf(cfg, records, svc)).response;
      var title := Text("Zonal Shift Started for AZ: " + Message(records, svc)[AzIdKey]);
      && r.notification.Keys == st.notification.Keys + {Title} + ShiftFieldKeys
      && r.notification[Title] == title
      && r.notification[ZonalShiftID] == Text(resp.zonalShiftId)
      && r.notification[DegradedAZ] == Text(resp.awayFrom)
      && r.notification[Reason] == Text(resp.comment)
      && r.notification[StartTime] == Time(resp.startTime)
      && r.notification[EndTime] == Time(resp.expiryTime)
      && r.publishCalls == st.publishCalls + [PublishRequest(cfg.topicArn, Render(r.notification), title)]
  {
    var resp := svc.startZonalShift(RequestOf(cfg, records, svc)).response;
    var az := Message(records, svc)[AzIdKey];
    InvokeStarted(cfg, st, records, svc);
    StartedNoticeEntries(st.notification, az, resp);
  }

  /** After a started shift the published message shows the five shift fields. */
  lemma StartedMessageShowsFields(cfg: Config, st: State, records: seq<Record>, svc: Services)
    requires Accepted(records, svc)
    requires svc.startZonalShift(RequestOf(cfg, records, svc)).ShiftOk?
    ensures var r := Invoke(cfg, st, records, svc).0;
      var resp := svc.startZonalShift(RequestOf(cfg, records, svc)).response;
      var message := r.publishCalls[|st.publishCalls|].message;
      && Contains(message, Item(ZonalShiftID, Text(resp.zonalShiftId)))
      && Contains(message, Item(DegradedAZ, Text(resp.awayFrom)))
      && Contains(message, Item(Reason, Text(resp.comment)))
      && Contains(message, Item(StartTime, Time(resp.startTime)))
      && Contains(message, Item(EndTime, Time(resp.expiryTime)))
  {
    var r := Invoke(cfg, st, records, svc).0;
    StartedShiftNotifies(cfg, st, records, svc);
    RenderShowsEntry(r.notification, ZonalShiftID);
    RenderShowsEntry(r.notification, DegradedAZ);
    RenderShowsEntry(r.notification, Reason);
    RenderShowsEntry(r.notification, StartTime);
    RenderShowsEntry(r.notification, EndTime);
  }

  /**
   The dict is shared across invocations: a failed shift after an earlier
   started one publishes a message that still shows the earlier shift's id.
   */
  lemma FailureAfterSuccessShowsStaleShiftId(cfg: Config, st: State, records: seq<Record>, svc: Services)
    requires ZonalShiftID in st.notification
    requires Accepted(records, svc)
    requires svc.startZonalShift(RequestOf(cfg, records, svc)).ShiftFailed?
    requires Expected(svc.startZonalShift(RequestOf(cfg, records, svc)).shiftError)
    ensures var r := Invoke(cfg, st, records, svc).0;
      && r.notification[ZonalShiftID] == st.notification[ZonalShiftID]
      && |r.publishCalls| == |st.publishCalls| + 1
      && Contains(r.publishCalls[|st.publishCalls|].message, Item(ZonalShiftID, st.notification[ZonalShiftID]))
  {
    var r := Invoke(cfg, st, records, svc).0;
    FailedShiftNotifies(cfg, st, records, svc);
    RenderShowsEntry(r.notification, ZonalShiftID);
  }

  /** notify reads only Title from its argument: the message comes from the module-level dict. */
  lemma NotifyReadsOnlyTitle(cfg: Config, st: State, a: map<Key, Value>, b: map<Key, Value>, publish: PublishRequest -> PublishOutcome)
    requires Title in a && Title in b && a[Title] == b[Title]
    ensures NotifyStep(cfg, st, a, publish) == NotifyStep(cfg, st, b, publish)
  {
  }

  /**
   A ClientError or ParamValidationError from publish is swallowed: the handler
   returns normally and nothing is added to the published log.
   */
  lemma PublishErrorSwallowed(cfg: Config, st: State, records: seq<Record>, svc: Services)
    requires Accepted(records, svc)
    requires svc.startZonalShift(RequestOf(cfg, records, svc)) != ShiftFailed(Unexpected)
    ensures var r := Invoke(cfg, st, records, svc);
      && |r.0.publishCalls| == |st.publishCalls| + 1
      && (var out := svc.publish(r.0.publishCalls[|st.publishCalls|]);
          out.PublishFailed? && Expected(out.publishError) ==> r.1 == Normal && r.0.published == st.published)
  {
  }

  /** A publish that succeeds records exactly the subject and message that were sent. */
  lemma PublishSuccessRecorded(cfg: Config, st: State, records: seq<Record>, svc: Services)
    requires Accepted(records, svc)
    requires svc.startZonalShift(RequestOf(cfg, records, svc)) != ShiftFailed(Unexpected)
    ensures var r := Invoke(cfg, st, records, svc);
      && |r.0.publishCalls| == |st.publishCalls| + 1
      && (var req := r.0.publishCalls[|st.publishCalls|];
          svc.publish(req).PublishOk? ==>
            && r.1 == Normal
            && r.0.published == st.published + [Publication(req.subject, req.message, svc.publish(req).messageId)])
  {
  }

  /**
   The handler returns normally unless one of the failures it does not handle
   occurs: an empty event, a body that does not decode, a missing key, or an
   unexpected exception from either AWS call.
   */
  lemma RaisesOnlyUnhandledFailures(cfg: Config, st: State, records: seq<Record>, svc: Services)
    ensures var r := Invoke(cfg, st, records, svc);
      r.1.Raised? ==>
        || (r.1.error == IndexError && |records| == 0)
        || (r.1.error == JsonDecodeError && |records| > 0 && svc.decode(records[0].body).None?)
        || (r.1.error == KeyError(ElbArnKey) && |records| > 0 && svc.decode(records[0].body).Some?
              && ElbArnKey !in svc.decode(records[0].body).value)
        || (r.1.error == KeyError(AzIdKey) && |records| > 0 && svc.decode(records[0].body).Some?
              && AzIdKey !in svc.decode(records[0].body).value)
        || (r.1.error == UnexpectedShiftError && Accepted(records, svc)
              && svc.startZonalShift(RequestOf(cfg, records, svc)) == ShiftFailed(Unexpected))
        || (r.1.error == UnexpectedPublishError && Accepted(records, svc)
              && |r.0.publishCalls| == |st.publishCalls| + 1
              && svc.publish(r.0.publishCalls[|st.publishCalls|]) == PublishFailed(Unexpected))
  {
    var r := Invoke(cfg, st, records, svc);
    if |records| == 0 || !Truthy(records[0].messageId) || RejectsBody(records[0].body) {
    } else if svc.decode(records[0].body).None? {
    } else if ElbArnKey !in svc.decode(records[0].body).value || AzIdKey !in svc.decode(records[0].body).value {
    } else {
      assert Accepted(records, svc);
      var o := svc.startZonalShift(RequestOf(cfg, records, svc));
      if o.ShiftOk? {
        StartedShiftNotifies(cfg, st, records, svc);
        var req := r.0.publishCalls[|st.publishCalls|];
        assert r.1.Raised? ==> svc.publish(req) == PublishFailed(Unexpected);
      } else if Expected(o.shiftError) {
        FailedShiftNotifies(cfg, st, records, svc);
        var req := r.0.publishCalls[|st.publishCalls|];
        assert r.1.Raised? ==> svc.publish(req) == PublishFailed(Unexpected);
      } else {
        UnexpectedShiftErrorPropagates(cfg, st, records, svc);
      }
    }
  }

  // ---------------------------------------------------------------------------
  // Several invocations

  /**
   Replaying an accepted event repeats the shift call and the publish: nothing
   deduplicates. The two invocations see the AWS services as they answer at
   their own time; only the decoding of the body is the same.
   */
  lemma ReplayRepeatsShift(cfg: Config, st: State, records: seq<Record>, svc1: Services, svc2: Services)
    requires Accepted(records, svc1)
    requires svc2.decode(records[0].body) == svc1.decode(records[0].body)
    requires svc1.startZonalShift(RequestOf(cfg, records, svc1)) != ShiftFailed(Unexpected)
    requires svc2.startZonalShift(RequestOf(cfg, records, svc1)) != ShiftFailed(Unexpected)
    ensures var once := Invoke(cfg, st, records, svc1).0;
      var twice := Invoke(cfg, once, records, svc2).0;
      && twice.shiftCalls == st.shiftCalls + [RequestOf(cfg, records, svc1), RequestOf(cfg, records, svc1)]
      && |twice.publishCalls| == |st.publishCalls| + 2
  {
    var once := Invoke(cfg, st, records, svc1).0;
    assert Accepted(records, svc2) && RequestOf(cfg, records, svc2) == RequestOf(cfg, records, svc1);
    ShiftCallIfAccepted(cfg, st, records, svc1);
    ShiftCallIfAccepted(cfg, once, records, svc2);
    PublishErrorSwallowed(cfg, st, records, svc1);
    PublishErrorSwallowed(cfg, once, records, svc2);
  }

  /** In a warm runtime the notification keeps its Shape over any run of invocations. */
  lemma {:induction false} RunKeepsShape(cfg: Config, st: State, events: seq<Invocation>)
    requires Shape(st.notification)
    ensures Shape(Run(cfg, st, events).notification)
    decreases |events|
  {
    if events != [] {
      RunKeepsShape(cfg, Invoke(cfg, st, events[0].records, events[0].svc).0, events[1..]);
    }
  }

  /**
   Over a run of invocations there are at most as many shift calls as events,
   at most as many publish calls as shift calls, and the logs only grow.
   */
  lemma {:induction false} RunCallBounds(cfg: Config, st: State, events: seq<Invocation>)
    ensures var r := Run(cfg, st, events);
      && st.shiftCalls <= r.shiftCalls && st.publishCalls <= r.publishCalls && st.published <= r.published
      && |r.shiftCalls| - |st.shiftCalls| <= |events|
      && |r.publishCalls| - |st.publishCalls| <= |r.shiftCalls| - |st.shiftCalls|
    decreases |events|
  {
    if events != [] {
      RunCallBounds(cfg, Invoke(cfg, st, events[0].records, events[0].svc).0, events[1..]);
    }
  }

  // ---------------------------------------------------------------------------
  // One warm runtime

  /**
   A cold start followed by two events handled by the same runtime: the first
   starts a shift and the second fails to. The two events may carry the same
   message (a redelivery that AWS refuses while the first shift is active). The
   alert for the failure still shows the id of the first shift, because both
   invocations share the module-level dict.
   */
  method WarmRuntime(topicArn: string, shiftExpiration: string, first: seq<Record>, svc1: Services, second: seq<Record>, svc2: Services)
    returns (f: ZonalShiftFunction, alert: string)
    requires Accepted(first, svc1) && Accepted(second, svc2)
    requires svc1.startZonalShift(RequestOf(Config(topicArn, shiftExpiration), first, svc1)).ShiftOk?
    requires svc2.startZonalShift(RequestOf(Config(topicArn, shiftExpiration), second, svc2)).ShiftFailed?
    requires Expected(svc2.startZonalShift(RequestOf(Config(topicArn, shiftExpiration), second, svc2)).shiftError)
    ensures fresh(f) && f.Valid() && f.config == Config(topicArn, shiftExpiration)
    ensures f.shiftCalls == [RequestOf(f.config, first, svc1), RequestOf(f.config, second, svc2)]
    ensures f.Model() == Invoke(f.config, Invoke(f.config, State(map[], [], [], []), first, svc1).0, second, svc2).0
    ensures |f.publishCalls| == 2 && alert == f.publishCalls[1].message
    ensures f.publishCalls[1] == PublishRequest(topicArn, Render(f.notification), Text(FailedTitlePrefix + Message(second, svc2)[AzIdKey]))
    ensures var id := svc1.startZonalShift(RequestOf(f.config, first, svc1)).response.zonalShiftId;
      && ZonalShiftID in f.notification && f.notification[ZonalShiftID] == Text(id)
      && Contains(alert, Item(ZonalShiftID, Text(id)))
  {
    f := new ZonalShiftFunction(topicArn, shiftExpiration);
    var _ := f.Handler(first, svc1);
    ghost var mid := f.Model();
    var _ := f.Handler(second, svc2);
    assert f.Model() == Invoke(f.config, mid, second, svc2).0;
    StartedThenFailed(f.config, first, svc1, second, svc2);
    alert := f.publishCalls[1].message;
  }

  /** The two invocations of `WarmRuntime`, on the state of a cold start. */
  lemma StartedThenFailed(cfg: Config, first: seq<Record>, svc1: Services, second: seq<Record>, svc2: Services)
    requires Accepted(first, svc1) && Accepted(second, svc2)
    requires svc1.startZonalShift(RequestOf(cfg, first, svc1)).ShiftOk?
    requires svc2.startZonalShift(RequestOf(cfg, second, svc2)).ShiftFailed?
    requires Expected(svc2.startZonalShift(RequestOf(cfg, second, svc2)).shiftError)
    ensures var r := Invoke(cfg, Invoke(cfg, State(map[], [], [], []), first, svc1).0, second, svc2).0;
      var id := svc1.startZonalShift(RequestOf(cfg, first, svc1)).response.zonalShiftId;
      && r.shiftCalls == [RequestOf(cfg, first, svc1), RequestOf(cfg, second, svc2)]
      && |r.publishCalls| == 2
      && r.publishCalls[1] == PublishRequest(cfg.topicArn, Render(r.notification), Text(FailedTitlePrefix + Message(second, svc2)[AzIdKey]))
      && ZonalShiftID in r.notification && r.notification[ZonalShiftID] == Text(id)
      && Contains(r.publishCalls[1].message, Item(ZonalShiftID, Text(id)))
  {
    StartedFromColdStart(cfg, first, svc1);
    FailedAfterOneShift(cfg, Invoke(cfg, State(map[], [], [], []), first, svc1).0, second, svc2);
  }

  /** A failed shift in a runtime that has made one shift call and one publish call so far. */
  lemma FailedAfterOneShift(cfg: Config, st: State, records: seq<Record>, svc: Services)
    requires |st.shiftCalls| == 1 && |st.publishCalls| == 1 && ZonalShiftID in st.notification
    requires Accepted(records, svc)
    requires svc.startZonalShift(RequestOf(cfg, records, svc)).ShiftFailed?
    requires Expected(svc.startZonalShift(RequestOf(cfg, records, svc)).shiftError)
    ensures var r := Invoke(cfg, st, records, svc).0;
      && r.shiftCalls == st.shiftCalls + [RequestOf(cfg, records, svc)]
      && |r.publishCalls| == 2
      && r.publishCalls[1] == PublishRequest(cfg.topicArn, Render(r.notification), Text(FailedTitlePrefix + Message(records, svc)[AzIdKey]))
      && ZonalShiftID in r.notification && r.notification[ZonalShiftID] == st.notification[ZonalShiftID]
      && Contains(r.publishCalls[1].message, Item(ZonalShiftID, st.notification[ZonalShiftID]))
  {
    FailedShiftNotifies(cfg, st, records, svc);
    FailureAfterSuccessShowsStaleShiftId(cfg, st, records, svc);
    ShiftCallIfAccepted(cfg, st, records, svc);
  }

  /** A started shift on the state of a cold start: one call of each kind, and the shift's id in the dict. */
  lemma StartedFromColdStart(cfg: Config, first: seq<Record>, svc1: Services)
    requires Accepted(first, svc1)
    requires svc1.startZonalShift(RequestOf(cfg, first, svc1)).ShiftOk?
    ensures var r := Invoke(cfg, State(map[], [], [], []), first, svc1).0;
      && r.shiftCalls == [RequestOf(cfg, first, svc1)]
      && |r.publishCalls| == 1
      && ZonalShiftID in r.notification
      && r.notification[ZonalShiftID] == Text(svc1.startZonalShift(RequestOf(cfg, first, svc1)).response.zonalShiftId)
  {
    var cold := State(map[], [], [], []);
    StartedShiftNotifies(cfg, cold, first, svc1);
    ShiftCallIfAccepted(cfg, cold, first, svc1);
  }
}
