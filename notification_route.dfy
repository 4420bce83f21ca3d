/**
  The notification endpoint (`/api/notification`). `POST` picks the
  delivery credential (the one given in the request, else the registry's
  entry for the fid), refuses when it lacks a URL or a token, and otherwise
  builds one push request for the gateway and reports the gateway's answer.
  `GET` reports whether an fid is registered and how many are.
*/
module NotificationRoute {
  import opened Js
  import opened NotificationStore

  /** The JSON request body of `POST`; a field the body lacks is `None`. */
  datatype NotificationRequest = NotificationRequest(
    fid: Option<int>,
    notificationDetails: Option<Details>,
    title: Option<string>,
    body: Option<string>,
    targetUrl: Option<string>)

  /** The push request sent to the gateway: its destination and JSON body.
      A `None` title or body is a key `JSON.stringify` leaves out. */
  datatype OutboundRequest = OutboundRequest(
    endpoint: string,
    notificationId: string,
    title: Option<string>,
    body: Option<string>,
    targetUrl: string,
    tokens: seq<string>)

  /** The gateway's HTTP answer: its status and its body text. */
  datatype GatewayReply = GatewayReply(status: int, text: string)

  /** `response.ok`: a status in the 2xx range. */
  predicate Ok(reply: GatewayReply) {
    200 <= reply.status <= 299
  }

  /** The replies of `POST`. */
  datatype Response =
    | Delivered(result: string)
    | NoDetails
    | DeliveryFailed(status: int, details: string)
    | InternalError

  /** The HTTP status of each reply: 200 on delivery, 400 without a usable
      credential, the gateway's own status on its failure, 500 otherwise. */
  function Status(r: Response): (code: int)
    ensures r.DeliveryFailed? ==> code == r.status
    ensures code == 200 <==> r.Delivered? || (r.DeliveryFailed? && r.status == 200)
    ensures r.NoDetails? ==> code == 400
    ensures r.InternalError? ==> code == 500
  {
    match r
    case Delivered(_) => 200
    case NoDetails => 400
    case DeliveryFailed(status, _) => status
    case InternalError => 500
  }

  const DefaultAppUrl := "https://neynar-score-checkerv2.vercel.app"

  /** `targetUrl || NEXT_PUBLIC_APP_URL || default`: the first non-empty one. */
  function AppUrl(targetUrl: Option<string>, envAppUrl: Option<string>): (url: string)
    ensures TruthyString(targetUrl) ==> url == targetUrl.value
    ensures !TruthyString(targetUrl) && TruthyString(envAppUrl) ==> url == envAppUrl.value
    ensures !TruthyString(targetUrl) && !TruthyString(envAppUrl) ==> url == DefaultAppUrl
    ensures url != ""
  {
    if TruthyString(targetUrl) then targetUrl.value
    else if TruthyString(envAppUrl) then envAppUrl.value
    else DefaultAppUrl
  }

  /** The fid's part of a notification id: its decimal text, or "unknown"
      for a falsy fid. A non-negative fid reads back from it; a negative one
      brings its own '-' into the id. */
  function FidSegment(fid: Option<int>): (segment: string)
    ensures !TruthyInt(fid) ==> segment == "unknown"
    ensures TruthyInt(fid) ==> ParseInt(segment) == fid
    ensures TruthyInt(fid) && fid.value >= 0 ==> AllDigits(segment)
    ensures TruthyInt(fid) && fid.value < 0 ==> segment[0] == '-'
  {
    if TruthyInt(fid) then
      IntToDecimalRoundTrip(fid.value);
      IntToDecimal(fid.value)
    else "unknown"
  }

  /** `neynar-score-${fid || 'unknown'}-${Date.now()}`. */
  function NotificationId(fid: Option<int>, now: nat): (id: string)
    ensures StartsWith(id, "neynar-score-")
    ensures |id| > |IntToDecimal(now)|
    ensures id[|id| - |IntToDecimal(now)|..] == IntToDecimal(now)
  {
    "neynar-score-" + FidSegment(fid) + "-" + IntToDecimal(now)
  }

  /** A notification id splits on '-' into its four parts, from which the
      fid (when it was truthy and not negative) and the timestamp are read back. */
  lemma NotificationIdParts(fid: Option<int>, now: nat)
    requires fid.Some? ==> fid.value >= 0
    ensures Split(NotificationId(fid, now), '-') == ["neynar", "score", FidSegment(fid), IntToDecimal(now)]
    ensures ParseInt(Split(NotificationId(fid, now), '-')[3]) == Some(now)
    ensures TruthyInt(fid) ==> ParseInt(Split(NotificationId(fid, now), '-')[2]) == fid
    ensures !TruthyInt(fid) ==> Split(NotificationId(fid, now), '-')[2] == "unknown"
  {
    var parts := ["neynar", "score", FidSegment(fid), IntToDecimal(now)];
    NoDashInParts(fid, now);
    NotificationIdIsJoin(fid, now);
    JoinSplit(parts, '-');
    IntToDecimalRoundTrip(now);
    if TruthyInt(fid) {
      IntToDecimalRoundTrip(fid.value);
    }
  }

  lemma NoDashInParts(fid: Option<int>, now: nat)
    requires fid.Some? ==> fid.value >= 0
    ensures forall i :: 0 <= i < 4 ==> '-' !in ["neynar", "score", FidSegment(fid), IntToDecimal(now)][i]
  {
    var parts := ["neynar", "score", FidSegment(fid), IntToDecimal(now)];
    assert AllDigits(IntToDecimal(now));
    assert TruthyInt(fid) ==> AllDigits(FidSegment(fid));
    forall i | 0 <= i < 4
      ensures '-' !in parts[i]
    {
    }
  }

  lemma NotificationIdIsJoin(fid: Option<int>, now: nat)
    ensures Join(["neynar", "score", FidSegment(fid), IntToDecimal(now)], '-') == NotificationId(fid, now)
  {
    JoinFour("neynar", "score", FidSegment(fid), IntToDecimal(now));
  }

  /** Joining four pieces on '-'. */
  lemma JoinFour(a: string, b: string, c: string, d: string)
    ensures Join([a, b, c, d], '-') == a + "-" + b + "-" + c + "-" + d
  {
    var tail2 := [c, d];
    var tail1 := [b] + tail2;
    var parts := [a] + tail1;
    assert Join(tail2, '-') == c + "-" + d by {
      assert tail2[1..] == [d];
    }
    assert Join(tail1, '-') == b + "-" + Join(tail2, '-') by {
      assert tail1[1..] == tail2;
    }
    assert Join(parts, '-') == a + "-" + Join(tail1, '-') by {
      assert parts[1..] == tail1;
    }
    assert parts == [a, b, c, d];
  }

  /** Whether the credential has both a URL and a token (`!d?.url || !d?.token`
      is the refusal). */
  predicate Complete(d: Option<Details>) {
    d.Some? && d.value.url != "" && d.value.token != ""
  }

  /** The push request for credential `d`: to `d.url`, for `d.token` alone,
      with the title and body as given. */
  predicate IsRequestFor(sent: OutboundRequest, d: Details, data: NotificationRequest,
                         envAppUrl: Option<string>, now: nat)
  {
    && sent.endpoint == d.url
    && sent.tokens == [d.token]
    && sent.title == data.title
    && sent.body == data.body
    && sent.targetUrl == AppUrl(data.targetUrl, envAppUrl)
    && sent.notificationId == NotificationId(data.fid, now)
  }

  /** How the gateway's reply becomes the response: `None` when `fetch`
      throws, and `isJson` tells whether a body text parses as JSON. */
  function Answer(reply: Option<GatewayReply>, isJson: string -> bool): (r: Response)
    ensures reply.None? ==> r == InternalError
    ensures reply.Some? && !Ok(reply.value) ==>
      r == DeliveryFailed(reply.value.status, reply.value.text) && Status(r) == reply.value.status
    ensures reply.Some? && Ok(reply.value) ==>
      r == (if isJson(reply.value.text) then Delivered(reply.value.text) else InternalError)
    ensures r.Delivered? <==> reply.Some? && Ok(reply.value) && isJson(reply.value.text)
  {
    if reply.None? then InternalError
    else if !Ok(reply.value) then DeliveryFailed(reply.value.status, reply.value.text)
    else if isJson(reply.value.text) then Delivered(reply.value.text)
    else InternalError
  }

  /** `POST`. `data` is `None` when parsing the body throws or gives JSON
      `null` (the destructuring then throws); a body that parses to a number,
      a string or a boolean is a request with every field `None`. `envAppUrl` is
      `NEXT_PUBLIC_APP_URL`, `now` is `Date.now()`, and `gateway` is the
      outbound `fetch`. `sent` is the one request made, if any. */
  method Post(registry: Registry, data: Option<NotificationRequest>, envAppUrl: Option<string>,
              now: nat, gateway: OutboundRequest -> Option<GatewayReply>, isJson: string -> bool)
    returns (response: Response, sent: Option<OutboundRequest>)
    ensures data.None? ==> response == InternalError && sent.None?
    // explicit credential first, with no fallback when it is incomplete
    ensures data.Some? && data.value.notificationDetails.Some? ==>
      var d := data.value.notificationDetails.value;
      if Complete(Some(d)) then sent.Some? && IsRequestFor(sent.value, d, data.value, envAppUrl, now)
      else response == NoDetails && sent.None?
    // otherwise the registry, consulted only for a truthy fid
    ensures data.Some? && data.value.notificationDetails.None? && TruthyInt(data.value.fid) ==>
      var stored := registry.Get(data.value.fid.value);
      if Complete(stored) then sent.Some? && IsRequestFor(sent.value, stored.value, data.value, envAppUrl, now)
      else response == NoDetails && sent.None?
    ensures data.Some? && data.value.notificationDetails.None? && !TruthyInt(data.value.fid) ==>
      response == NoDetails && sent.None?
    ensures sent.Some? ==> response == Answer(gateway(sent.value), isJson)
  {
    if data.None? {
      return InternalError, None;
    }
    var req := data.value;
    var appUrl := AppUrl(req.targetUrl, envAppUrl);
    var notifDetails := req.notificationDetails;
    if notifDetails.None? && TruthyInt(req.fid) {
      notifDetails := registry.Get(req.fid.value);
    }
    if notifDetails.None? || notifDetails.value.url == "" || notifDetails.value.token == "" {
      return NoDetails, None;
    }
    var outbound := OutboundRequest(
      notifDetails.value.url,
      "neynar-score-" + FidSegment(req.fid) + "-" + IntToDecimal(now),
      req.title,
      req.body,
      appUrl,
      [notifDetails.value.token]);
    sent := Some(outbound);
    var reply := gateway(outbound);
    if reply.None? {
      return InternalError, sent;
    }
    if !(200 <= reply.value.status <= 299) {
      return DeliveryFailed(reply.value.status, reply.value.text), sent;
    }
    if !isJson(reply.value.text) {
      return InternalError, sent;
    }
    response := Delivered(reply.value.text);
  }

  /** The reply of `GET`: 400 without an fid, else the status report. */
  datatype StatusReply =
    | FidRequired
    | StatusReport(fid: Option<int>, notificationsEnabled: bool, totalUsersWithNotifications: nat)

  /** `GET`. `fidParam` is the `fid` query parameter and `toNumber` is
      `Number(...)`, `None` when the text is not an integer. Only reads the
      registry. */
  function Get(registry: Registry, fidParam: Option<string>, toNumber: string -> Option<int>): (r: StatusReply)
    reads registry
    ensures r == FidRequired <==> !TruthyString(fidParam)
    ensures r.StatusReport? ==>
      && r.fid == toNumber(fidParam.value)
      && (r.notificationsEnabled <==> r.fid.Some? && registry.Has(r.fid.value))
      && r.totalUsersWithNotifications == registry.Count()
  {
    if !TruthyString(fidParam) then FidRequired
    else
      var n := toNumber(fidParam.value);
      StatusReport(n, n.Some? && registry.Has(n.value), registry.Count())
  }
}
