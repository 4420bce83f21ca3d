/**
  The webhook endpoint (`POST /api/webhook`). It accepts two body shapes:
  a direct report from the app's own client (`event == "frame_added"` with
  an fid and a credential inline), and the platform's signed envelope
  (`header`, `payload`, `signature`), whose base64 JSON payload names a
  lifecycle event. Each recognised event stores or deletes the account's
  credential in the registry. The signature is never checked.
*/
module Webhook {
  import opened Js
  import opened NotificationStore

  /** The fields of the JSON request body that the handler reads. */
  datatype Body = Body(
    event: Option<string>,
    fid: Option<int>,
    notificationDetails: Option<Details>,
    header: Option<string>,
    payload: Option<string>,
    signature: Option<string>)

  /** The decoded envelope payload. `event` is `None` when the payload has no
      such field, as a payload that decodes to a number, a string or a boolean
      has none. */
  datatype Payload = Payload(event: Option<string>, fid: int, notificationDetails: Option<Details>)

  /** The event tags the handler's `switch` tells apart. */
  datatype EventKind = Added | Removed | Enabled | Disabled | Unknown

  /** The handler's replies: 200 with a message for a direct report, 200 for
      an envelope, 400 for a body of neither shape, 500 when decoding fails. */
  datatype Response = Saved | Acknowledged | InvalidRequest | ProcessingFailed

  function Status(r: Response): (code: int)
    ensures code == 200 <==> r.Saved? || r.Acknowledged?
  {
    match r
    case Saved => 200
    case Acknowledged => 200
    case InvalidRequest => 400
    case ProcessingFailed => 500
  }

  /** Maps an event tag to its kind; a missing tag, and any tag not named
      here, is `Unknown`. */
  function Classify(tag: Option<string>): (k: EventKind)
    ensures k == Added <==> tag == Some("frame_added") || tag == Some("mini_app_added")
    ensures k == Removed <==> tag == Some("frame_removed") || tag == Some("mini_app_removed")
    ensures k == Enabled <==> tag == Some("notifications_enabled")
    ensures k == Disabled <==> tag == Some("notifications_disabled")
  {
    if tag == Some("frame_added") || tag == Some("mini_app_added") then Added
    else if tag == Some("frame_removed") || tag == Some("mini_app_removed") then Removed
    else if tag == Some("notifications_enabled") then Enabled
    else if tag == Some("notifications_disabled") then Disabled
    else Unknown
  }

  /** The direct client report: a truthy fid and a credential under the tag
      "frame_added" (and only that tag: "mini_app_added" does not qualify). */
  predicate IsDirectReport(b: Body)
    ensures IsDirectReport(b) ==> Classify(b.event) == Added
    ensures b.event == Some("mini_app_added") ==> !IsDirectReport(b)
  {
    b.event == Some("frame_added") && TruthyInt(b.fid) && b.notificationDetails.Some?
  }

  /** The platform envelope: all three fields present and non-empty, so the
      text handed to decoding is never empty. */
  predicate IsEnvelope(b: Body)
    ensures IsEnvelope(b) ==> b.payload.Some? && |b.payload.value| > 0
  {
    TruthyString(b.header) && TruthyString(b.payload) && TruthyString(b.signature)
  }

  /** The two shapes read disjoint fields: the envelope fields never decide
      whether a body is a direct report, and the report fields never decide
      whether it is an envelope. */
  lemma ShapesReadDisjointFields(b: Body, event: Option<string>, fid: Option<int>, details: Option<Details>,
                                 header: Option<string>, payload: Option<string>, signature: Option<string>)
    ensures IsDirectReport(b) == IsDirectReport(b.(header := header, payload := payload, signature := signature))
    ensures IsEnvelope(b) == IsEnvelope(b.(event := event, fid := fid, notificationDetails := details))
  {
  }

  /** What a decoded payload does to the registry: added and enabled events
      store the credential when one is attached, removed and disabled events
      delete the fid whether or not one is attached, and any other tag leaves
      the registry alone. */
  function EnvelopeEffect(m: map<int, Details>, p: Payload): (r: map<int, Details>)
    ensures Classify(p.event) in {Added, Enabled} && p.notificationDetails.Some? ==>
      p.fid in r && r[p.fid] == p.notificationDetails.value
    ensures Classify(p.event) in {Removed, Disabled} ==> p.fid !in r
    ensures Classify(p.event) == Unknown || (Classify(p.event) in {Added, Enabled} && p.notificationDetails.None?) ==>
      r == m
    ensures forall k :: k != p.fid ==> (k in r <==> k in m)
    ensures forall k :: k != p.fid && k in m ==> r[k] == m[k]
  {
    match Classify(p.event)
    case Added | Enabled =>
      if p.notificationDetails.Some? then m[p.fid := p.notificationDetails.value] else m
    case Removed | Disabled => m - {p.fid}
    case Unknown => m
  }

  /** `POST`. `body` is `None` when parsing the request body throws or gives
      JSON `null`; a body that parses to a number, a string or a boolean is a
      `Body` with every field `None`. `decode` stands for base64 decoding
      followed by `JSON.parse`, `None` when either throws or gives `null`; a
      payload that decodes to a number, a string or a boolean has no event. */
  method Post(registry: Registry, body: Option<Body>, decode: string -> Option<Payload>)
    returns (response: Response)
    modifies registry
    ensures body.None? ==>
      response == ProcessingFailed && registry.store == old(registry.store)
    ensures body.Some? && IsDirectReport(body.value) ==>
      response == Saved &&
      registry.store == old(registry.store)[body.value.fid.value := body.value.notificationDetails.value]
    ensures body.Some? && !IsDirectReport(body.value) && !IsEnvelope(body.value) ==>
      response == InvalidRequest && registry.store == old(registry.store)
    ensures body.Some? && !IsDirectReport(body.value) && IsEnvelope(body.value) ==>
      match decode(body.value.payload.value)
      case None => response == ProcessingFailed && registry.store == old(registry.store)
      case Some(p) => response == Acknowledged && registry.store == EnvelopeEffect(old(registry.store), p)
  {
    if body.None? {
      return ProcessingFailed;
    }
    var b := body.value;
    if b.event == Some("frame_added") && TruthyInt(b.fid) && b.notificationDetails.Some? {
      registry.Set(b.fid.value, b.notificationDetails.value);
      return Saved;
    }
    if TruthyString(b.header) && TruthyString(b.payload) && TruthyString(b.signature) {
      var decoded := decode(b.payload.value);
      if decoded.None? {
        return ProcessingFailed;
      }
      var payload := decoded.value;
      var tag := payload.event;
      if tag == Some("frame_added") || tag == Some("mini_app_added") {
        if payload.notificationDetails.Some? {
          registry.Set(payload.fid, payload.notificationDetails.value);
        }
      } else if tag == Some("frame_removed") || tag == Some("mini_app_removed") {
        var _ := registry.Delete(payload.fid);
      } else if tag == Some("notifications_enabled") {
        if payload.notificationDetails.Some? {
          registry.Set(payload.fid, payload.notificationDetails.value);
        }
      } else if tag == Some("notifications_disabled") {
        var _ := registry.Delete(payload.fid);
      }
      return Acknowledged;
    }
    return InvalidRequest;
  }
}
