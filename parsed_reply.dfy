/** The typed shape of a parsed tracking reply. The parsing step itself is not
    modelled: a value of these types is what the transport-plus-parse step
    hands back, with every carrier field that may be missing made optional. */
module ParsedReply {
  import opened Wrappers

  /** A field that the XML-to-hash conversion yields either as one item (one
      element in the reply) or as a list (repeated elements). */
  datatype OneOrMany<T> = One(item: T) | Many(items: seq<T>)

  /** Ruby's `[x].flatten` for a field that may be missing, one item or a list. */
  function Flatten<T>(f: Option<OneOrMany<T>>): seq<T> {
    match f
    case None => []
    case Some(One(x)) => [x]
    case Some(Many(xs)) => xs
  }

  /** A carrier notification: severity plus human-readable message. */
  datatype Notification = Notification(severity: Option<string>, message: Option<string>)

  /** Opaque pass-through payload (other identifiers, raw event fields). */
  datatype Raw = Raw(fields: map<string, string>)

  /** One dated entry of a shipment: its kind and its timestamp text. */
  datatype DateOrTime = DateOrTime(kind: Option<string>, timestamp: string)

  datatype Service = Service(serviceType: Option<string>)

  datatype StatusDetail = StatusDetail(description: Option<string>, code: Option<string>)

  /** One track-details fragment of a reply. */
  datatype TrackDetails = TrackDetails(
    notification: Option<Notification>,
    trackingNumber: Option<string>,
    uniqueIdentifier: Option<string>,        // tracking_number_unique_identifier
    deliverySignatureName: Option<string>,
    otherIdentifiers: Option<Raw>,
    service: Option<Service>,
    statusDetail: Option<StatusDetail>,
    datesOrTimes: Option<seq<DateOrTime>>,
    events: Option<OneOrMany<Option<Raw>>>)  // nil, a single event or a list that may hold nils

  datatype CompletedTrackDetails = CompletedTrackDetails(
    duplicateWaybill: bool,                  // decided once, when the reply is parsed
    trackDetails: Option<OneOrMany<TrackDetails>>)

  datatype TrackReply = TrackReply(
    highestSeverity: Option<string>,
    notifications: Option<OneOrMany<Notification>>,
    completedTrackDetails: Option<CompletedTrackDetails>)

  datatype Body = Body(trackReply: Option<TrackReply>)

  datatype Envelope = Envelope(body: Option<Body>)

  /** A whole reply. `faultMessage` is what the SOAP fault navigation of the raw
      reply yields (fault reason and validation failures), absent when any
      step of that navigation is missing. */
  datatype Response = Response(envelope: Option<Envelope>, faultMessage: Option<string>)

  /** The track reply of a parsed response, reached through the envelope and the body, each of which may be missing. */
  function TrackReplyOf(r: Response): Option<TrackReply> {
    match r.envelope
    case None => None
    case Some(env) =>
      match env.body
      case None => None
      case Some(b) => b.trackReply
  }
}
