/** A tracking query: option validation and defaulting, the SOAP request it
    builds, the two-level classification of the parsed reply, and the
    executor that resolves duplicate waybills by re-querying each duplicate. */
module TrackingRequest {
  import opened Wrappers
  import opened XmlTree
  import opened ParsedReply
  import opened TrackingInformation

  /** Account credentials; only forwarded, to the request helpers and to sub-queries. */
  datatype Credentials = Credentials(key: string, password: string, accountNumber: string, meterNumber: string)

  /** An options-hash entry where a key given with a nil value differs from a missing key. */
  datatype Key<T> = Absent | Present(value: Option<T>)

  /** The options hash a query is constructed from. */
  datatype Options = Options(
    trackingNumber: Key<string>,
    packageType: Option<string>,
    packageId: Option<string>,
    includeDetailedScans: Option<bool>,
    uuid: Option<string>,
    pagingToken: Option<string>)

  /** A validated tracking query. */
  datatype Query = Query(
    credentials: Credentials,
    packageId: Option<string>,
    packageType: string,
    includeDetailedScans: bool,
    uuid: Option<string>,
    pagingToken: Option<string>)

  /** Why a query cannot be constructed. */
  datatype InitError = MissingParameter(parameter: string) | UnknownPackageType(packageType: string)

  /** Why a query's execution raised. */
  datatype ExecError =
    | RateError(message: Option<string>)   // the reply, or the package inside it, was not a success
    | MalformedReply                       // a success reply without completed track details
    | DepthExceeded                        // the duplicate-waybill recursion ran out of fuel

  predicate PackageTypeValid(packageType: string) {
    packageType in PackageIdentifierTypes
  }

  /** Ruby's `x || y` where `x` may be nil, false or true. */
  function RubyOr(x: Option<bool>, y: bool): bool {
    if x == Some(true) then true else y
  }

  function KeyValue<T>(k: Key<T>): Option<T> {
    if k.Present? then k.value else None
  }

  /** Constructs a query from an options hash. Without a tracking number key,
      both package type and package id are required (checked in that order);
      the type defaults to tracking number or door tag and must be a known type. */
  function NewQuery(credentials: Credentials, options: Options): (r: Result<Query, InitError>)
    ensures options.trackingNumber.Absent? && options.packageType.None? ==>
      r == Failure(MissingParameter("package_type"))
    ensures options.trackingNumber.Absent? && options.packageType.Some? && options.packageId.None? ==>
      r == Failure(MissingParameter("package_id"))
    ensures r.Success? <==>
      (options.trackingNumber.Present? || (options.packageType.Some? && options.packageId.Some?))
      && options.packageType.GetOr(DefaultPackageType) in PackageIdentifierTypes
    ensures ((options.trackingNumber.Present? || (options.packageType.Some? && options.packageId.Some?))
             && options.packageType.GetOr(DefaultPackageType) !in PackageIdentifierTypes) ==>
      r == Failure(UnknownPackageType(options.packageType.GetOr(DefaultPackageType)))
    ensures r.Failure? && r.error.UnknownPackageType? ==>
      r.error.packageType == options.packageType.GetOr(DefaultPackageType)
      && r.error.packageType !in PackageIdentifierTypes
    ensures r.Success? ==>
      && r.value.credentials == credentials
      && r.value.packageType in PackageIdentifierTypes
      && r.value.packageType == (if options.packageType.Some? then options.packageType.value else DefaultPackageType)
      && r.value.packageId == (if options.packageId.Some? then options.packageId else KeyValue(options.trackingNumber))
      && (options.trackingNumber.Absent? ==> r.value.packageId.Some?)
      && r.value.includeDetailedScans
      && r.value.uuid == options.uuid
      && r.value.pagingToken == options.pagingToken
  {
    if options.trackingNumber.Absent? && options.packageType.None? then
      Failure(MissingParameter("package_type"))
    else if options.trackingNumber.Absent? && options.packageId.None? then
      Failure(MissingParameter("package_id"))
    else
      var packageId := if options.packageId.Some? then options.packageId else KeyValue(options.trackingNumber);
      var packageType := options.packageType.GetOr(DefaultPackageType);
      var q := Query(
        credentials := credentials,
        packageId := packageId,
        packageType := packageType,
        includeDetailedScans := RubyOr(options.includeDetailedScans, true),
        uuid := options.uuid,
        pagingToken := options.pagingToken);
      if !PackageTypeValid(packageType) then Failure(UnknownPackageType(packageType))
      else Success(q)
  }

  /** Every recognised type yields a query, and an unrecognised one is refused
      with that type named, before any request is built. */
  lemma PackageTypeDecidesConstruction(credentials: Credentials, packageType: string, packageId: string)
    ensures var r := NewQuery(credentials, Options(Absent, Some(packageType), Some(packageId), None, None, None));
      && (r.Success? <==> packageType in PackageIdentifierTypes)
      && (r.Success? ==> r.value.packageType == packageType && r.value.packageId == Some(packageId))
      && (r.Failure? ==> r.error == UnknownPackageType(packageType))
  {
  }

  // ----- the request -----

  const DetailedScans: string := "INCLUDE_DETAILED_SCANS"

  function AddPackageIdentifier(q: Query): Element {
    Node("PackageIdentifier", [Leaf("Type", Some(q.packageType)), Leaf("Value", q.packageId)])
  }

  function SelectionDetails(q: Query): Element {
    Node("SelectionDetails",
      [AddPackageIdentifier(q)]
      + (if q.uuid.Some? then [Leaf("TrackingNumberUniqueIdentifier", q.uuid)] else [])
      + (if q.pagingToken.Some? then [Node("PagingDetail", [Leaf("PagingToken", q.pagingToken)])] else []))
  }

  /** The identifier of the tracking service, written by the version helper. */
  const ServiceId: string := "trck"

  /** The authentication, client and version blocks. Their inner layout is not
      modelled, only the values each one writes. */
  function RequestHelpers(c: Credentials): seq<Element> {
    [Helper("web_authentication_detail", [c.key, c.password]),
     Helper("client_detail", [c.accountNumber, c.meterNumber]),
     Helper("version", [ServiceId])]
  }

  function TrackRequest(q: Query): Element {
    Node("TrackRequest",
      RequestHelpers(q.credentials) + [SelectionDetails(q)]
      + (if q.includeDetailedScans then [Leaf("ProcessingOptions", Some(DetailedScans))] else []))
  }

  /** The request document, as an element tree. */
  function BuildXml(q: Query): Element {
    Node("Envelope", [Node("Body", [TrackRequest(q)])])
  }

  lemma {:induction false} CountInPackageIdentifier(q: Query)
    ensures Count(AddPackageIdentifier(q), "PackageIdentifier") == 1
  {
    var pi := AddPackageIdentifier(q);
    CountAllAppend([Leaf("Type", Some(q.packageType))], [Leaf("Value", q.packageId)], "PackageIdentifier");
    CountAllSingle(Leaf("Type", Some(q.packageType)), "PackageIdentifier");
    CountAllSingle(Leaf("Value", q.packageId), "PackageIdentifier");
    assert [Leaf("Type", Some(q.packageType))] + [Leaf("Value", q.packageId)] == pi.children;
    assert CountAll(pi.children, "PackageIdentifier") == 0;
  }

  lemma {:induction false} CountOfPackageIdentifier(q: Query)
    ensures Count(SelectionDetails(q), "PackageIdentifier") == 1
  {
    var pi := AddPackageIdentifier(q);
    CountInPackageIdentifier(q);
    var u := if q.uuid.Some? then [Leaf("TrackingNumberUniqueIdentifier", q.uuid)] else [];
    var p := if q.pagingToken.Some? then [Node("PagingDetail", [Leaf("PagingToken", q.pagingToken)])] else [];
    CountAllSingle(pi, "PackageIdentifier");
    CountAllAppend([pi], u, "PackageIdentifier");
    CountAllAppend([pi] + u, p, "PackageIdentifier");
    if q.uuid.Some? {
      CountAllSingle(Leaf("TrackingNumberUniqueIdentifier", q.uuid), "PackageIdentifier");
    }
    if q.pagingToken.Some? {
      CountAllSingle(Leaf("PagingToken", q.pagingToken), "PackageIdentifier");
      CountAllSingle(p[0], "PackageIdentifier");
    }
  }

  lemma {:induction false} CountOfTrackRequest(q: Query)
    ensures Count(TrackRequest(q), "PackageIdentifier") == 1
  {
    var sel := SelectionDetails(q);
    var helpers := RequestHelpers(q.credentials);
    var po := if q.includeDetailedScans then [Leaf("ProcessingOptions", Some(DetailedScans))] else [];
    assert helpers + [sel] + po == TrackRequest(q).children;
    CountOfPackageIdentifier(q);
    CountAllSingle(helpers[0], "PackageIdentifier");
    CountAllSingle(helpers[1], "PackageIdentifier");
    CountAllSingle(helpers[2], "PackageIdentifier");
    CountAllAppend([helpers[0]], [helpers[1]], "PackageIdentifier");
    CountAllAppend([helpers[0], helpers[1]], [helpers[2]], "PackageIdentifier");
    assert [helpers[0], helpers[1]] + [helpers[2]] == helpers;
    CountAllSingle(sel, "PackageIdentifier");
    CountAllAppend(helpers, [sel], "PackageIdentifier");
    CountAllAppend(helpers + [sel], po, "PackageIdentifier");
    if q.includeDetailedScans {
      CountAllSingle(po[0], "PackageIdentifier");
    }
  }

  /** The request holds exactly one package identifier, and the track request
      sits at Envelope/Body/TrackRequest with the selection details inside it,
      after the three helper blocks and before the processing options. */
  lemma {:induction false} BuildXmlShape(q: Query)
    ensures Count(BuildXml(q), "PackageIdentifier") == 1
    ensures Tags(TrackRequest(q).children) ==
      [None, None, None, Some("SelectionDetails")] + (if q.includeDetailedScans then [Some("ProcessingOptions")] else [])
    ensures Path(BuildXml(q), ["Body", "TrackRequest"]) == Some(TrackRequest(q))
    ensures Path(BuildXml(q), ["Body", "TrackRequest", "SelectionDetails"]) == Some(SelectionDetails(q))
  {
    var e := BuildXml(q);
    var tr := TrackRequest(q);
    var body := Node("Body", [tr]);
    var sel := SelectionDetails(q);
    CountOfTrackRequest(q);
    CountAllSingle(tr, "PackageIdentifier");
    CountAllSingle(body, "PackageIdentifier");
    assert Child(e, "Body") == Some(body);
    assert Child(body, "TrackRequest") == Some(tr);
    assert tr.children[3] == sel;
    assert Child(tr, "SelectionDetails") == Some(sel);
    assert Path(sel, []) == Some(sel);
    assert Path(tr, []) == Some(tr);
    assert Path(tr, ["SelectionDetails"]) == Some(sel);
    assert ["Body", "TrackRequest", "SelectionDetails"][1..] == ["TrackRequest", "SelectionDetails"];
    assert ["TrackRequest", "SelectionDetails"][1..] == ["SelectionDetails"];
    assert ["Body", "TrackRequest"][1..] == ["TrackRequest"];
    assert ["TrackRequest"][1..] == [];
  }

  /** Inside the selection details the package identifier comes first, carrying
      the query's type and value; the unique identifier and then the paging block
      follow, each present exactly when the query has it. */
  lemma SelectionDetailsShape(q: Query)
    ensures SelectionDetails(q).children[0] ==
      Node("PackageIdentifier", [Leaf("Type", Some(q.packageType)), Leaf("Value", q.packageId)])
    ensures Tags(SelectionDetails(q).children) ==
      [Some("PackageIdentifier")]
      + (if q.uuid.Some? then [Some("TrackingNumberUniqueIdentifier")] else [])
      + (if q.pagingToken.Some? then [Some("PagingDetail")] else [])
    ensures Child(SelectionDetails(q), "TrackingNumberUniqueIdentifier") ==
      if q.uuid.Some? then Some(Leaf("TrackingNumberUniqueIdentifier", q.uuid)) else None
    ensures Child(SelectionDetails(q), "PagingDetail") ==
      if q.pagingToken.Some? then Some(Node("PagingDetail", [Leaf("PagingToken", q.pagingToken)])) else None
  {
    var sel := SelectionDetails(q);
    var u := if q.uuid.Some? then [Leaf("TrackingNumberUniqueIdentifier", q.uuid)] else [];
    var p := if q.pagingToken.Some? then [Node("PagingDetail", [Leaf("PagingToken", q.pagingToken)])] else [];
    assert sel.children == [AddPackageIdentifier(q)] + u + p;
    if q.uuid.Some? {
      assert sel.children[1] == u[0];
    }
    if q.pagingToken.Some? {
      assert sel.children[|sel.children| - 1] == p[0];
    }
  }

  /** Detailed scans are requested exactly when the query asks for them. */
  lemma ProcessingOptionsShape(q: Query)
    ensures Child(TrackRequest(q), "ProcessingOptions") ==
      if q.includeDetailedScans then Some(Leaf("ProcessingOptions", Some(DetailedScans))) else None
  {
    var tr := TrackRequest(q);
    if q.includeDetailedScans {
      assert tr.children[4] == Leaf("ProcessingOptions", Some(DetailedScans));
    } else {
      assert |tr.children| == 4;
    }
  }

  /** The request determines the query it was built from, credentials included,
      so what the transport is sent reflects every field of the query. */
  lemma RequestDeterminesQuery(q1: Query, q2: Query)
    requires BuildXml(q1) == BuildXml(q2)
    ensures q1 == q2
  {
    var t1, t2 := TrackRequest(q1), TrackRequest(q2);
    assert t1 == BuildXml(q1).children[0].children[0];
    assert t1 == t2;
    assert t1.children[0] == t2.children[0] && t1.children[1] == t2.children[1];
    assert q1.credentials == q2.credentials;
    assert |t1.children| == |t2.children|;
    assert q1.includeDetailedScans == q2.includeDetailedScans;
    var s1, s2 := SelectionDetails(q1), SelectionDetails(q2);
    assert t1.children[3] == s1 && t2.children[3] == s2;
    assert s1.children[0] == s2.children[0];
    assert q1.packageType == q2.packageType && q1.packageId == q2.packageId;
    SelectionDetailsShape(q1);
    SelectionDetailsShape(q2);
    assert Child(s1, "TrackingNumberUniqueIdentifier") == Child(s2, "TrackingNumberUniqueIdentifier");
    assert Child(s1, "PagingDetail") == Child(s2, "PagingDetail");
    assert q1.uuid == q2.uuid;
    assert q1.pagingToken == q2.pagingToken;
  }

  /** Detailed scans are requested by every query that can be constructed,
      whatever the options say. */
  lemma DetailedScansAlwaysRequested(credentials: Credentials, options: Options)
    requires NewQuery(credentials, options).Success?
    ensures Child(TrackRequest(NewQuery(credentials, options).value), "ProcessingOptions") ==
      Some(Leaf("ProcessingOptions", Some(DetailedScans)))
  {
    ProcessingOptionsShape(NewQuery(credentials, options).value);
  }

  // ----- classifying the reply -----

  const SuccessSeverities: set<string> := {"SUCCESS", "WARNING", "NOTE"}

  predicate IsSuccessSeverity(severity: Option<string>) {
    severity.Some? && severity.value in SuccessSeverities
  }

  /** The reply as a whole is a success. */
  predicate IsSuccess(r: Response)
    ensures IsSuccess(r) ==> TrackReplyOf(r).Some?
    ensures TrackReplyOf(r).Some? ==> (IsSuccess(r) <==> IsSuccessSeverity(TrackReplyOf(r).value.highestSeverity))
  {
    && r.envelope.Some?
    && r.envelope.value.body.Some?
    && r.envelope.value.body.value.trackReply.Some?
    && IsSuccessSeverity(r.envelope.value.body.value.trackReply.value.highestSeverity)
  }

  /** One track-details fragment carries a notification of a success severity. */
  predicate FragmentUsable(d: TrackDetails) {
    d.notification.Some? && IsSuccessSeverity(d.notification.value.severity)
  }

  /** The package-level check as written, which looks up the notification's severity on the track details directly.
      None means the check raises, which it does on a list of fragments, since
      a Ruby array cannot be indexed by a symbol. */
  function IsSuccessTrackingAsWritten(data: Option<OneOrMany<TrackDetails>>): (r: Option<bool>)
    ensures r.None? <==> data.Some? && data.value.Many?
    ensures data.None? ==> r == Some(false)
  {
    match data
    case None => Some(false)
    case Some(One(d)) => Some(FragmentUsable(d))
    case Some(Many(_)) => None
  }

  /** The package-level check, applied to every fragment of a batch. */
  predicate IsSuccessTracking(data: Option<OneOrMany<TrackDetails>>)
    ensures data.None? ==> !IsSuccessTracking(data)
    ensures data.Some? ==>
      (IsSuccessTracking(data) <==> forall d :: d in Flatten(data) ==> FragmentUsable(d))
    ensures IsSuccessTrackingAsWritten(data).Some? ==> IsSuccessTrackingAsWritten(data) == Some(IsSuccessTracking(data))
  {
    match data
    case None => false
    case Some(One(d)) => FragmentUsable(d)
    case Some(Many(ds)) => forall d :: d in ds ==> FragmentUsable(d)
  }

  /** A batch of two fragments, both with a SUCCESS notification: the check as
      written raises on it, and the corrected check accepts it. */
  lemma SuccessTrackingAsWrittenRaisesOnBatch(d: TrackDetails)
    requires d.notification == Some(Notification(Some("SUCCESS"), None))
    ensures IsSuccessTrackingAsWritten(Some(Many([d, d]))).None?
    ensures IsSuccessTracking(Some(Many([d, d])))
  {
  }

  /** The message of the track reply's notification, absent when the notification or its message is missing. */
  function ReplyMessage(notifications: Option<OneOrMany<Notification>>): (m: Option<string>)
    ensures forall n: Notification :: notifications == Some(One(n)) ==> m == n.message
    ensures notifications.None? || notifications.value.Many? ==> m.None?
  {
    match notifications
    case Some(One(n)) => n.message
    case _ => None
  }

  /** The fragment's notification message for a failed package check, absent when
      the navigation fails (no fragment, no notification, or a list of fragments). */
  function PackageMessage(data: Option<OneOrMany<TrackDetails>>): (m: Option<string>)
    ensures forall d: TrackDetails, n: Notification :: data == Some(One(d)) && d.notification == Some(n) ==> m == n.message
    ensures m.Some? ==> data.Some? && data.value.One? && data.value.item.notification.Some?
  {
    match data
    case Some(One(d)) => if d.notification.Some? then d.notification.value.message else None
    case _ => None
  }

  datatype Classification =
    | HardFailure(message: Option<string>)
    | PartialFailure(message: Option<string>)
    | MissingCompletedDetails
    | Usable(duplicateWaybill: bool, fragments: seq<TrackDetails>)

  /** The two-level decision on a parsed reply. */
  function Classify(r: Response): (c: Classification)
    ensures c.HardFailure? <==> !IsSuccess(r)
    ensures c.HardFailure? ==>
      c.message == if TrackReplyOf(r).Some? then ReplyMessage(TrackReplyOf(r).value.notifications) else r.faultMessage
    ensures c.MissingCompletedDetails? <==> IsSuccess(r) && TrackReplyOf(r).value.completedTrackDetails.None?
    ensures c.PartialFailure? <==>
      IsSuccess(r) && TrackReplyOf(r).value.completedTrackDetails.Some?
      && !IsSuccessTracking(TrackReplyOf(r).value.completedTrackDetails.value.trackDetails)
    ensures c.PartialFailure? ==>
      c.message == PackageMessage(TrackReplyOf(r).value.completedTrackDetails.value.trackDetails)
    ensures c.Usable? ==>
      && IsSuccess(r)
      && TrackReplyOf(r).value.completedTrackDetails.Some?
      && c.duplicateWaybill == TrackReplyOf(r).value.completedTrackDetails.value.duplicateWaybill
      && c.fragments == Flatten(TrackReplyOf(r).value.completedTrackDetails.value.trackDetails)
      && forall k :: 0 <= k < |c.fragments| ==> FragmentUsable(c.fragments[k])
  {
    if !IsSuccess(r) then
      var reply := TrackReplyOf(r);
      HardFailure(if reply.Some? then ReplyMessage(reply.value.notifications) else r.faultMessage)
    else
      var reply := r.envelope.value.body.value.trackReply.value;
      match reply.completedTrackDetails
      case None => MissingCompletedDetails
      case Some(completed) =>
        if !IsSuccessTracking(completed.trackDetails) then PartialFailure(PackageMessage(completed.trackDetails))
        else Usable(completed.duplicateWaybill, Flatten(completed.trackDetails))
  }

  // ----- executing a query -----

  /** The options of the sub-query that re-asks for one duplicate shipment. */
  function DuplicateOptions(packageId: Option<string>, uuid: Option<string>): Options {
    Options(Present(packageId), None, None, None, uuid, None)
  }

  /** The sub-query for one duplicate entry. */
  function SubQuery(q: Query, d: TrackDetails): Query {
    Query(q.credentials, q.packageId, DefaultPackageType, true, d.uniqueIdentifier, None)
  }

  /** The sub-query is exactly what the validating constructor builds from the
      duplicate options, so its construction never raises: it keeps the parent's
      credentials and id, takes the entry's unique identifier and the default type. */
  lemma SubQueryConstructs(q: Query, d: TrackDetails)
    ensures NewQuery(q.credentials, DuplicateOptions(q.packageId, d.uniqueIdentifier)) == Success(SubQuery(q, d))
    ensures SubQuery(q, d).uuid == d.uniqueIdentifier && SubQuery(q, d).packageId == q.packageId
    ensures SubQuery(q, d).packageType == DefaultPackageType && SubQuery(q, d).pagingToken.None?
  {
    PackageIdentifierTypesAreDistinct();
  }

  /** Ruby's `flatten` on a list of record lists. */
  function Concat<T>(xss: seq<seq<T>>): seq<T> {
    if xss == [] then [] else Concat(xss[..|xss| - 1]) + xss[|xss| - 1]
  }

  function Records(ds: seq<TrackDetails>): seq<Record> {
    seq(|ds|, k requires 0 <= k < |ds| => FromDetails(ds[k]))
  }

  /** What executing `q` returns, given the transport-plus-parse step `send`.
      `fuel` bounds the nesting of duplicate-waybill sub-queries. */
  function Execute(send: Element -> Response, q: Query, fuel: nat): Result<seq<Record>, ExecError>
    decreases fuel, 0, 0
  {
    if fuel == 0 then Failure(DepthExceeded)
    else match Classify(send(BuildXml(q)))
      case HardFailure(m) => Failure(RateError(m))
      case PartialFailure(m) => Failure(RateError(m))
      case MissingCompletedDetails => Failure(MalformedReply)
      case Usable(duplicate, ds) =>
        if duplicate then FanOut(send, q, ds, fuel - 1) else Success(Records(ds))
  }

  /** The sub-queries for the duplicate entries `ds`, issued in order; the first
      one that fails fails the whole, otherwise their records are concatenated. */
  function FanOut(send: Element -> Response, q: Query, ds: seq<TrackDetails>, fuel: nat): Result<seq<Record>, ExecError>
    decreases fuel, 1, |ds|
  {
    if ds == [] then Success([])
    else match FanOut(send, q, ds[..|ds| - 1], fuel)
      case Failure(e) => Failure(e)
      case Success(done) =>
        match Execute(send, SubQuery(q, ds[|ds| - 1]), fuel)
        case Failure(e) => Failure(e)
        case Success(more) => Success(done + more)
  }

  lemma {:induction false} FanOutPrefixFailure(send: Element -> Response, q: Query, ds: seq<TrackDetails>, i: nat, fuel: nat)
    requires i <= |ds|
    requires FanOut(send, q, ds[..i], fuel).Failure?
    ensures FanOut(send, q, ds, fuel) == FanOut(send, q, ds[..i], fuel)
    decreases |ds|
  {
    if i < |ds| {
      var init := ds[..|ds| - 1];
      assert init[..i] == ds[..i];
      FanOutPrefixFailure(send, q, init, i, fuel);
    } else {
      assert ds[..i] == ds;
    }
  }

  lemma FanOutStep(send: Element -> Response, q: Query, ds: seq<TrackDetails>, fuel: nat, done: seq<Record>, more: seq<Record>)
    requires ds != []
    requires FanOut(send, q, ds[..|ds| - 1], fuel) == Success(done)
    requires Execute(send, SubQuery(q, ds[|ds| - 1]), fuel) == Success(more)
    ensures FanOut(send, q, ds, fuel) == Success(done + more)
  {
  }

  lemma FanOutStepFailure(send: Element -> Response, q: Query, ds: seq<TrackDetails>, fuel: nat)
    requires ds != []
    requires FanOut(send, q, ds[..|ds| - 1], fuel).Failure?
      || (FanOut(send, q, ds[..|ds| - 1], fuel).Success? && Execute(send, SubQuery(q, ds[|ds| - 1]), fuel).Failure?)
    ensures FanOut(send, q, ds, fuel) ==
      if FanOut(send, q, ds[..|ds| - 1], fuel).Failure? then FanOut(send, q, ds[..|ds| - 1], fuel)
      else Execute(send, SubQuery(q, ds[|ds| - 1]), fuel)
  {
  }

  /** When every sub-query succeeds, the result is their records, concatenated in listing order. */
  lemma {:induction false} FanOutConcatenates(
    send: Element -> Response, q: Query, ds: seq<TrackDetails>, fuel: nat, results: seq<seq<Record>>)
    requires |results| == |ds|
    requires forall k :: 0 <= k < |ds| ==> Execute(send, SubQuery(q, ds[k]), fuel) == Success(results[k])
    ensures FanOut(send, q, ds, fuel) == Success(Concat(results))
    decreases |ds|
  {
    if ds != [] {
      var n := |ds| - 1;
      assert forall k :: 0 <= k < n ==> ds[..n][k] == ds[k];
      FanOutConcatenates(send, q, ds[..n], fuel, results[..n]);
      FanOutStep(send, q, ds, fuel, Concat(results[..n]), results[n]);
    }
  }

  /** When sub-query `k` is the first to fail, the whole fails with its error. */
  lemma {:induction false} FanOutFirstFailure(
    send: Element -> Response, q: Query, ds: seq<TrackDetails>, fuel: nat, k: nat)
    requires k < |ds|
    requires forall j :: 0 <= j < k ==> Execute(send, SubQuery(q, ds[j]), fuel).Success?
    requires Execute(send, SubQuery(q, ds[k]), fuel).Failure?
    ensures FanOut(send, q, ds, fuel) == Execute(send, SubQuery(q, ds[k]), fuel)
  {
    var pre := ds[..k + 1];
    assert pre[..k] == ds[..k] && pre[k] == ds[k];
    assert forall j :: 0 <= j < k ==> ds[..k][j] == ds[j];
    FanOutAllSucceed(send, q, ds[..k], fuel);
    FanOutStepFailure(send, q, pre, fuel);
    FanOutPrefixFailure(send, q, ds, k + 1, fuel);
  }

  lemma {:induction false} FanOutAllSucceed(send: Element -> Response, q: Query, ds: seq<TrackDetails>, fuel: nat)
    requires forall j :: 0 <= j < |ds| ==> Execute(send, SubQuery(q, ds[j]), fuel).Success?
    ensures FanOut(send, q, ds, fuel).Success?
    decreases |ds|
  {
    if ds != [] {
      var n := |ds| - 1;
      assert forall j :: 0 <= j < n ==> ds[..n][j] == ds[j];
      FanOutAllSucceed(send, q, ds[..n], fuel);
      var last := Execute(send, SubQuery(q, ds[n]), fuel);
      assert last.Success?;
      FanOutStep(send, q, ds, fuel, FanOut(send, q, ds[..n], fuel).value, last.value);
    }
  }

  /** Fuel only cuts the recursion short: a result other than running out of
      fuel stays the same when one more level is allowed. */
  lemma {:induction false} ExecuteFuelMono(send: Element -> Response, q: Query, fuel: nat)
    requires Execute(send, q, fuel) != Failure(DepthExceeded)
    ensures Execute(send, q, fuel + 1) == Execute(send, q, fuel)
    decreases fuel, 0, 0
  {
    var c := Classify(send(BuildXml(q)));
    if c.Usable? && c.duplicateWaybill {
      FanOutFuelMono(send, q, c.fragments, fuel - 1);
    }
  }

  lemma {:induction false} FanOutFuelMono(send: Element -> Response, q: Query, ds: seq<TrackDetails>, fuel: nat)
    requires FanOut(send, q, ds, fuel) != Failure(DepthExceeded)
    ensures FanOut(send, q, ds, fuel + 1) == FanOut(send, q, ds, fuel)
    decreases fuel, 1, |ds|
  {
    if ds != [] {
      var init := ds[..|ds| - 1];
      FanOutFuelMono(send, q, init, fuel);
      if FanOut(send, q, init, fuel).Success? {
        ExecuteFuelMono(send, SubQuery(q, ds[|ds| - 1]), fuel);
      }
    }
  }

  /** Any amount of extra fuel leaves a result that did not run out of fuel unchanged,
      so the bounded executor agrees with the unbounded recursion wherever it finishes. */
  lemma {:induction false} ExecuteMoreFuel(send: Element -> Response, q: Query, fuel: nat, more: nat)
    requires Execute(send, q, fuel) != Failure(DepthExceeded)
    ensures Execute(send, q, fuel + more) == Execute(send, q, fuel)
    decreases more
  {
    if more > 0 {
      ExecuteMoreFuel(send, q, fuel, more - 1);
      ExecuteFuelMono(send, q, fuel + more - 1);
    }
  }

  /** A reply that is not a success, or whose package is not, raises a rate
      error carrying the classifier's (possibly absent) message. */
  lemma FailureRaisesRateError(send: Element -> Response, q: Query, fuel: nat)
    requires fuel > 0
    requires !IsSuccess(send(BuildXml(q))) || Classify(send(BuildXml(q))).PartialFailure?
    ensures Execute(send, q, fuel) == Failure(RateError(Classify(send(BuildXml(q))).message))
  {
  }

  lemma ExecuteUsable(send: Element -> Response, q: Query, fuel: nat, duplicate: bool, ds: seq<TrackDetails>)
    requires fuel > 0
    requires Classify(send(BuildXml(q))) == Usable(duplicate, ds)
    ensures Execute(send, q, fuel) == if duplicate then FanOut(send, q, ds, fuel - 1) else Success(Records(ds))
  {
  }

  /** A usable reply that is not a duplicate waybill yields one record per
      fragment, in order; so a single fragment yields exactly one record. */
  lemma NotDuplicateYieldsRecords(send: Element -> Response, q: Query, fuel: nat, ds: seq<TrackDetails>)
    requires fuel > 0
    requires Classify(send(BuildXml(q))) == Usable(false, ds)
    ensures Execute(send, q, fuel).Success? && |Execute(send, q, fuel).value| == |ds|
    ensures forall k :: 0 <= k < |ds| ==> Execute(send, q, fuel).value[k] == FromDetails(ds[k])
  {
  }

  /** A duplicate-waybill reply is resolved by one sub-query per listed entry,
      each keyed by that entry's unique identifier, with the records of all of
      them concatenated in listing order. */
  lemma DuplicateWaybillConcatenates(
    send: Element -> Response, q: Query, fuel: nat, ds: seq<TrackDetails>, results: seq<seq<Record>>)
    requires fuel > 0
    requires Classify(send(BuildXml(q))) == Usable(true, ds)
    requires |results| == |ds|
    requires forall k :: 0 <= k < |ds| ==> Execute(send, SubQuery(q, ds[k]), fuel - 1) == Success(results[k])
    ensures Execute(send, q, fuel) == Success(Concat(results))
  {
    ExecuteUsable(send, q, fuel, true, ds);
    FanOutConcatenates(send, q, ds, fuel - 1, results);
  }

  /** A duplicate reply whose single entry carries the query's own unique
      identifier yields a sub-query equal to the query itself, so the request
      is issued again and again: the recursion never ends, and no amount of
      fuel gives anything but running out of it. */
  lemma {:induction false} SelfDuplicateNeverEnds(send: Element -> Response, q: Query, d: TrackDetails, fuel: nat)
    requires q.packageType == DefaultPackageType && q.includeDetailedScans && q.pagingToken.None?
    requires d.uniqueIdentifier == q.uuid
    requires Classify(send(BuildXml(q))) == Usable(true, [d])
    ensures Execute(send, q, fuel) == Failure(DepthExceeded)
    decreases fuel
  {
    if fuel > 0 {
      assert SubQuery(q, d) == q;
      SelfDuplicateNeverEnds(send, q, d, fuel - 1);
      ExecuteUsable(send, q, fuel, true, [d]);
      assert [d][..0] == [];
    }
  }

  /** Executes a query: posts its request through `send`, classifies the reply
      and, for a duplicate waybill, runs one sub-query per duplicate entry. */
  method ProcessRequest(send: Element -> Response, q: Query, fuel: nat) returns (r: Result<seq<Record>, ExecError>)
    ensures r == Execute(send, q, fuel)
    decreases fuel, 0
  {
    if fuel == 0 {
      return Failure(DepthExceeded);
    }
    var response := send(BuildXml(q));
    var c := Classify(response);
    match c {
      case HardFailure(m) =>
        r := Failure(RateError(m));
      case PartialFailure(m) =>
        r := Failure(RateError(m));
      case MissingCompletedDetails =>
        r := Failure(MalformedReply);
      case Usable(duplicate, ds) =>
        if !duplicate {
          r := Success(Records(ds));
        } else {
          r := ResolveDuplicates(send, q, ds, fuel - 1);
        }
    }
  }

  /** The duplicate-waybill loop: one sub-query per entry, in order, collecting
      the records and stopping at the first sub-query that fails. */
  method ResolveDuplicates(send: Element -> Response, q: Query, ds: seq<TrackDetails>, fuel: nat)
    returns (r: Result<seq<Record>, ExecError>)
    ensures r == FanOut(send, q, ds, fuel)
    decreases fuel, 1
  {
    var shipments: seq<Record> := [];
    var i := 0;
    while i < |ds|
      invariant 0 <= i <= |ds|
      invariant FanOut(send, q, ds[..i], fuel) == Success(shipments)
    {
      var part := ProcessRequest(send, SubQuery(q, ds[i]), fuel);
      assert ds[..i + 1][..i] == ds[..i];
      if part.Failure? {
        FanOutPrefixFailure(send, q, ds, i + 1, fuel);
        return part;
      }
      FanOutStep(send, q, ds[..i + 1], fuel, shipments, part.value);
      shipments := shipments + part.value;
      i := i + 1;
    }
    assert ds[..i] == ds;
    r := Success(shipments);
  }
}
