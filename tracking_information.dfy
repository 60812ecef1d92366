/** The tracking record projected from one track-details fragment of a reply,
    and the set of package identifier types the carrier recognises. */
module TrackingInformation {
  import opened Wrappers
  import opened ParsedReply

  /** Every package identifier type the carrier recognises, in the source's order. */
  const PackageIdentifierTypes: seq<string> := [
    "BILL_OF_LADING",
    "COD_RETURN_TRACKING_NUMBER",
    "CUSTOMER_AUTHORIZATION_NUMBER",
    "CUSTOMER_REFERENCE",
    "DEPARTMENT",
    "FREE_FORM_REFERENCE",
    "GROUND_INTERNATIONAL",
    "GROUND_SHIPMENT_ID",
    "GROUP_MPS",
    "INVOICE",
    "JOB_GLOBAL_TRACKING_NUMBER",
    "ORDER_GLOBAL_TRACKING_NUMBER",
    "ORDER_TO_PAY_NUMBER",
    "PARTNER_CARRIER_NUMBER",
    "PART_NUMBER",
    "PURCHASE_ORDER",
    "RETURN_MATERIALS_AUTHORIZATION",
    "RETURNED_TO_SHIPPER_TRACKING_NUMBER",
    "TRACKING_CONTROL_NUMBER",
    "TRACKING_NUMBER_OR_DOORTAG",
    "TRANSPORTATION_CONTROL_NUMBER",
    "SHIPPER_REFERENCE",
    "STANDARD_MPS"
  ]

  /** The type a query gets when none is given. */
  const DefaultPackageType: string := "TRACKING_NUMBER_OR_DOORTAG"

  /** The date kind that marks the actual delivery of a shipment. */
  const ActualDelivery: string := "ACTUAL_DELIVERY"

  lemma PackageIdentifierTypesAreDistinct()
    ensures |PackageIdentifierTypes| == 23
    ensures forall i, j :: 0 <= i < j < |PackageIdentifierTypes| ==> PackageIdentifierTypes[i] != PackageIdentifierTypes[j]
    ensures DefaultPackageType in PackageIdentifierTypes && PackageIdentifierTypes[19] == DefaultPackageType
  {
  }

  /** One scan event. How an event reads its own fields is not modelled: it keeps the raw payload. */
  datatype Event = Event(details: Raw)

  /** The tracking snapshot of one resolved shipment. */
  datatype Record = Record(
    trackingNumber: Option<string>,
    uniqueTrackingNumber: Option<string>,
    signatureName: Option<string>,
    otherIdentifiers: Option<Raw>,
    serviceType: Option<string>,
    status: Option<string>,
    statusCode: Option<string>,
    deliveryAt: Option<string>,              // the timestamp text; date parsing is not modelled
    events: seq<Event>,
    details: TrackDetails)

  predicate IsActualDelivery(d: DateOrTime) {
    d.kind == Some(ActualDelivery)
  }

  /** The dated entries whose type is an actual delivery, in their original order. */
  function SelectActualDelivery(ds: seq<DateOrTime>): (r: seq<DateOrTime>)
    ensures forall k :: 0 <= k < |r| ==> IsActualDelivery(r[k])
    ensures forall x :: x in r <==> x in ds && IsActualDelivery(x)
    ensures r != [] ==> exists i :: 0 <= i < |ds| && ds[i] == r[0] && forall j :: 0 <= j < i ==> !IsActualDelivery(ds[j])
  {
    if ds == [] then []
    else
      var rest := SelectActualDelivery(ds[1..]);
      assert forall x :: x in ds <==> x == ds[0] || x in ds[1..];
      if IsActualDelivery(ds[0]) then [ds[0]] + rest
      else
        assert rest != [] ==> (exists i :: 0 <= i < |ds| && ds[i] == rest[0]
                                && forall j :: 0 <= j < i ==> !IsActualDelivery(ds[j])) by {
          if rest != [] {
            var k :| 0 <= k < |ds[1..]| && ds[1..][k] == rest[0]
              && forall j :: 0 <= j < k ==> !IsActualDelivery(ds[1..][j]);
            assert ds[k + 1] == rest[0];
            forall j | 0 <= j < k + 1 ensures !IsActualDelivery(ds[j]) {
              if j > 0 { assert ds[j] == ds[1..][j - 1]; }
            }
          }
        }
        rest
  }

  /** The delivery time of a fragment: the timestamp of its first actual-delivery
      entry, absent when there is no such entry or no dated entries at all. */
  function DeliveryAt(d: TrackDetails): (r: Option<string>)
    ensures d.datesOrTimes.None? ==> r.None?
    ensures d.datesOrTimes.Some? ==>
      (r.Some? <==> exists i :: 0 <= i < |d.datesOrTimes.value| && IsActualDelivery(d.datesOrTimes.value[i]))
    ensures r.Some? ==>
      exists i :: 0 <= i < |d.datesOrTimes.value| && IsActualDelivery(d.datesOrTimes.value[i])
        && d.datesOrTimes.value[i].timestamp == r.value
        && forall j :: 0 <= j < i ==> !IsActualDelivery(d.datesOrTimes.value[j])
  {
    match d.datesOrTimes
    case None => None
    case Some(ds) =>
      var selected := SelectActualDelivery(ds);
      if selected == [] then None
      else Some(selected[0].timestamp)
  }

  /** Ruby's `compact`: the present items, in order. */
  function Compact<T>(xs: seq<Option<T>>): seq<T> {
    if xs == [] then []
    else (if xs[0].Some? then [xs[0].value] else []) + Compact(xs[1..])
  }

  lemma {:induction false} CompactAppend<T>(a: seq<Option<T>>, b: seq<Option<T>>)
    ensures Compact(a + b) == Compact(a) + Compact(b)
  {
    if a == [] {
      assert a + b == b;
    } else {
      assert (a + b)[0] == a[0];
      assert (a + b)[1..] == a[1..] + b;
      CompactAppend(a[1..], b);
    }
  }

  lemma {:induction false} CompactWithoutNils<T>(xs: seq<Option<T>>)
    requires forall i :: 0 <= i < |xs| ==> xs[i].Some?
    ensures |Compact(xs)| == |xs|
    ensures forall i :: 0 <= i < |xs| ==> Compact(xs)[i] == xs[i].value
  {
    if xs != [] {
      CompactWithoutNils(xs[1..]);
      assert forall i :: 1 <= i < |xs| ==> xs[i] == xs[1..][i - 1];
    }
  }

  lemma {:induction false} CompactOnlyNils<T>(xs: seq<Option<T>>)
    requires forall i :: 0 <= i < |xs| ==> xs[i].None?
    ensures Compact(xs) == []
  {
    if xs != [] {
      CompactOnlyNils(xs[1..]);
    }
  }

  lemma CompactSingle<T>(x: Option<T>)
    ensures Compact([x]) == if x.Some? then [x.value] else []
  {
    assert [x][1..] == [];
  }

  /** The events of a fragment: the event field flattened, its nils dropped, and each remaining payload wrapped in an event. */
  function Events(f: Option<OneOrMany<Option<Raw>>>): (r: seq<Event>)
    ensures f.None? ==> r == []
    ensures f == Some(One(None)) ==> r == []
    ensures forall e :: f == Some(One(Some(e))) ==> r == [Event(e)]
    ensures f.Some? && f.value.Many? ==>
      |r| == |Compact(f.value.items)| && forall k :: 0 <= k < |r| ==> r[k] == Event(Compact(f.value.items)[k])
  {
    CompactSingle(if f.Some? && f.value.One? then f.value.item else None);
    ToEvents(Compact(Flatten(f)))
  }

  /** Wraps each payload in an event, keeping the order. */
  function ToEvents(present: seq<Raw>): seq<Event> {
    seq(|present|, k requires 0 <= k < |present| => Event(present[k]))
  }

  lemma ToEventsAppend(a: seq<Raw>, b: seq<Raw>)
    ensures ToEvents(a + b) == ToEvents(a) + ToEvents(b)
  {
  }

  /** A list event field yields one event per non-nil element, in order. */
  lemma EventsOfList(xs: seq<Option<Raw>>, ys: seq<Option<Raw>>)
    ensures Events(Some(Many(xs + ys))) == Events(Some(Many(xs))) + Events(Some(Many(ys)))
    ensures (forall i :: 0 <= i < |xs| ==> xs[i].Some?) ==>
      Events(Some(Many(xs))) == seq(|xs|, i requires 0 <= i < |xs| => Event(xs[i].value))
  {
    CompactAppend(xs, ys);
    ToEventsAppend(Compact(xs), Compact(ys));
    if forall i :: 0 <= i < |xs| ==> xs[i].Some? {
      CompactWithoutNils(xs);
    }
  }

  /** Projects one track-details fragment into a record. */
  function FromDetails(d: TrackDetails): (r: Record)
    ensures r.details == d
    ensures r.trackingNumber == d.trackingNumber && r.uniqueTrackingNumber == d.uniqueIdentifier
    ensures r.signatureName == d.deliverySignatureName && r.otherIdentifiers == d.otherIdentifiers
    ensures d.service.None? ==> r.serviceType.None?
    ensures d.service.Some? ==> r.serviceType == d.service.value.serviceType
    ensures d.statusDetail.None? ==> r.status.None? && r.statusCode.None?
    ensures d.statusDetail.Some? ==>
      r.status == d.statusDetail.value.description && r.statusCode == d.statusDetail.value.code
    ensures r.deliveryAt == DeliveryAt(d) && r.events == Events(d.events)
  {
    Record(
      trackingNumber := d.trackingNumber,
      uniqueTrackingNumber := d.uniqueIdentifier,
      signatureName := d.deliverySignatureName,
      otherIdentifiers := d.otherIdentifiers,
      serviceType := if d.service.Some? then d.service.value.serviceType else None,
      status := if d.statusDetail.Some? then d.statusDetail.value.description else None,
      statusCode := if d.statusDetail.Some? then d.statusDetail.value.code else None,
      deliveryAt := DeliveryAt(d),
      events := Events(d.events),
      details := d)
  }

  /** A record's delivery time is set exactly when the fragment has an
      actual-delivery entry, and then it is the first such entry's timestamp. */
  lemma DeliveryAtOfFirstActual(d: TrackDetails, i: nat)
    requires d.datesOrTimes.Some? && i < |d.datesOrTimes.value|
    requires IsActualDelivery(d.datesOrTimes.value[i])
    requires forall j :: 0 <= j < i ==> !IsActualDelivery(d.datesOrTimes.value[j])
    ensures FromDetails(d).deliveryAt == Some(d.datesOrTimes.value[i].timestamp)
  {
    var ds := d.datesOrTimes.value;
    var r := DeliveryAt(d);
    var k :| 0 <= k < |ds| && IsActualDelivery(ds[k]) && ds[k].timestamp == r.value
      && forall j :: 0 <= j < k ==> !IsActualDelivery(ds[j]);
    assert k == i;
  }
}
