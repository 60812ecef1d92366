# FedEx tracking request and record, modelled in Dafny

This project models the tracking part of a Ruby FedEx web-service client. It covers two classes.

- `Fedex::Request::TrackingInformation` is a tracking query. Its constructor validates the options
  and fills in defaults. It builds the SOAP track request, classifies the parsed reply in two steps
  (the reply as a whole, then the package inside it) and runs the query. For a *duplicate waybill*
  (several shipments sharing the submitted number) it re-queries each duplicate by its unique
  identifier and concatenates the results.
- `Fedex::TrackingInformation` is the record built from one parsed track-details fragment. It also
  holds the list of package identifier types the carrier recognises.

Modules:

- `Wrappers`: `Option` (Ruby's nil) and `Result` (a value or a raised error).
- `XmlTree`: the request as an element tree (an element with children, a text element, or the
  output of a builder helper that is not modelled), plus counting and child lookup.
- `ParsedReply`: the typed shape of a parsed reply. Every field the carrier may omit is optional.
  A field that may be one item or a list is a `OneOrMany`.
- `TrackingInformation`: the identifier-type constant and the record projection.
- `TrackingRequest`: query construction, the request builder, the classifier, and the executor.
  The executor is a spec function `Execute` and a method `ProcessRequest` proved equal to it.

The transport and the reply parser are one function parameter, `send: Element -> Response`.
The executor takes a `fuel` argument. The source recursion has no bound, so fuel bounds how deep
duplicate-waybill sub-queries may nest. When fuel runs out the result is `DepthExceeded`.

Two behaviours of the code worth noting:

- `include_detailed_scans` is computed as `x || true`, so it is always true. Detailed scans are
  therefore always requested.
- For a failed reply, the message comes from the reply's notifications whenever the track reply
  exists. It comes from the SOAP fault only when the track reply is missing.

## Model

| member | source | states |
|---|---|---|
| `TrackingInformation.PackageIdentifierTypesAreDistinct` | lib/fedex/tracking_information.rb:5-29 | the identifier-type list has 23 pairwise distinct entries and contains the default `TRACKING_NUMBER_OR_DOORTAG` |
| `TrackingInformation.SelectActualDelivery` | lib/fedex/tracking_information.rb:52 | the selection holds exactly the actual-delivery entries; when non-empty, its head is the first such entry of the list |
| `TrackingInformation.DeliveryAt` | lib/fedex/tracking_information.rb:51-54 | absent without dated entries; present iff some entry is an actual delivery, and then equal to the timestamp of the first one |
| `TrackingInformation.DeliveryAtOfFirstActual` | lib/fedex/tracking_information.rb:51-54 | a record's delivery time is the timestamp of the first actual-delivery entry of its fragment |
| `TrackingInformation.Compact` | lib/fedex/tracking_information.rb:56 | the definition of `compact` (nils dropped, order kept); its properties are stated by `CompactAppend`, `CompactSingle`, `CompactWithoutNils` and `CompactOnlyNils` |
| `ParsedReply.Flatten` | lib/fedex/tracking_information.rb:56 | the definition of `[x].flatten` on a field that is missing, one item or a list; `Events`, `EventsOfList` and `Classify` state what it yields |
| `TrackingInformation.CompactAppend` | lib/fedex/tracking_information.rb:56 | dropping nils distributes over concatenation, so order is kept |
| `TrackingInformation.CompactWithoutNils` | lib/fedex/tracking_information.rb:56 | a list without nils keeps every element, position by position |
| `TrackingInformation.CompactOnlyNils` | lib/fedex/tracking_information.rb:56 | a list of nils leaves nothing |
| `TrackingInformation.Events` | lib/fedex/tracking_information.rb:56-58 | missing or nil events give no event; a single event gives one; a list gives one event per non-nil element, in order |
| `TrackingInformation.CompactSingle` | lib/fedex/tracking_information.rb:56 | a one-element list keeps its element iff it is not nil |
| `TrackingInformation.ToEventsAppend` | lib/fedex/tracking_information.rb:56-58 | wrapping payloads in events distributes over concatenation |
| `TrackingInformation.EventsOfList` | lib/fedex/tracking_information.rb:56-58 | the events of a list split over concatenation, and a nil-free list yields one event per element in order |
| `TrackingInformation.FromDetails` | lib/fedex/tracking_information.rb:33-59 | tracking number, unique tracking number, signature name and other identifiers are copied, and the fragment is kept; service type is set only when the service block exists, status and status code only when the status block exists |
| `TrackingRequest.NewQuery` | lib/fedex/request/tracking_information.rb:10-25 | without a tracking-number key, a missing package type and then a missing package id are refused; the id falls back to the tracking number and the type to the default; success iff those checks pass and the type is recognised; when they pass and the type is not recognised, the error is `UnknownPackageType` naming it; detailed scans are always on |
| `TrackingRequest.PackageTypeValid` | lib/fedex/request/tracking_information.rb:118-120 | the definition of `package_type_valid?`, membership in the identifier-type list; `NewQuery` and `PackageTypeDecidesConstruction` state its effect |
| `TrackingRequest.PackageTypeDecidesConstruction` | lib/fedex/request/tracking_information.rb:118-120 | a query with a given type and id is built iff the type is recognised; otherwise the error names that type |
| `TrackingRequest.AddPackageIdentifier` | lib/fedex/request/tracking_information.rb:99-104 | the definition of the package identifier block, `Type` then `Value`; stated by `CountInPackageIdentifier` and `SelectionDetailsShape` |
| `TrackingRequest.SelectionDetails` | lib/fedex/request/tracking_information.rb:78-86 | the definition of the selection details block; stated by `SelectionDetailsShape` and `CountOfPackageIdentifier` |
| `TrackingRequest.TrackRequest` | lib/fedex/request/tracking_information.rb:74-88 | the definition of the track request; stated by `BuildXmlShape`, `CountOfTrackRequest`, `ProcessingOptionsShape` and `RequestDeterminesQuery` |
| `TrackingRequest.BuildXml` | lib/fedex/request/tracking_information.rb:69-92 | the definition of `build_xml` as an element tree; stated by `BuildXmlShape` and `RequestDeterminesQuery` |
| `TrackingRequest.CountInPackageIdentifier` | lib/fedex/request/tracking_information.rb:99-104 | the package identifier block holds one `PackageIdentifier` element, itself |
| `TrackingRequest.CountOfPackageIdentifier` | lib/fedex/request/tracking_information.rb:99-104 | the selection details hold exactly one `PackageIdentifier` element, the package identifier block |
| `TrackingRequest.CountOfTrackRequest` | lib/fedex/request/tracking_information.rb:74-88 | the track request holds exactly one `PackageIdentifier` element |
| `TrackingRequest.BuildXmlShape` | lib/fedex/request/tracking_information.rb:69-92 | the whole request holds exactly one `PackageIdentifier`; the track request sits at Envelope/Body/TrackRequest with the selection details inside it; its children are the three helper blocks, then the selection details, then the processing options iff detailed scans are asked for |
| `TrackingRequest.SelectionDetailsShape` | lib/fedex/request/tracking_information.rb:78-86 | the package identifier comes first with `Type` = package type and `Value` = package id; `TrackingNumberUniqueIdentifier` is present iff uuid is set, and `PagingDetail/PagingToken` iff the paging token is set, in that order |
| `TrackingRequest.ProcessingOptionsShape` | lib/fedex/request/tracking_information.rb:87 | `ProcessingOptions INCLUDE_DETAILED_SCANS` is present iff the query asks for detailed scans |
| `TrackingRequest.RequestDeterminesQuery` | lib/fedex/request/tracking_information.rb:69-92 | two queries that build the same request are equal: every field of the query, credentials included, shows in the request |
| `TrackingRequest.DetailedScansAlwaysRequested` | lib/fedex/request/tracking_information.rb:18 | every constructible query emits `ProcessingOptions INCLUDE_DETAILED_SCANS`, whatever the options say |
| `TrackingRequest.IsSuccess` | lib/fedex/request/tracking_information.rb:107-110 | a success needs envelope, body and track reply; when the track reply exists, success iff its highest severity is SUCCESS, WARNING or NOTE |
| `TrackingRequest.IsSuccessTrackingAsWritten` | lib/fedex/request/tracking_information.rb:113-116 | the package check as written raises exactly on a list of fragments and is false when there are none |
| `TrackingRequest.IsSuccessTracking` | lib/fedex/request/tracking_information.rb:113-116 | false without track details; otherwise true iff every fragment's notification severity is SUCCESS, WARNING or NOTE; agrees with the check as written wherever that does not raise |
| `TrackingRequest.SuccessTrackingAsWrittenRaisesOnBatch` | lib/fedex/request/tracking_information.rb:114 | on two fragments that both carry SUCCESS, the check as written raises and the corrected one accepts |
| `TrackingRequest.ReplyMessage` | lib/fedex/request/tracking_information.rb:56-61 | the message of a single reply notification; absent when there are none or there is a list |
| `TrackingRequest.PackageMessage` | lib/fedex/request/tracking_information.rb:37-39 | the notification message of a single fragment; absent whenever the navigation fails |
| `TrackingRequest.Classify` | lib/fedex/request/tracking_information.rb:32-62 | a hard failure iff the reply is not a success, with the reply or fault message; a missing-details failure iff a success lacks completed track details; a partial failure iff the package check fails, with the package message; otherwise usable, with the duplicate flag and the flattened fragments, all of them usable |
| `TrackingRequest.SubQuery` | lib/fedex/request/tracking_information.rb:46-47 | the definition of the sub-query for one duplicate entry; `SubQueryConstructs` proves it is what the constructor builds from line 46's options |
| `TrackingRequest.SubQueryConstructs` | lib/fedex/request/tracking_information.rb:46-47 | the duplicate sub-query always constructs; it keeps the parent's credentials and id, takes the entry's unique identifier, and gets the default type, no paging token and detailed scans |
| `TrackingRequest.Execute` | lib/fedex/request/tracking_information.rb:27-64 | the definition of what `process_request` returns, with fuel bounding the recursion; stated by `FailureRaisesRateError`, `ExecuteUsable`, `NotDuplicateYieldsRecords`, `DuplicateWaybillConcatenates`, the fuel lemmas, and `ProcessRequest` |
| `TrackingRequest.FanOut` | lib/fedex/request/tracking_information.rb:44-49 | the definition of the duplicate loop's result; stated by the `FanOut*` lemmas and `ResolveDuplicates` |
| `TrackingRequest.FanOutStep` | lib/fedex/request/tracking_information.rb:44-49 | one more successful sub-query appends its records after those of the earlier ones |
| `TrackingRequest.FanOutStepFailure` | lib/fedex/request/tracking_information.rb:44-49 | after a failing prefix the fan-out keeps that failure; after a successful prefix, a failing next sub-query gives its error |
| `TrackingRequest.FanOutPrefixFailure` | lib/fedex/request/tracking_information.rb:44-49 | once a prefix of the duplicates fails, the whole fan-out fails with that same error |
| `TrackingRequest.FanOutConcatenates` | lib/fedex/request/tracking_information.rb:44-49 | when every sub-query succeeds, the fan-out returns their records concatenated in listing order |
| `TrackingRequest.FanOutAllSucceed` | lib/fedex/request/tracking_information.rb:44-49 | when every sub-query succeeds, so does the fan-out |
| `TrackingRequest.FanOutFirstFailure` | lib/fedex/request/tracking_information.rb:44-49 | the first sub-query that fails decides the error of the whole fan-out |
| `TrackingRequest.ExecuteFuelMono` | lib/fedex/request/tracking_information.rb:27-64 | a query whose result is not `DepthExceeded` gives the same result with one more level of fuel |
| `TrackingRequest.FanOutFuelMono` | lib/fedex/request/tracking_information.rb:44-49 | a fan-out whose result is not `DepthExceeded` gives the same result with one more level of fuel |
| `TrackingRequest.ExecuteMoreFuel` | lib/fedex/request/tracking_information.rb:27-64 | a result other than `DepthExceeded` stays the same under any amount of extra fuel |
| `TrackingRequest.FailureRaisesRateError` | lib/fedex/request/tracking_information.rb:36-62 | a reply that is not a success, or a failed package check, raises a rate error carrying the classifier's message, possibly absent |
| `TrackingRequest.ExecuteUsable` | lib/fedex/request/tracking_information.rb:43-53 | a usable reply yields one record per fragment when it is not a duplicate waybill, and otherwise the fan-out over its fragments one level down |
| `TrackingRequest.NotDuplicateYieldsRecords` | lib/fedex/request/tracking_information.rb:50-53 | not a duplicate waybill: one record per fragment, in order, each projected from its fragment |
| `TrackingRequest.DuplicateWaybillConcatenates` | lib/fedex/request/tracking_information.rb:43-49 | duplicate waybill: one sub-query per listed entry, keyed by that entry's unique identifier, with the results concatenated in listing order |
| `TrackingRequest.SelfDuplicateNeverEnds` | lib/fedex/request/tracking_information.rb:43-47 | a duplicate reply whose single entry has the query's own unique identifier gives a sub-query equal to the query, so every fuel ends in `DepthExceeded`: the source recursion never ends |
| `TrackingRequest.ResolveDuplicates` | lib/fedex/request/tracking_information.rb:44-49 | the loop over the duplicate entries returns exactly the fan-out `FanOut` specifies, stopping at the first failing sub-query |
| `TrackingRequest.ProcessRequest` | lib/fedex/request/tracking_information.rb:27-64 | the loop over the duplicates returns exactly what `Execute` specifies, early exit on the first failing sub-query included |

## Left out

- The HTTP post and the debug print (lib/fedex/request/tracking_information.rb:28-29) are network and console I/O. Posting and parsing together are the parameter `send`. Transport errors are not modelled, since `send` is total.
- `parse_response`, `api_url`, `requires!` and the `add_web_authentication_detail`, `add_client_detail` and `add_version` helpers live in the base request class, which is not part of this model. The three helpers appear as `Helper` elements.
- `NewQuery`: `requires!` is assumed to refuse a nil or missing value, checking `package_type` before `package_id`, with an error naming the parameter.
- The constructor's `options.delete(:tracking_number)` also removes the key from the caller's hash. That side effect is not modelled.
- XML serialisation, namespaces, the service version in the root namespace and the `soapenv` prefix are not modelled; the model builds the element tree only.
- The three request helpers are modelled as `Helper` elements with their inputs. Web authentication carries the key and password, client detail carries the account and meter numbers, and version carries the service id `trck`. The elements these helpers write, and their layout, are not modelled, because the base request class is not part of this model.
- The SOAP fault message (line 60) is the field `faultMessage` of the parsed reply. Its string formatting is not modelled.
- `rescue $1` (lines 39 and 61) is modelled as an absent message. The model does not couple the message to a regular-expression global.
- The lower-casing of `duplicate_waybill` (line 43) is not modelled. The flag is a boolean decided by the parser.
- `TrackingInformation.DeliveryAt`: `Time.parse` is library date parsing. The delivery time is kept as the timestamp text. Text that would fail to parse is kept as it is, so the model does not capture the error `Time.parse` raises on it. A missing timestamp cannot occur, because the typed reply shape requires one.
- Dated entries are always a list in the typed reply shape. A single entry reaches the source as a hash; `select` on line 52 then passes the hash's keys to the block, and `event[:type]` raises on a key. The model cannot express that reply, so it does not capture that error.
- The body of the gem's `Event` class is not modelled. An event keeps its raw payload.
- Ruby's `flatten` flattens nested lists to any depth. The typed reply shape has at most one level of nesting, so the model flattens one level.
- `ProcessRequest`: the fuel bound and the `DepthExceeded` error are additions; the source recursion has no bound. `ExecuteFuelMono`, `FanOutFuelMono` and `ExecuteMoreFuel` show that fuel only cuts the recursion short: any other result stays the same under more fuel. On a duplicate reply whose single entry repeats the query's own unique identifier (for example both absent), the source at line 47 issues the same request again without end; `SelfDuplicateNeverEnds` shows that the model then runs out of fuel whatever the fuel. The method appends each sub-query's records as it goes instead of collecting lists and flattening at the end. The result is the same.
- `TrackingRequest.IsSuccessTracking` is the corrected package check (see Findings), and the executor uses it. The code as written raises on a list of fragments. With the corrected check, a list of fragments that fails it raises a rate error with an absent message. The message lookup on line 38 still indexes the list by a symbol, and the `rescue` on line 39 turns that error into an absent message.

## Findings

| source | as written | input that shows it | evidently intended | confidence | as-written member | corrected member |
|---|---|---|---|---|---|---|
| lib/fedex/request/tracking_information.rb:113-116 | the package check indexes the track details with a symbol key; when the parser yields a list of fragments (repeated `TrackDetails` elements), Ruby raises a TypeError, so the list handling on lines 45 and 51 is unreachable | a success reply whose track details list two fragments, both with a SUCCESS notification | apply the check to each fragment of the list | medium, not executed | `TrackingRequest.SuccessTrackingAsWrittenRaisesOnBatch` | `TrackingRequest.IsSuccessTracking` |
