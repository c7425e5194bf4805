/**
 * Event retrieval (deepsecurity/events.py): assembling the call parameters
 * from filters, the fixed per-category call table, normalising the manager's
 * reply and indexing the returned events by their id into a collection that
 * is never cleared.
 */
module Events {
  import opened Wrappers
  import opened Values
  import opened Filters
  import opened Transport

  // ---------------------------------------------------------------------
  // _build_call_parms
  // ---------------------------------------------------------------------

  const SoapFilterKeys: set<string> := {"timeFilter", "hostFilter", "eventIdFilter"}

  /** What `create_time_filter()` returns with every argument defaulted. */
  function DefaultTimeFilter(): (r: Result<Value, FilterError>)
    ensures r == Success(VDict(map["rangeFrom" := VNone, "rangeTo" := VNone,
                                   "specificTime" := VNone, "type" := VStr("LAST_7_DAYS")]))
  {
    TimeFilterDefault();
    match CreateTimeFilter(VNone, VNone, VNone, "LAST_7_DAYS")
    case Success(f) => Success(VDict(f.Fields()))
    case Failure(e) => Failure(e)
  }

  /** What `create_host_filter()` returns with every argument defaulted. */
  function DefaultHostFilter(): (r: Result<Value, FilterError>)
    ensures r == Success(VDict(map["hostGroupID" := VNone, "hostID" := VNone,
                                   "securityProfileID" := VNone, "type" := VStr("ALL_HOSTS")]))
  {
    HostFilterDefault();
    match CreateHostFilter(VNone, VNone, VNone, "ALL_HOSTS")
    case Success(f) => Success(VDict(f.Fields()))
    case Failure(e) => Failure(e)
  }

  /** What `create_id_filter()` returns with every argument defaulted. */
  function DefaultIdFilter(): (r: Result<Value, FilterError>)
    ensures r == Success(VDict(map["id" := VInt(0), "operator" := VStr("GREATER_THAN")]))
  {
    IdFilterDefault();
    match CreateIdFilter(0, "GREATER_THAN")
    case Success(f) => Success(VDict(f.Fields()))
    case Failure(e) => Failure(e)
  }

  /**
   * The REST filter used when none is supplied:
   * `create_rest_event_filter(eventId=0, eventIdOp='GT')`. Its `maxItems`
   * is left at None, so building it always fails.
   */
  function DefaultRestFilter(): (r: Result<map<string, Value>, FilterError>)
    ensures r == Failure(MaxItemsNotANumber)
  {
    match CreateRestEventFilter(VInt(0), Some("GT"), VNone, Some("EQ"), None)
    case Success(f) => Success(f.Fields())
    case Failure(e) => Failure(e)
  }

  /** A falsy filter argument is replaced by its builder's default, which always builds. */
  function OrDefault(filter: Value, default: Result<Value, FilterError>): Value
    requires default.Success?
  {
    if Truthy(filter) then filter else default.value
  }

  /** The entries `ext_parms` contributes: all of them if it is a dict, none otherwise. */
  function ExtEntries(extParms: Value): map<string, Value> {
    if extParms.VDict? then extParms.entries else map[]
  }

  /** The three SOAP filters under their keys, each the given one when truthy and its default otherwise. */
  function SoapFilters(timeFilter: Value, hostFilter: Value, idFilter: Value): (r: map<string, Value>)
    ensures r.Keys == SoapFilterKeys
    ensures r["timeFilter"] == (if Truthy(timeFilter) then timeFilter else DefaultTimeFilter().value)
    ensures r["hostFilter"] == (if Truthy(hostFilter) then hostFilter else DefaultHostFilter().value)
    ensures r["eventIdFilter"] == (if Truthy(idFilter) then idFilter else DefaultIdFilter().value)
  {
    map["timeFilter" := OrDefault(timeFilter, DefaultTimeFilter()),
        "hostFilter" := OrDefault(hostFilter, DefaultHostFilter()),
        "eventIdFilter" := OrDefault(idFilter, DefaultIdFilter())]
  }

  /**
   * The parameters of one event call. SOAP calls get the time, host and id
   * filters under fixed keys, each defaulted when falsy; REST calls get the
   * entries of the REST filter (an empty one counts as absent, and its
   * default cannot be built). The entries of a dict `ext_parms` are merged
   * last and win.
   */
  function BuildCallParms(timeFilter: Value, hostFilter: Value, idFilter: Value,
                          restFilter: map<string, Value>, extParms: Value, restApi: bool): (r: Result<map<string, Value>, FilterError>)
    ensures restApi ==> (r.Success? <==> restFilter != map[])
    ensures restApi && r.Success? ==> r.value == restFilter + ExtEntries(extParms)
    ensures restApi && r.Failure? ==> r.error == MaxItemsNotANumber
    ensures !restApi ==> r.Success? && r.value.Keys == SoapFilterKeys + ExtEntries(extParms).Keys
    ensures r.Success? ==> forall k :: k in ExtEntries(extParms) ==> r.value[k] == ExtEntries(extParms)[k]
    ensures !restApi && "timeFilter" !in ExtEntries(extParms) ==>
      r.value["timeFilter"] == (if Truthy(timeFilter) then timeFilter else DefaultTimeFilter().value)
    ensures !restApi && "hostFilter" !in ExtEntries(extParms) ==>
      r.value["hostFilter"] == (if Truthy(hostFilter) then hostFilter else DefaultHostFilter().value)
    ensures !restApi && "eventIdFilter" !in ExtEntries(extParms) ==>
      r.value["eventIdFilter"] == (if Truthy(idFilter) then idFilter else DefaultIdFilter().value)
  {
    if !restApi then
      Success(SoapFilters(timeFilter, hostFilter, idFilter) + ExtEntries(extParms))
    else if restFilter != map[] then
      Success(restFilter + ExtEntries(extParms))
    else
      match DefaultRestFilter()
      case Success(f) => Success(f + ExtEntries(extParms))
      case Failure(e) => Failure(e)
  }

  /** An `ext_parms` that is not a dict leaves the parameters as they were. */
  lemma NonDictExtParmsIgnored(timeFilter: Value, hostFilter: Value, idFilter: Value,
                               restFilter: map<string, Value>, extParms: Value, restApi: bool)
    requires !extParms.VDict?
    ensures BuildCallParms(timeFilter, hostFilter, idFilter, restFilter, extParms, restApi)
         == BuildCallParms(timeFilter, hostFilter, idFilter, restFilter, VNone, restApi)
  {
  }

  // ---------------------------------------------------------------------
  // The per-category call table
  // ---------------------------------------------------------------------

  /** One class of events.py per category. */
  datatype Category =
    | SystemEvents
    | AntiMalwareEvents
    | WebReputationEvents
    | FirewallEvents
    | IntrusionPreventionEvents
    | IntegrityMonitoringEvents
    | LogInspectionEvents
    | ApplicationControlEvents

  /** Which transports each category's `get` can use. */
  predicate Supports(c: Category, api: Api) {
    match c
    case SystemEvents | FirewallEvents | IntrusionPreventionEvents => api == Soap
    case ApplicationControlEvents => api == Rest
    case AntiMalwareEvents | WebReputationEvents | IntegrityMonitoringEvents | LogInspectionEvents => true
  }

  /**
   * The REST calls whose reply is a generic `ListEventsResponse`: integrity
   * monitoring, log inspection and application control.
   */
  predicate ListsEventsResponse(c: Category, api: Api) {
    api == Rest && (c == IntegrityMonitoringEvents || c == LogInspectionEvents || c == ApplicationControlEvents)
  }

  function Entrypoint(c: Category, api: Api): string
    requires Supports(c, api)
  {
    match c
    case SystemEvents => "systemEventRetrieve2"
    case AntiMalwareEvents => if api == Rest then "events/antimalware" else "antiMalwareEventRetrieve2"
    case WebReputationEvents => if api == Rest then "events/webreputation" else "webReputationEventRetrieve2"
    case FirewallEvents => "firewallEventRetrieve2"
    case IntrusionPreventionEvents => "DPIEventRetrieve2"
    case IntegrityMonitoringEvents => if api == Rest then "events/integrity" else "IntegrityEventRetrieve2"
    case LogInspectionEvents => if api == Rest then "events/logInspection" else "logInspectionEventRetrieve2"
    case ApplicationControlEvents => "events/appcontrol"
  }

  /** The category and transport an entrypoint name belongs to. */
  function Route(call: string): Option<(Category, Api)> {
    if call == "systemEventRetrieve2" then Some((SystemEvents, Soap))
    else if call == "events/antimalware" then Some((AntiMalwareEvents, Rest))
    else if call == "antiMalwareEventRetrieve2" then Some((AntiMalwareEvents, Soap))
    else if call == "events/webreputation" then Some((WebReputationEvents, Rest))
    else if call == "webReputationEventRetrieve2" then Some((WebReputationEvents, Soap))
    else if call == "firewallEventRetrieve2" then Some((FirewallEvents, Soap))
    else if call == "DPIEventRetrieve2" then Some((IntrusionPreventionEvents, Soap))
    else if call == "events/integrity" then Some((IntegrityMonitoringEvents, Rest))
    else if call == "IntegrityEventRetrieve2" then Some((IntegrityMonitoringEvents, Soap))
    else if call == "events/logInspection" then Some((LogInspectionEvents, Rest))
    else if call == "logInspectionEventRetrieve2" then Some((LogInspectionEvents, Soap))
    else if call == "events/appcontrol" then Some((ApplicationControlEvents, Rest))
    else None
  }

  /** The entrypoint names tell every category/transport pair apart. */
  lemma EntrypointsIdentifyCalls(c: Category, api: Api)
    requires Supports(c, api)
    ensures Route(Entrypoint(c, api)) == Some((c, api))
  {
  }

  /**
   * The field of an event record that identifies it: the generic `eventID`
   * exactly in a `ListEventsResponse`, a category-named one otherwise.
   */
  function IdField(c: Category, api: Api): (r: string)
    requires Supports(c, api)
    ensures r == "eventID" <==> ListsEventsResponse(c, api)
  {
    match c
    case SystemEvents => "systemEventID"
    case AntiMalwareEvents => "antiMalwareEventID"
    case WebReputationEvents => "webReputationEventID"
    case FirewallEvents => "firewallEventID"
    case IntrusionPreventionEvents => "intrusionEventID"
    case IntegrityMonitoringEvents => if api == Rest then "eventID" else "integrityEventID"
    case LogInspectionEvents => if api == Rest then "eventID" else "logInspectionEventID"
    case ApplicationControlEvents => "eventID"
  }

  /** The keys under which the event list sits in the first element of the reply data. */
  function ResponsePath(c: Category, api: Api): (r: seq<string>)
    requires Supports(c, api)
    ensures 1 <= |r| <= 2
    ensures r == ["ListEventsResponse", "events"] <==> ListsEventsResponse(c, api)
  {
    match c
    case SystemEvents => ["systemEvents"]
    case AntiMalwareEvents =>
      if api == Rest then ["antiMalwareEventListing", "events"] else ["antiMalwareEvents"]
    case WebReputationEvents =>
      if api == Rest then ["WebReputationEventListing", "WebReputationEvent"] else ["webReputationEvents"]
    case FirewallEvents => ["firewallEvents"]
    case IntrusionPreventionEvents => ["DPIEvents"]
    case IntegrityMonitoringEvents =>
      if api == Rest then ["ListEventsResponse", "events"]
      else ["integrityEventRetrieve2Return", "integrityEvents"]
    case LogInspectionEvents =>
      if api == Rest then ["ListEventsResponse", "events"] else ["logInspectionEvents"]
    case ApplicationControlEvents => ["ListEventsResponse", "events"]
  }

  /** The `cookieAuth` argument of each call site; True unless the call site passes False. */
  predicate UsesCookieAuth(c: Category, api: Api)
    requires Supports(c, api)
  {
    match c
    case AntiMalwareEvents | WebReputationEvents => api == Soap
    case _ => true
  }

  /** The arguments of a `get` call; each category reads only those its signature has. */
  datatype FetchArgs = FetchArgs(timeFilter: Value, hostFilter: Value, idFilter: Value,
                                 restFilter: map<string, Value>,
                                 includeNonHostEvents: bool, extendedDesc: bool)

  /** Every argument left at its default. */
  const DefaultArgs := FetchArgs(VNone, VNone, VNone, map[], true, true)

  /** The parameters each call site builds. */
  function CallParms(c: Category, api: Api, args: FetchArgs): Result<map<string, Value>, FilterError>
    requires Supports(c, api)
  {
    match api
    case Soap =>
      var ext := if c == SystemEvents
        then VDict(map["includeNonHostEvents" := VBool(args.includeNonHostEvents)])
        else VNone;
      BuildCallParms(args.timeFilter, args.hostFilter, args.idFilter, map[], ext, false)
    case Rest =>
      if c == IntegrityMonitoringEvents then
        // called without REST_API: SOAP-shaped parameters, the REST filter unused
        BuildCallParms(VNone, VNone, VNone, args.restFilter,
                       VDict(map["extendedDesc" := VBool(args.extendedDesc)]), false)
      else
        BuildCallParms(VNone, VNone, VNone, args.restFilter, VNone, true)
  }

  /** The request a `get` call sends: REST calls carry their parameters as the query, SOAP calls as the data. */
  function CallFor(c: Category, api: Api, args: FetchArgs): Result<Request, FilterError>
    requires Supports(c, api)
  {
    var parms :- CallParms(c, api, args);
    Success(Request(api, Entrypoint(c, api), UsesCookieAuth(c, api),
                    if api == Rest then Some(parms) else None,
                    if api == Soap then Some(parms) else None))
  }

  /** Only the anti-malware and web-reputation REST calls switch cookie authentication off. */
  lemma CookieAuthOffOnlyForAntiMalwareAndWebReputationRest(c: Category, api: Api, args: FetchArgs)
    requires Supports(c, api)
    requires CallFor(c, api, args).Success?
    ensures !CallFor(c, api, args).value.useCookieAuth
        <==> api == Rest && (c == AntiMalwareEvents || c == WebReputationEvents)
  {
  }

  /** A SOAP call always goes out, with the three filters (defaulted where falsy) in its data. */
  lemma SoapCallCarriesAllFilters(c: Category, args: FetchArgs)
    requires Supports(c, Soap)
    ensures CallFor(c, Soap, args).Success?
    ensures CallFor(c, Soap, args).value.query.None?
    ensures CallFor(c, Soap, args).value.data.Some?
    ensures SoapFilterKeys <= CallFor(c, Soap, args).value.data.value.Keys
    ensures CallFor(c, Soap, args).value.data.value["timeFilter"]
         == (if Truthy(args.timeFilter) then args.timeFilter else DefaultTimeFilter().value)
    ensures CallFor(c, Soap, args).value.data.value["hostFilter"]
         == (if Truthy(args.hostFilter) then args.hostFilter else DefaultHostFilter().value)
    ensures CallFor(c, Soap, args).value.data.value["eventIdFilter"]
         == (if Truthy(args.idFilter) then args.idFilter else DefaultIdFilter().value)
    ensures c == SystemEvents ==>
      CallFor(c, Soap, args).value.data.value["includeNonHostEvents"] == VBool(args.includeNonHostEvents)
  {
  }

  /**
   * A REST call (other than integrity monitoring) sends exactly the given
   * REST filter as its query, and cannot be made without one.
   */
  lemma RestCallNeedsFilter(c: Category, args: FetchArgs)
    requires Supports(c, Rest) && c != IntegrityMonitoringEvents
    ensures CallFor(c, Rest, args).Success? <==> args.restFilter != map[]
    ensures CallFor(c, Rest, args).Success? ==>
      CallFor(c, Rest, args).value.query == Some(args.restFilter) && CallFor(c, Rest, args).value.data.None?
    ensures CallFor(c, Rest, args).Failure? ==> CallFor(c, Rest, args).error == MaxItemsNotANumber
  {
    assert args.restFilter + ExtEntries(VNone) == args.restFilter;
  }

  /** With every argument left at its default, integrity monitoring is the only REST call that can be made. */
  lemma RestDefaultsFailExceptIntegrity(c: Category)
    requires Supports(c, Rest)
    ensures CallFor(c, Rest, DefaultArgs).Success? <==> c == IntegrityMonitoringEvents
  {
    if c != IntegrityMonitoringEvents {
      RestCallNeedsFilter(c, DefaultArgs);
    } else {
      IntegrityRestIgnoresRestFilter(DefaultArgs);
    }
  }

  /**
   * The integrity-monitoring REST call builds SOAP-shaped parameters plus
   * `extendedDesc`, whatever REST filter it is given.
   */
  lemma IntegrityRestIgnoresRestFilter(args: FetchArgs)
    ensures CallFor(IntegrityMonitoringEvents, Rest, args)
         == CallFor(IntegrityMonitoringEvents, Rest, args.(restFilter := map[]))
    ensures CallFor(IntegrityMonitoringEvents, Rest, args).Success?
    ensures CallFor(IntegrityMonitoringEvents, Rest, args).value.api == Rest
    ensures CallFor(IntegrityMonitoringEvents, Rest, args).value.query
         == Some(map["timeFilter" := DefaultTimeFilter().value, "hostFilter" := DefaultHostFilter().value,
                     "eventIdFilter" := DefaultIdFilter().value, "extendedDesc" := VBool(args.extendedDesc)])
  {
    var ext := VDict(map["extendedDesc" := VBool(args.extendedDesc)]);
    var parms := BuildCallParms(VNone, VNone, VNone, args.restFilter, ext, false).value;
    var expected := map["timeFilter" := DefaultTimeFilter().value, "hostFilter" := DefaultHostFilter().value,
                        "eventIdFilter" := DefaultIdFilter().value, "extendedDesc" := VBool(args.extendedDesc)];
    assert parms.Keys == expected.Keys;
    assert parms == expected;
  }

  // ---------------------------------------------------------------------
  // _make_call: normalising the reply
  // ---------------------------------------------------------------------

  /** The reply data after `_make_call`: a 200 reply whose data is not a list gets it wrapped. */
  function NormalizeData(status: int, data: Value): (r: Value)
    ensures status == 200 ==> r.VList?
    ensures status != 200 || data.VList? ==> r == data
    ensures status == 200 && !data.VList? ==> r == VList([data])
  {
    if status == 200 && !data.VList? then VList([data]) else data
  }

  lemma NormalizeIsIdempotent(status: int, data: Value)
    ensures NormalizeData(status, NormalizeData(status, data)) == NormalizeData(status, data)
  {
  }

  /**
   * `_make_call`: the request goes to the manager, and the manager's reply
   * has its data normalised in place and is handed back.
   */
  method MakeCall(manager: Manager, req: Request, reply: Reply?) returns (resp: Reply?)
    modifies manager, reply
    ensures resp == reply
    ensures manager.sent == old(manager.sent) + [req]
    ensures manager.log == old(manager.log) && manager.actions == old(manager.actions)
    ensures reply != null ==> reply.status == old(reply.status)
    ensures reply != null ==> reply.data == NormalizeData(old(reply.status), old(reply.data))
  {
    manager.Send(req);
    resp := reply;
    if resp != null && resp.status == 200 && !resp.data.VList? {
      resp.data := VList([resp.data]);
    }
  }

  // ---------------------------------------------------------------------
  // Reading the events out of the reply
  // ---------------------------------------------------------------------

  datatype FetchError =
    | InvalidFilter(cause: FilterError)  // a filter could not be built
    | NoManager                          // None._get_request_format
    | NoResponse                         // the manager returned nothing
    | UnexpectedResponse                 // the reply lacks the category's nesting
    | BadEvent(index: nat)               // this event has no usable id

  /** Follows a path of keys through nested dicts. */
  function Descend(v: Value, path: seq<string>): Result<Value, FetchError>
    decreases |path|
  {
    if path == [] then Success(v)
    else if v.VDict? && path[0] in v.entries then Descend(v.entries[path[0]], path[1..])
    else Failure(UnexpectedResponse)
  }

  /**
   * The elements a `for` loop visits. Iterating a non-empty string or dict
   * yields strings, and the first of them fails as an event at once.
   */
  function Iterated(v: Value): Result<seq<Value>, FetchError> {
    match v
    case VList(l) => Success(l)
    case VStr(s) => if s == "" then Success([]) else Failure(BadEvent(0))
    case VDict(m) => if m == map[] then Success([]) else Failure(BadEvent(0))
    case _ => Failure(UnexpectedResponse)
  }

  /** `response['data'][0][path...]`, iterated. */
  function ResponseEvents(data: Value, path: seq<string>): Result<seq<Value>, FetchError> {
    if data.VList? && data.elems != [] then
      var listing :- Descend(data.elems[0], path);
      Iterated(listing)
    else
      Failure(UnexpectedResponse)
  }

  // ---------------------------------------------------------------------
  // Indexing events by id
  // ---------------------------------------------------------------------

  /** The collection: event id to event record. */
  type EventIndex = map<Value, map<string, Value>>

  /** `event[key]`, when the event is a dict holding a hashable value under `key`. */
  function EventId(ev: Value, key: string): Option<Value> {
    if ev.VDict? && key in ev.entries && Hashable(ev.entries[key]) then Some(ev.entries[key]) else None
  }

  predicate Keyed(ev: Value, key: string) {
    EventId(ev, key).Some?
  }

  predicate AllKeyed(evs: seq<Value>, key: string) {
    forall i :: 0 <= i < |evs| ==> Keyed(evs[i], key)
  }

  function Record(ev: Value): map<string, Value> {
    if ev.VDict? then ev.entries else map[]
  }

  /** The ids of a run of events. */
  function Ids(evs: seq<Value>, key: string): set<Value>
    requires AllKeyed(evs, key)
  {
    set i | 0 <= i < |evs| :: EventId(evs[i], key).value
  }

  /** The number of leading events that carry an id: how far the loop gets. */
  function KeyedPrefix(evs: seq<Value>, key: string): (n: nat)
    ensures n <= |evs|
    ensures AllKeyed(evs[..n], key)
    ensures n < |evs| ==> !Keyed(evs[n], key)
  {
    if evs == [] || !Keyed(evs[0], key) then 0
    else 1 + KeyedPrefix(evs[1..], key)
  }

  /** The collection after inserting events one by one, a later event replacing an earlier one with its id. */
  function Inserted(m: EventIndex, evs: seq<Value>, key: string): EventIndex
    requires AllKeyed(evs, key)
    decreases |evs|
  {
    if evs == [] then m
    else
      var last := evs[|evs| - 1];
      Inserted(m, evs[..|evs| - 1], key)[EventId(last, key).value := Record(last)]
  }

  /** What the insertion loop leaves behind and returns. */
  function Indexed(m: EventIndex, evs: seq<Value>, key: string): (Result<nat, FetchError>, EventIndex) {
    var n := KeyedPrefix(evs, key);
    var m' := Inserted(m, evs[..n], key);
    (if n == |evs| then Success(|m'|) else Failure(BadEvent(n)), m')
  }

  /** One more keyed event extends the run the loop can store, and is inserted last. */
  lemma KeyedStep(m: EventIndex, evs: seq<Value>, key: string, i: nat)
    requires i < |evs| && i <= KeyedPrefix(evs, key) && Keyed(evs[i], key)
    ensures i + 1 <= KeyedPrefix(evs, key)
    ensures AllKeyed(evs[..i + 1], key) && AllKeyed(evs[..i], key)
    ensures Inserted(m, evs[..i + 1], key) == Inserted(m, evs[..i], key)[EventId(evs[i], key).value := Record(evs[i])]
  {
    var n := KeyedPrefix(evs, key);
    assert forall j :: 0 <= j < i + 1 ==> evs[..i + 1][j] == evs[..n][j];
    assert evs[..i + 1][..i] == evs[..i];
  }

  /** The first event without a usable id ends the run the loop can store. */
  lemma KeyedStop(evs: seq<Value>, key: string, i: nat)
    requires i < |evs| && i <= KeyedPrefix(evs, key) && !Keyed(evs[i], key)
    ensures KeyedPrefix(evs, key) == i
  {
  }

  /** Inserting events is a union in which the events win. */
  lemma {:induction false} InsertedIsUnion(m: EventIndex, evs: seq<Value>, key: string)
    requires AllKeyed(evs, key)
    ensures Inserted(m, evs, key) == m + Inserted(map[], evs, key)
  {
    if evs != [] {
      var init := evs[..|evs| - 1];
      InsertedIsUnion(m, init, key);
    }
  }

  /** After insertion the ids stored are the earlier ones plus those of the events. */
  lemma {:induction false} InsertedKeys(m: EventIndex, evs: seq<Value>, key: string)
    requires AllKeyed(evs, key)
    ensures Inserted(m, evs, key).Keys == m.Keys + Ids(evs, key)
  {
    if evs != [] {
      var init := evs[..|evs| - 1];
      InsertedKeys(m, init, key);
      assert Ids(evs, key) == Ids(init, key) + {EventId(evs[|evs| - 1], key).value} by {
        forall x | x in Ids(evs, key) ensures x in Ids(init, key) + {EventId(evs[|evs| - 1], key).value} {
          var i :| 0 <= i < |evs| && x == EventId(evs[i], key).value;
          if i < |evs| - 1 {
            assert init[i] == evs[i];
          }
        }
        forall x | x in Ids(init, key) ensures x in Ids(evs, key) {
          var i :| 0 <= i < |init| && x == EventId(init[i], key).value;
          assert evs[i] == init[i];
        }
      }
    }
  }

  /** Each event is stored unless a later event has the same id. */
  lemma {:induction false} InsertedLatest(m: EventIndex, evs: seq<Value>, key: string, i: nat)
    requires AllKeyed(evs, key)
    requires i < |evs|
    requires forall j :: i < j < |evs| ==> EventId(evs[j], key) != EventId(evs[i], key)
    ensures EventId(evs[i], key).value in Inserted(m, evs, key)
    ensures Inserted(m, evs, key)[EventId(evs[i], key).value] == Record(evs[i])
  {
    if i < |evs| - 1 {
      var init := evs[..|evs| - 1];
      assert init[i] == evs[i];
      InsertedLatest(m, init, key, i);
    }
  }

  /** Fetching the same events again changes nothing. */
  lemma RefetchIsIdempotent(m: EventIndex, evs: seq<Value>, key: string)
    requires AllKeyed(evs, key)
    ensures Inserted(Inserted(m, evs, key), evs, key) == Inserted(m, evs, key)
  {
    var added := Inserted(map[], evs, key);
    InsertedIsUnion(m, evs, key);
    InsertedIsUnion(Inserted(m, evs, key), evs, key);
    assert (m + added) + added == m + added;
  }

  /** Fetching an event whose id is stored keeps the count and replaces the record. */
  lemma ReinsertKeepsCount(m: EventIndex, ev: Value, key: string)
    requires Keyed(ev, key) && EventId(ev, key).value in m
    ensures |Inserted(m, [ev], key)| == |m|
    ensures Inserted(m, [ev], key)[EventId(ev, key).value] == Record(ev)
  {
    assert [ev][..0] == [];
  }

  /**
   * The insertion loop: every event, in order, is stored under its id until
   * one lacks a usable id; the result is the size of the whole collection.
   */
  lemma IndexedStoresEvents(m: EventIndex, evs: seq<Value>, key: string)
    ensures Indexed(m, evs, key).0.Success? <==> AllKeyed(evs, key)
    ensures Indexed(m, evs, key).0.Success? ==>
      && Indexed(m, evs, key).1.Keys == m.Keys + Ids(evs, key)
      && Indexed(m, evs, key).0.value == |Indexed(m, evs, key).1|
    ensures Indexed(m, evs, key).0.Success? ==>
      forall i :: 0 <= i < |evs| && (forall j :: i < j < |evs| ==> EventId(evs[j], key) != EventId(evs[i], key))
        ==> Indexed(m, evs, key).1[EventId(evs[i], key).value] == Record(evs[i])
    ensures m.Keys <= Indexed(m, evs, key).1.Keys
  {
    var n := KeyedPrefix(evs, key);
    InsertedKeys(m, evs[..n], key);
    if n == |evs| {
      assert evs[..n] == evs;
      forall i | 0 <= i < |evs| && (forall j :: i < j < |evs| ==> EventId(evs[j], key) != EventId(evs[i], key))
        ensures Indexed(m, evs, key).1[EventId(evs[i], key).value] == Record(evs[i])
      {
        InsertedLatest(m, evs, key, i);
      }
    }
  }

  // ---------------------------------------------------------------------
  // One `get` call, as a specification
  // ---------------------------------------------------------------------

  /**
   * The outcome of `get` (its result and the collection afterwards), given
   * the collection before, whether a manager is attached and the manager's
   * reply. A failure before the reply is read leaves the collection alone.
   */
  function Fetch(m: EventIndex, c: Category, api: Api, args: FetchArgs,
                 hasManager: bool, reply: Option<Response>): (Result<nat, FetchError>, EventIndex)
    requires Supports(c, api)
  {
    match CallFor(c, api, args)
    case Failure(e) => (Failure(InvalidFilter(e)), m)
    case Success(_) =>
      if !hasManager then (Failure(NoManager), m)
      else if reply.None? then (Failure(NoResponse), m)
      else
        match ResponseEvents(NormalizeData(reply.value.status, reply.value.data), ResponsePath(c, api))
        case Failure(e) => (Failure(e), m)
        case Success(evs) => Indexed(m, evs, IdField(c, api))
  }

  /** A successful `get` returns the number of ids now stored, earlier ones included. */
  lemma FetchCountsAllStoredIds(m: EventIndex, c: Category, api: Api, args: FetchArgs,
                                hasManager: bool, reply: Option<Response>)
    requires Supports(c, api)
    ensures Fetch(m, c, api, args, hasManager, reply).0.Success? ==>
      Fetch(m, c, api, args, hasManager, reply).0.value == |Fetch(m, c, api, args, hasManager, reply).1|
    ensures m.Keys <= Fetch(m, c, api, args, hasManager, reply).1.Keys
  {
    var call := CallFor(c, api, args);
    if call.Success? && hasManager && reply.Some? {
      var evs := ResponseEvents(NormalizeData(reply.value.status, reply.value.data), ResponsePath(c, api));
      if evs.Success? {
        IndexedStoresEvents(m, evs.value, IdField(c, api));
      }
    }
  }

  /** Repeating a successful `get` with the same reply leaves the collection and the count as they were. */
  lemma FetchIsIdempotent(m: EventIndex, c: Category, api: Api, args: FetchArgs,
                          hasManager: bool, reply: Option<Response>)
    requires Supports(c, api)
    requires Fetch(m, c, api, args, hasManager, reply).0.Success?
    ensures Fetch(Fetch(m, c, api, args, hasManager, reply).1, c, api, args, hasManager, reply)
         == Fetch(m, c, api, args, hasManager, reply)
  {
    var evs := ResponseEvents(NormalizeData(reply.value.status, reply.value.data), ResponsePath(c, api)).value;
    var key := IdField(c, api);
    assert KeyedPrefix(evs, key) == |evs|;
    assert evs[..|evs|] == evs;
    RefetchIsIdempotent(m, evs, key);
  }

  // ---------------------------------------------------------------------
  // The collections
  // ---------------------------------------------------------------------

  /** One `*Events` object: a keyed collection of the events fetched so far. */
  class EventCollection {
    const category: Category
    const manager: Manager?
    var items: EventIndex

    constructor (category: Category, manager: Manager?)
      ensures this.category == category && this.manager == manager
      ensures items == map[]
    {
      this.category := category;
      this.manager := manager;
      items := map[];
    }

    /** The loop of `get`: `self[event[key]] = event` for each event, then `len(self)`. */
    method Index(evs: seq<Value>, key: string) returns (r: Result<nat, FetchError>)
      modifies this
      ensures (r, items) == Indexed(old(items), evs, key)
    {
      var i := 0;
      while i < |evs|
        invariant i <= KeyedPrefix(evs, key)
        invariant items == Inserted(old(items), evs[..i], key)
      {
        var id := EventId(evs[i], key);
        if id.None? {
          KeyedStop(evs, key, i);
          return Failure(BadEvent(i));
        }
        KeyedStep(old(items), evs, key, i);
        items := items[id.value := Record(evs[i])];
        i := i + 1;
      }
      assert evs[..i] == evs;
      r := Success(|items|);
    }

    /**
     * `get`: build the call, send it through the manager, read the events
     * out of the reply and index them.
     */
    method Get(api: Api, args: FetchArgs, reply: Reply?) returns (r: Result<nat, FetchError>)
      requires Supports(category, api)
      modifies this, manager, reply
      ensures (r, items) == Fetch(old(items), category, api, args, manager != null,
                                  if reply == null then None else Some(old(reply.View())))
      ensures manager != null ==> manager.log == old(manager.log) && manager.actions == old(manager.actions)
      ensures manager != null ==>
        manager.sent == old(manager.sent)
                        + (if CallFor(category, api, args).Success? then [CallFor(category, api, args).value] else [])
      ensures reply != null ==> reply.status == old(reply.status)
      ensures reply != null ==>
        reply.data == (if manager != null && CallFor(category, api, args).Success?
                       then NormalizeData(old(reply.status), old(reply.data)) else old(reply.data))
    {
      var call := CallFor(category, api, args);
      if call.Failure? {
        return Failure(InvalidFilter(call.error));
      }
      if manager == null {
        return Failure(NoManager);
      }
      var resp := MakeCall(manager, call.value, reply);
      if resp == null {
        return Failure(NoResponse);
      }
      var evs := ResponseEvents(resp.data, ResponsePath(category, api));
      if evs.Failure? {
        return Failure(evs.error);
      }
      r := Index(evs.value, IdField(category, api));
    }
  }
}
