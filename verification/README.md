# deep-security-py core, modelled in Dafny

This project models three parts of the Python client for the Deep Security
Manager.

- **Filters** (`Filters.dfy`, from `deepsecurity/filters.py`). These are the
  enumerations of filter types and operators, and the operator check
  `_format_and_validate_operator`, which upper-cases and then looks up. It
  also covers the six filter builders: host, time, id, tag, external and
  REST event. Each builder returns its filter record or the error Python
  raises. A failed operator assertion becomes `InvalidOperator(validOps)`.
  `int(None)` on a missing `maxItems` becomes `MaxItemsNotANumber`.
- **Event retrieval** (`Events.dfy`, from `deepsecurity/events.py`):
  - `_build_call_parms`.
  - The per-category call table. `Supports` gives the transports each
    category's `get` can use. `CallParms` gives the arguments each call site
    passes to `_build_call_parms`. The table also holds the entrypoint,
    cookie authentication, the path to the event list and the id field.
  - The list normalisation of `_make_call`.
  - The `get` of each of the eight `*Events` collections. `get` is a method
    of the class `EventCollection`. It sends the request through the
    manager, normalises the reply in place and indexes the events by id
    into `items`, which is never cleared. The pure function `Fetch`
    specifies the method.
- **Computer records** (`Computer.dfy`, from `deepsecurity/computer.py`).
  The constructor walks the fixed rename table. It copies each present host
  detail onto the record under its new name, and logs each absent one
  through the manager. It then counts the interfaces. The five action
  methods pass the host id to the manager.

`Wrappers.dfy` holds `Option` and `Result`. `Values.dfy` models the Python
values the code handles, with Python truthiness. `Transport.dfy` models the
manager as the traces of what it is asked to do (requests sent, log lines,
actions) and a reply object whose `data` can be rewritten.

Two behaviours of the code are modelled as written, even where the
docstrings promise otherwise:
- The default REST filter, `create_rest_event_filter(eventId=0, eventIdOp='GT')`,
  leaves `maxItems` at `None`, and `int(None)` raises. So every REST `get`
  other than integrity monitoring fails without a REST filter
  (`RestCallNeedsFilter`, `RestDefaultsFailExceptIntegrity`).
- The integrity-monitoring REST call does not pass `REST_API` to
  `_build_call_parms`. It therefore sends the three default SOAP filters
  plus `extendedDesc`, and ignores the REST filter it is given
  (`IntegrityRestIgnoresRestFilter`).

## Model

| member | source | states |
|---|---|---|
| Filters.Upper | deepsecurity/filters.py:64 | upper-casing keeps the length, changes only lower-case letters, leaves no lower-case letter, and is the identity on text that has none |
| Filters.FormatAndValidateOperator | deepsecurity/filters.py:63-66 | succeeds exactly when the upper-cased operator is in the valid list, and then returns the upper-cased operator; otherwise fails naming the valid list |
| Filters.ValidateIsIdempotent | deepsecurity/filters.py:63-66 | validating an already validated operator returns it unchanged |
| Filters.CreateHostFilter | deepsecurity/filters.py:68-89 | succeeds iff the operator is a host filter type in any case; the three ids pass through unchanged and the type is stored upper-cased; otherwise fails naming the host filter types |
| Filters.CreateTimeFilter | deepsecurity/filters.py:91-109 | succeeds iff the operator is a time filter type in any case; the three times pass through and the type is stored upper-cased; otherwise fails naming the time filter types |
| Filters.CreateIdFilter | deepsecurity/filters.py:111-129 | succeeds iff the operator is one of GREATER_THAN, LESS_THAN, EQUAL in any case; the id passes through and the operator is stored upper-cased |
| Filters.CreateTagFilter | deepsecurity/filters.py:131-146 | succeeds iff the operator is a tag filter type in any case; the tags pass through and the type is stored upper-cased |
| Filters.CreateExternalFilter | deepsecurity/filters.py:148-161 | succeeds iff the operator is an external filter type in any case; each absent id is stored as the text "None", a present one unchanged |
| Filters.CreateRestEventFilter | deepsecurity/filters.py:163-203 | a missing maxItems fails before the operators are looked at; otherwise succeeds iff each given operator is a REST operator in any case; an operator that is not given is stored as None; maxItems is at least 1, equals the input when that is at least 1, and is 1 otherwise |
| Filters.HostFilterDefault | deepsecurity/filters.py:68-69 | the default host filter is ALL_HOSTS with no ids |
| Filters.TimeFilterDefault | deepsecurity/filters.py:91-92 | the default time filter is LAST_7_DAYS with no times |
| Filters.IdFilterDefault | deepsecurity/filters.py:111 | the default id filter selects ids GREATER_THAN 0 |
| Filters.TagFilterDefault | deepsecurity/filters.py:131 | the default tag filter is ALL with no tags |
| Filters.ExternalFilterDefault | deepsecurity/filters.py:148-161 | the default external filter is ALL_EXT_HOSTS with both ids the text "None" |
| Filters.IdOperatorCaseIgnored | deepsecurity/filters.py:126-128 | a lower-case id operator is accepted and stored upper-cased |
| Filters.RestOperatorCaseIgnored | deepsecurity/filters.py:196-202 | mixed-case REST operators are accepted and stored upper-cased |
| Filters.MaxItemsClamped | deepsecurity/filters.py:188-194 | a maxItems below 1 is stored as 1 |
| Events.DefaultTimeFilter | deepsecurity/events.py:37 | the time filter used when none is given, as a dict |
| Events.DefaultHostFilter | deepsecurity/events.py:38 | the host filter used when none is given, as a dict |
| Events.DefaultIdFilter | deepsecurity/events.py:39 | the id filter used when none is given, as a dict |
| Events.DefaultRestFilter | deepsecurity/events.py:34 | the REST filter used when none is given cannot be built, because its maxItems is missing |
| Events.SoapFilters | deepsecurity/events.py:37-42 | the SOAP parameters hold exactly the three filter keys, each filter the given one when truthy and its builder's default otherwise |
| Events.BuildCallParms | deepsecurity/events.py:23-45 | REST: the parameters are the REST filter's entries, and the call fails iff that filter is empty; SOAP: always succeeds with exactly the three filter keys, each filter given if truthy and defaulted otherwise; the entries of a dict ext_parms are added last and win |
| Events.NonDictExtParmsIgnored | deepsecurity/events.py:43-44 | an ext_parms that is not a dict changes nothing |
| Events.Supports | deepsecurity/events.py:98-393 | the transports each `get` can use: system, firewall and intrusion-prevention events are SOAP only (no REST_API parameter); application-control events are REST only (REST_API=True is fixed); anti-malware, web-reputation, integrity-monitoring and log-inspection events use either (no contract; every call-table member and call lemma requires it) |
| Events.CallParms | deepsecurity/events.py:98-393 | the arguments each of the twelve call sites passes to `_build_call_parms`, including the integrity-monitoring REST call that omits REST_API (no contract; its partners are SoapCallCarriesAllFilters, RestCallNeedsFilter, IntegrityRestIgnoresRestFilter and RestDefaultsFailExceptIntegrity) |
| Events.Entrypoint | deepsecurity/events.py:98-393 | the entrypoint each of the eight `get` methods calls, for each transport it supports (no contract; its partner is EntrypointsIdentifyCalls) |
| Events.Route | deepsecurity/events.py:98-393 | the category and transport an entrypoint name belongs to, the inverse of Entrypoint (no contract; its partner is EntrypointsIdentifyCalls) |
| Events.IdField | deepsecurity/events.py:98-393 | the id field under which each call's events are stored is the generic `eventID` exactly for the REST calls answered by a ListEventsResponse, and some other field otherwise |
| Events.ResponsePath | deepsecurity/events.py:98-393 | the event list sits one or two keys deep in the first reply element, and under ListEventsResponse/events exactly for the integrity, log-inspection and application-control REST calls |
| Events.UsesCookieAuth | deepsecurity/events.py:134-146 | the cookieAuth argument of each call site (no contract; its partner is CookieAuthOffOnlyForAntiMalwareAndWebReputationRest) |
| Events.CallFor | deepsecurity/events.py:48-70 | the request each `get` sends: transport, entrypoint, cookie authentication, and the parameters as query (REST) or data (SOAP) (no contract; its partners are the four call lemmas below) |
| Events.EntrypointsIdentifyCalls | deepsecurity/events.py:134-158 | every category/transport pair has its own entrypoint name, from which the pair is recovered |
| Events.CookieAuthOffOnlyForAntiMalwareAndWebReputationRest | deepsecurity/events.py:136-146 | cookie authentication is off exactly for the anti-malware and web-reputation REST calls |
| Events.SoapCallCarriesAllFilters | deepsecurity/events.py:98-111 | a SOAP call always goes out with its parameters as data, carrying the three filters (defaulted when falsy), and the system-events call carries includeNonHostEvents |
| Events.RestCallNeedsFilter | deepsecurity/events.py:136-146 | a REST call other than integrity monitoring sends exactly the REST filter as its query, and fails iff no REST filter is given |
| Events.IntegrityRestIgnoresRestFilter | deepsecurity/events.py:293-304 | the integrity REST call always succeeds, sends the three default SOAP filters plus extendedDesc as its query, and does not depend on the REST filter |
| Events.RestDefaultsFailExceptIntegrity | deepsecurity/events.py:32-35 | with every argument left at its default, a REST `get` can be made only for integrity monitoring |
| Events.NormalizeData | deepsecurity/events.py:71-72 | the data of a 200 reply is always a list; a non-list is wrapped in a one-element list; any other reply is unchanged |
| Events.NormalizeIsIdempotent | deepsecurity/events.py:71-72 | normalising twice is normalising once |
| Events.MakeCall | deepsecurity/events.py:48-73 | the request is sent to the manager once; the same reply comes back with its status kept and its data normalised |
| Events.Descend | deepsecurity/events.py:147 | follows the category's keys through nested dicts, failing when one is missing (no contract; used by Fetch) |
| Events.Iterated | deepsecurity/events.py:159 | what `for event in ...` visits: a list's elements, nothing for an empty string or dict, an immediately failing event for a non-empty one (no contract; used by Fetch) |
| Events.ResponseEvents | deepsecurity/events.py:147-159 | `response['data'][0]` followed along the category's path and iterated (no contract; used by Fetch) |
| Events.Inserted | deepsecurity/events.py:159-160 | the collection after `self[event[key]] = event` for each event in order (no contract; its partners are InsertedIsUnion, InsertedKeys, InsertedLatest and RefetchIsIdempotent) |
| Events.Indexed | deepsecurity/events.py:159-161 | the loop's result and collection, stopping at the first event without a usable id (no contract; its partner is IndexedStoresEvents) |
| Events.Fetch | deepsecurity/events.py:134-161 | one `get` as a specification: build the call, need a manager and a reply, read the events and index them (no contract; its partners are FetchCountsAllStoredIds and FetchIsIdempotent, and EventCollection.Get is proved equal to it) |
| Events.KeyedPrefix | deepsecurity/events.py:159-160 | the loop stores the longest run of leading events that carry a usable id, and stops at the first that does not |
| Events.InsertedIsUnion | deepsecurity/events.py:159-160 | storing events into the collection equals merging in the events' own index, the events winning |
| Events.InsertedKeys | deepsecurity/events.py:159-160 | afterwards the stored ids are the earlier ones plus the ids of the events |
| Events.InsertedLatest | deepsecurity/events.py:159-160 | each event is stored under its id unless a later event has the same id |
| Events.RefetchIsIdempotent | deepsecurity/events.py:159-160 | storing the same events again changes nothing |
| Events.ReinsertKeepsCount | deepsecurity/events.py:159-161 | an event whose id is already stored replaces the record and keeps the count |
| Events.IndexedStoresEvents | deepsecurity/events.py:159-161 | the loop succeeds iff every event has a usable id; then the ids stored are the earlier ones plus the events' ids, the count returned is the size of the whole collection, and the latest event with each id is stored; earlier ids are never lost |
| Events.FetchCountsAllStoredIds | deepsecurity/events.py:134-161 | a successful get returns the number of ids now stored, earlier ones included, and never drops an id |
| Events.FetchIsIdempotent | deepsecurity/events.py:134-161 | repeating a successful get with the same reply leaves the collection and the count unchanged |
| Events.EventCollection.constructor | deepsecurity/events.py:129-132 | a new collection is empty and keeps its manager |
| Events.EventCollection.Index | deepsecurity/events.py:159-161 | the loop leaves the collection and result given by the insertion specification |
| Events.EventCollection.Get | deepsecurity/events.py:134-161 | get's result and new collection are those of the specification Fetch; the manager is sent exactly the built request; the reply data is normalised in place when sent; nothing else changes |
| Computer.Renamed | deepsecurity/computer.py:17-39 | the attributes the rename pass sets (no contract; its partners are RenamedKeys, RenamedAt and SetOrLogged) |
| Computer.MissingProps | deepsecurity/computer.py:40-41 | the attributes the rename pass logs as missing, in table order (no contract; its partners are MissingPropsAt and SetOrLogged) |
| Computer.ConstructionLog | deepsecurity/computer.py:40-46 | every log line of construction: one per missing attribute, plus number_of_interfaces when the length cannot be taken (no contract; its partner is OneLogLinePerMissingAttribute) |
| Computer.RenamedKeys | deepsecurity/computer.py:17-39 | the rename pass sets exactly the attributes whose source key is present |
| Computer.RenamedAt | deepsecurity/computer.py:38-39 | with distinct attribute names, each attribute is set iff its key is present, and then to that key's value |
| Computer.MissingPropsAt | deepsecurity/computer.py:40-41 | with distinct attribute names, an attribute is logged as missing iff its key is absent |
| Computer.MissingPropsAreTableProps | deepsecurity/computer.py:40-41 | only attributes of the table are logged as missing |
| Computer.SetOrLogged | deepsecurity/computer.py:17-41 | every table entry is either set or logged, once: the two counts add up to the table size |
| Computer.RenameTableIsDistinct | deepsecurity/computer.py:17-37 | the 19 attribute names of the rename table are all different |
| Computer.InterfaceCount | deepsecurity/computer.py:43-44 | number_of_interfaces exists iff hostInterfaces is present and has a length, and is the list's length for a list |
| Computer.Computer.constructor | deepsecurity/computer.py:2-46 | the record keeps the host details and manager, its attributes are those of the rename pass, and its interface count is the length of hostInterfaces; with a manager, exactly the construction log is appended and nothing else is sent |
| Computer.Computer.Act | deepsecurity/computer.py:55-57 | without a manager nothing happens; with one, a missing ID fails and otherwise exactly one action with the host ID is requested |
| Computer.Computer.SendEventsToManager | deepsecurity/computer.py:51-57 | asks the manager once for the host's events, or does nothing without a manager, failing only on a missing ID |
| Computer.Computer.ClearWarningsAndErrors | deepsecurity/computer.py:61-67 | asks the manager once to clear the host's warnings and errors, as above |
| Computer.Computer.ScanForMalware | deepsecurity/computer.py:71-77 | asks the manager once for a malware scan of the host, as above |
| Computer.Computer.ScanForIntegrity | deepsecurity/computer.py:81-87 | asks the manager once for an integrity scan of the host, as above |
| Computer.Computer.ScanForRecommendations | deepsecurity/computer.py:91-97 | asks the manager once for a recommendation scan of the host, as above |
| Computer.NewComputer | deepsecurity/computer.py:2-41 | construction fails with a missing "name" exactly when a manager is attached and the name is absent, before any log line; otherwise it yields a record as the constructor describes |
| Computer.AttributesFollowRenameTable | deepsecurity/computer.py:17-39 | each of the 19 attributes is set iff its key is present, and then holds that key's value |
| Computer.OneLogLinePerMissingAttribute | deepsecurity/computer.py:38-46 | the construction log has one line per unset attribute, plus one when the interface count cannot be taken, and names every absent table key's attribute |
| Computer.ExampleHost | deepsecurity/computer.py:17-44 | the host {ID: 7, name: 'h1', hostInterfaces: [{}, {}]} gets hostname 'h1' and two interfaces |

## Left out

- Filters.Upper: only ASCII input is modelled, and only ASCII letters are upper-cased. Python's `upper` on unicode text also maps some non-ASCII letters onto ASCII ones (dotless ı to I, long ſ to S). So an operator such as `hosts_ın_group` is accepted by the source and rejected by the model.
- Filters.CreateIdFilter: `eventID` is an integer. The `long()` conversion of strings and floats, and its errors, are not modelled.
- Filters.CreateRestEventFilter: `maxItems` is an optional integer. The `int()` conversion of strings and floats is not modelled; only the missing value (`int(None)`) is.
- Filters.FormatAndValidateOperator: the check is a Python `assert`. Running Python with assertions disabled would skip it; that is not modelled.
- Events.BuildCallParms: `rest_filter` is a dict (an empty dict stands for `None`). Other truthy values are not modelled.
- Events.EventCollection.Get: a falsy but non-null reply (an empty dict) is not distinguished from no reply. Exceptions are modelled as `Failure` values that name their cause.
- Events.EventCollection.Get: building an `_Event` is assumed to write no log line. Each `_Event` is given the manager's log function, and its property setting is in `core.py`, which is not part of this model. So the ensures that the manager's log is unchanged holds only under that assumption.
- Events.EventCollection.Get: events become plain records (`_Event`'s property setting is in `core.py`, which is not part of this model). The collection is a map from id to record (the `core.CoreDict` base class is not part of this model). Python's `True == 1` key equality is not modelled.
- Computer.Computer.constructor: the log lines are written in rename-table order. Python 2 walks the table dict in hash order. The exception text in each log line is left out.
- `Computer.print_details` is left out because it only prints.
- The manager's transport, session handling, request format and remote actions (`core.py`, `manager.py`) are not part of this model. They are represented by the traces of `Transport.Manager` and by the reply given to `get`.
- The `self.log` attribute of the collections is the manager's log function. It is only passed to `_Event`, so it is not modelled separately.
