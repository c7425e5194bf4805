/**
 * Filter builders of the Deep Security client (deepsecurity/filters.py).
 *
 * Each builder upper-cases an operator string, checks it against a closed
 * enumeration and returns a small keyed record. A rejected operator is the
 * source's failed `assert`, here a `Failure(InvalidOperator(...))` that names
 * the permitted values.
 */
module Filters {
  import opened Wrappers
  import opened Values

  // ---------------------------------------------------------------------
  // The enumerations, in the order in which the error message lists them
  // ---------------------------------------------------------------------

  const HostTypes: seq<string> := ["STANDARD", "ESX", "APPLIANCE", "VM"]
  const HostDetailLevels: seq<string> := ["HIGH", "MEDIUM", "LOW"]
  const HostFilterTypes: seq<string> :=
    ["ALL_HOSTS", "HOSTS_IN_GROUP", "HOSTS_USING_SECURITY_PROFILE",
     "HOSTS_IN_GROUP_AND_ALL_SUBGROUPS", "SPECIFIC_HOST", "MY_HOSTS"]
  const TimeFilterTypes: seq<string> :=
    ["LAST_HOUR", "LAST_24_HOURS", "LAST_7_DAYS", "CUSTOM_RANGE",
     "SPECIFIC_TIME", "PREVIOUS_MONTH"]
  const Operators: seq<string> := ["GREATER_THAN", "LESS_THAN", "EQUAL"]
  const TagFilterTypes: seq<string> := ["ALL", "UNTAGGED", "TAGS"]
  const ExternalFilterTypes: seq<string> :=
    ["ALL_EXT_HOSTS", "HOSTS_IN_EXT_GROUP", "SPECIFIC_EXT_HOST",
     "HOSTS_IN_EXT_GROUP_AND_ALL_SUBGROUPS"]
  const RestOperators: seq<string> := ["GT", "GE", "EQ", "LT", "LE"]

  datatype FilterError =
    | InvalidOperator(validOps: seq<string>)  // the failed assert and the values it names
    | MaxItemsNotANumber                      // int(None) raises TypeError

  // ---------------------------------------------------------------------
  // str.upper on ASCII text
  // ---------------------------------------------------------------------

  predicate IsLower(c: char) {
    'a' <= c <= 'z'
  }

  predicate NoLowerCase(s: string) {
    forall i :: 0 <= i < |s| ==> !IsLower(s[i])
  }

  function UpperChar(c: char): char {
    if IsLower(c) then (c as int - 32) as char else c
  }

  /** The upper-cased string: every lower-case letter is replaced by its capital. */
  function Upper(s: string): (r: string)
    ensures |r| == |s|
    ensures NoLowerCase(r)
    ensures forall i :: 0 <= i < |s| ==>
      r[i] == s[i] || (IsLower(s[i]) && r[i] as int == s[i] as int - 32)
    ensures NoLowerCase(s) ==> r == s
  {
    seq(|s|, i requires 0 <= i < |s| => UpperChar(s[i]))
  }

  // ---------------------------------------------------------------------
  // _format_and_validate_operator
  // ---------------------------------------------------------------------

  /** The operator, upper-cased, if it belongs to `validOps`. */
  function FormatAndValidateOperator(op: string, validOps: seq<string>): (r: Result<string, FilterError>)
    ensures r.Success? <==> Upper(op) in validOps
    ensures r.Success? ==> r.value == Upper(op) && r.value in validOps
    ensures r.Failure? ==> r.error == InvalidOperator(validOps)
  {
    var upper := Upper(op);
    if upper in validOps then Success(upper) else Failure(InvalidOperator(validOps))
  }

  /** Validating an already validated operator gives it back unchanged. */
  lemma ValidateIsIdempotent(op: string, validOps: seq<string>)
    requires FormatAndValidateOperator(op, validOps).Success?
    ensures FormatAndValidateOperator(FormatAndValidateOperator(op, validOps).value, validOps)
         == FormatAndValidateOperator(op, validOps)
  {
  }

  // ---------------------------------------------------------------------
  // Filter records and their dictionary form
  // ---------------------------------------------------------------------

  /** HostFilterTransport. */
  datatype HostFilter = HostFilter(hostGroupID: Value, hostID: Value, securityProfileID: Value, filterType: string) {
    predicate Valid() {
      filterType in HostFilterTypes
    }

    function Fields(): map<string, Value> {
      map["hostGroupID" := hostGroupID, "hostID" := hostID,
          "securityProfileID" := securityProfileID, "type" := VStr(filterType)]
    }
  }

  /** TimeFilterTransport. */
  datatype TimeFilter = TimeFilter(rangeFrom: Value, rangeTo: Value, specificTime: Value, filterType: string) {
    predicate Valid() {
      filterType in TimeFilterTypes
    }

    function Fields(): map<string, Value> {
      map["rangeFrom" := rangeFrom, "rangeTo" := rangeTo,
          "specificTime" := specificTime, "type" := VStr(filterType)]
    }
  }

  /** IDFilterTransport. */
  datatype IdFilter = IdFilter(id: int, operator: string) {
    predicate Valid() {
      operator in Operators
    }

    function Fields(): map<string, Value> {
      map["id" := VInt(id), "operator" := VStr(operator)]
    }
  }

  /** TagFilterTransport. */
  datatype TagFilter = TagFilter(tags: Value, filterType: string) {
    predicate Valid() {
      filterType in TagFilterTypes
    }

    function Fields(): map<string, Value> {
      map["tags" := tags, "type" := VStr(filterType)]
    }
  }

  /** ExternalFilterTransport. */
  datatype ExternalFilter = ExternalFilter(hostExternalID: string, hostGroupExternalID: string, filterType: string) {
    predicate Valid() {
      filterType in ExternalFilterTypes
    }

    function Fields(): map<string, Value> {
      map["hostExternalID" := VStr(hostExternalID),
          "hostGroupExternalID" := VStr(hostGroupExternalID),
          "type" := VStr(filterType)]
    }
  }

  /** The query-string filter of the REST event calls. */
  datatype RestFilter = RestFilter(eventId: Value, eventIdOp: Option<string>, eventTime: Value,
                                   eventTimeOp: Option<string>, maxItems: int) {
    predicate Valid() {
      && maxItems >= 1
      && (eventIdOp.Some? ==> eventIdOp.value in RestOperators)
      && (eventTimeOp.Some? ==> eventTimeOp.value in RestOperators)
    }

    function Fields(): map<string, Value> {
      map["eventId" := eventId, "eventIdOp" := OptionalString(eventIdOp),
          "eventTime" := eventTime, "eventTimeOp" := OptionalString(eventTimeOp),
          "maxItems" := VInt(maxItems)]
    }
  }

  function OptionalString(s: Option<string>): Value {
    if s.Some? then VStr(s.value) else VNone
  }

  // ---------------------------------------------------------------------
  // The builders
  // ---------------------------------------------------------------------

  function CreateHostFilter(hostGroupID: Value, hostID: Value, securityProfileID: Value,
                            operator: string): (r: Result<HostFilter, FilterError>)
    ensures r.Success? <==> Upper(operator) in HostFilterTypes
    ensures r.Success? ==> r.value.Valid() && r.value.filterType == Upper(operator)
    ensures r.Success? ==>
      r.value.hostGroupID == hostGroupID && r.value.hostID == hostID && r.value.securityProfileID == securityProfileID
    ensures r.Failure? ==> r.error == InvalidOperator(HostFilterTypes)
  {
    var t :- FormatAndValidateOperator(operator, HostFilterTypes);
    Success(HostFilter(hostGroupID, hostID, securityProfileID, t))
  }

  function CreateTimeFilter(rangeFrom: Value, rangeTo: Value, specificTime: Value,
                            operator: string): (r: Result<TimeFilter, FilterError>)
    ensures r.Success? <==> Upper(operator) in TimeFilterTypes
    ensures r.Success? ==> r.value.Valid() && r.value.filterType == Upper(operator)
    ensures r.Success? ==>
      r.value.rangeFrom == rangeFrom && r.value.rangeTo == rangeTo && r.value.specificTime == specificTime
    ensures r.Failure? ==> r.error == InvalidOperator(TimeFilterTypes)
  {
    var t :- FormatAndValidateOperator(operator, TimeFilterTypes);
    Success(TimeFilter(rangeFrom, rangeTo, specificTime, t))
  }

  function CreateIdFilter(eventID: int, operator: string): (r: Result<IdFilter, FilterError>)
    ensures r.Success? <==> Upper(operator) in Operators
    ensures r.Success? ==> r.value.Valid() && r.value.operator == Upper(operator) && r.value.id == eventID
    ensures r.Failure? ==> r.error == InvalidOperator(Operators)
  {
    var op :- FormatAndValidateOperator(operator, Operators);
    Success(IdFilter(eventID, op))
  }

  function CreateTagFilter(tags: Value, operator: string): (r: Result<TagFilter, FilterError>)
    ensures r.Success? <==> Upper(operator) in TagFilterTypes
    ensures r.Success? ==> r.value.Valid() && r.value.filterType == Upper(operator) && r.value.tags == tags
    ensures r.Failure? ==> r.error == InvalidOperator(TagFilterTypes)
  {
    var t :- FormatAndValidateOperator(operator, TagFilterTypes);
    Success(TagFilter(tags, t))
  }

  /** Python's str() of an optional string: None becomes the text "None". */
  function PyStr(s: Option<string>): string {
    if s.Some? then s.value else "None"
  }

  function CreateExternalFilter(hostExternalID: Option<string>, hostGroupExternalID: Option<string>,
                                operator: string): (r: Result<ExternalFilter, FilterError>)
    ensures r.Success? <==> Upper(operator) in ExternalFilterTypes
    ensures r.Success? ==> r.value.Valid() && r.value.filterType == Upper(operator)
    ensures r.Success? ==> r.value.hostExternalID == (if hostExternalID.Some? then hostExternalID.value else "None")
    ensures r.Success? ==> r.value.hostGroupExternalID
                           == (if hostGroupExternalID.Some? then hostGroupExternalID.value else "None")
    ensures r.Failure? ==> r.error == InvalidOperator(ExternalFilterTypes)
  {
    var t :- FormatAndValidateOperator(operator, ExternalFilterTypes);
    Success(ExternalFilter(PyStr(hostExternalID), PyStr(hostGroupExternalID), t))
  }

  /** A REST operator argument is skipped when it is falsy: None or the empty string. */
  predicate Given(op: Option<string>) {
    op.Some? && op.value != ""
  }

  /** An operator argument the REST builder lets through: skipped, or valid once upper-cased. */
  predicate RestOperatorAccepted(op: Option<string>) {
    Given(op) ==> Upper(op.value) in RestOperators
  }

  /** The operator as the REST builder stores it. */
  function StoredRestOperator(op: Option<string>): Option<string>
    requires RestOperatorAccepted(op)
  {
    if Given(op) then Some(Upper(op.value)) else None
  }

  function ValidateRestOperator(op: Option<string>): (r: Result<Option<string>, FilterError>) {
    if Given(op) then
      var v :- FormatAndValidateOperator(op.value, RestOperators);
      Success(Some(v))
    else
      Success(None)
  }

  /**
   * create_rest_event_filter. `maxItems` is converted first, so a missing
   * value fails before either operator is looked at; then the id operator
   * and the time operator are each validated only when given.
   */
  function CreateRestEventFilter(eventId: Value, eventIdOp: Option<string>, eventTime: Value,
                                 eventTimeOp: Option<string>, maxItems: Option<int>): (r: Result<RestFilter, FilterError>)
    ensures r.Success? <==> maxItems.Some? && RestOperatorAccepted(eventIdOp) && RestOperatorAccepted(eventTimeOp)
    ensures maxItems.None? ==> r == Failure(MaxItemsNotANumber)
    ensures maxItems.Some? && !RestOperatorAccepted(eventIdOp) ==> r == Failure(InvalidOperator(RestOperators))
    ensures maxItems.Some? && !RestOperatorAccepted(eventTimeOp) ==> r == Failure(InvalidOperator(RestOperators))
    ensures r.Success? ==> r.value.Valid()
    ensures r.Success? ==> r.value.maxItems >= 1 && (maxItems.value >= 1 ==> r.value.maxItems == maxItems.value)
    ensures r.Success? && maxItems.value < 1 ==> r.value.maxItems == 1
    ensures r.Success? ==> r.value.eventId == eventId && r.value.eventTime == eventTime
    ensures r.Success? ==>
      r.value.eventIdOp == StoredRestOperator(eventIdOp) && r.value.eventTimeOp == StoredRestOperator(eventTimeOp)
  {
    if maxItems.None? then
      Failure(MaxItemsNotANumber)
    else
      var n := maxItems.value;
      var idOp :- ValidateRestOperator(eventIdOp);
      var timeOp :- ValidateRestOperator(eventTimeOp);
      Success(RestFilter(eventId, idOp, eventTime, timeOp, if n >= 1 then n else 1))
  }

  // ---------------------------------------------------------------------
  // Properties of the defaults
  // ---------------------------------------------------------------------

  /** The host builder's default operator is accepted. */
  lemma HostFilterDefault()
    ensures CreateHostFilter(VNone, VNone, VNone, "ALL_HOSTS")
         == Success(HostFilter(VNone, VNone, VNone, "ALL_HOSTS"))
  {
    assert Upper("ALL_HOSTS") == "ALL_HOSTS";
    assert HostFilterTypes[0] == "ALL_HOSTS";
  }

  /** The time builder's default operator is accepted. */
  lemma TimeFilterDefault()
    ensures CreateTimeFilter(VNone, VNone, VNone, "LAST_7_DAYS")
         == Success(TimeFilter(VNone, VNone, VNone, "LAST_7_DAYS"))
  {
    assert Upper("LAST_7_DAYS") == "LAST_7_DAYS";
    assert TimeFilterTypes[2] == "LAST_7_DAYS";
  }

  /** With its defaults the id filter selects every event above id 0. */
  lemma IdFilterDefault()
    ensures CreateIdFilter(0, "GREATER_THAN") == Success(IdFilter(0, "GREATER_THAN"))
  {
    assert Upper("GREATER_THAN") == "GREATER_THAN";
    assert Operators[0] == "GREATER_THAN";
  }

  /** The tag builder's default operator is accepted. */
  lemma TagFilterDefault()
    ensures CreateTagFilter(VNone, "ALL") == Success(TagFilter(VNone, "ALL"))
  {
    assert Upper("ALL") == "ALL";
    assert TagFilterTypes[0] == "ALL";
  }

  /** The external builder's default is accepted, and its absent ids read "None". */
  lemma ExternalFilterDefault()
    ensures CreateExternalFilter(None, None, "ALL_EXT_HOSTS")
         == Success(ExternalFilter("None", "None", "ALL_EXT_HOSTS"))
  {
    assert Upper("ALL_EXT_HOSTS") == "ALL_EXT_HOSTS";
    assert ExternalFilterTypes[0] == "ALL_EXT_HOSTS";
  }

  /** Operators are matched without regard to case. */
  lemma IdOperatorCaseIgnored()
    ensures CreateIdFilter(5, "less_than") == Success(IdFilter(5, "LESS_THAN"))
  {
    assert Upper("less_than") == "LESS_THAN";
    assert Operators[1] == "LESS_THAN";
  }

  /** The REST operators are matched without regard to case, each on its own. */
  lemma RestOperatorCaseIgnored()
    ensures CreateRestEventFilter(VInt(1), Some("ge"), VNone, Some("Lt"), Some(10))
         == Success(RestFilter(VInt(1), Some("GE"), VNone, Some("LT"), 10))
  {
    assert Upper("ge") == "GE";
    assert Upper("Lt") == "LT";
    assert RestOperators[1] == "GE" && RestOperators[3] == "LT";
  }

  /** A non-positive maxItems is raised to 1, the smallest valid value. */
  lemma MaxItemsClamped(maxItems: int)
    requires maxItems < 1
    ensures CreateRestEventFilter(VNone, Some("EQ"), VNone, Some("EQ"), Some(maxItems)).Success?
    ensures CreateRestEventFilter(VNone, Some("EQ"), VNone, Some("EQ"), Some(maxItems)).value.maxItems == 1
  {
  }
}
