/**
 * The computer record (deepsecurity/computer.py): a host's detail map with
 * a fixed set of its entries copied, once and under new names, onto the
 * record, and five requests the record can pass on to the manager.
 */
module Computer {
  import opened Wrappers
  import opened Values
  import opened Transport

  /** Source key in the host details, attribute name on the record. */
  const RenameTable: seq<(string, string)> := [
    ("name", "hostname"),
    ("description", "description"),
    ("displayName", "display_name"),
    ("platform", "platform"),
    ("securityProfileID", "policy_id"),
    ("cloudObjectImageId", "cloud_image_id"),
    ("cloudObjectInstanceId", "cloud_instance_id"),
    ("cloudObjectSecurityGroupIds", "cloud_security_policy"),
    ("cloudObjectType", "cloud_type"),
    ("hostLight", "status_light"),
    ("securityProfileName", "policy_name"),
    ("lastIPUsed", "last_ip"),
    ("overallAntiMalwareStatus", "module_status_anti_malware"),
    ("overallDpiStatus", "module_status_ips"),
    ("overallFirewallStatus", "module_status_firewall"),
    ("overallIntegrityMonitoringStatus", "module_status_integrity_monitoring"),
    ("overallLogInspectionStatus", "module_status_log_inspection"),
    ("overallWebReputationStatus", "module_status_web_reputation"),
    ("overallStatus", "overall_status")
  ]

  /** No attribute name occurs twice in a table. */
  predicate DistinctProps(table: seq<(string, string)>) {
    forall i, j :: 0 <= i < j < |table| ==> table[i].1 != table[j].1
  }

  // ---------------------------------------------------------------------
  // The rename pass as a specification
  // ---------------------------------------------------------------------

  /** The attributes the rename pass sets: one per table entry whose key is present. */
  function Renamed(details: map<string, Value>, table: seq<(string, string)>): map<string, Value>
    decreases |table|
  {
    if table == [] then map[]
    else
      var entry := table[|table| - 1];
      var before := Renamed(details, table[..|table| - 1]);
      if entry.0 in details then before[entry.1 := details[entry.0]] else before
  }

  /** The attributes the rename pass cannot set, in table order. */
  function MissingProps(details: map<string, Value>, table: seq<(string, string)>): seq<string>
    decreases |table|
  {
    if table == [] then []
    else
      var entry := table[|table| - 1];
      MissingProps(details, table[..|table| - 1]) + (if entry.0 in details then [] else [entry.1])
  }

  /** The attribute names of the entries whose key is present. */
  function PresentProps(details: map<string, Value>, table: seq<(string, string)>): set<string> {
    set j | 0 <= j < |table| && table[j].0 in details :: table[j].1
  }

  /** The rename pass sets exactly the attributes of the entries whose key is present. */
  lemma {:induction false} RenamedKeys(details: map<string, Value>, table: seq<(string, string)>)
    ensures Renamed(details, table).Keys == PresentProps(details, table)
  {
    if table != [] {
      var init := table[..|table| - 1];
      var entry := table[|table| - 1];
      RenamedKeys(details, init);
      forall p | p in PresentProps(details, table)
        ensures p in PresentProps(details, init) || (entry.0 in details && p == entry.1)
      {
        var j :| 0 <= j < |table| && table[j].0 in details && p == table[j].1;
        if j < |table| - 1 {
          assert init[j] == table[j];
        }
      }
      forall p | p in PresentProps(details, init) ensures p in PresentProps(details, table) {
        var j :| 0 <= j < |init| && init[j].0 in details && p == init[j].1;
        assert table[j] == init[j];
      }
      assert entry.0 in details ==> entry.1 in PresentProps(details, table);
    }
  }

  /** Each attribute of the table is set exactly when its key is present, and then to that entry's value. */
  lemma {:induction false} RenamedAt(details: map<string, Value>, table: seq<(string, string)>, j: nat)
    requires DistinctProps(table)
    requires j < |table|
    ensures table[j].1 in Renamed(details, table) <==> table[j].0 in details
    ensures table[j].0 in details ==> Renamed(details, table)[table[j].1] == details[table[j].0]
  {
    var init := table[..|table| - 1];
    if j == |table| - 1 {
      RenamedKeys(details, init);
    } else {
      assert init[j] == table[j];
      RenamedAt(details, init, j);
    }
  }

  /** An attribute is logged as missing exactly when its key is absent. */
  lemma {:induction false} MissingPropsAt(details: map<string, Value>, table: seq<(string, string)>, j: nat)
    requires DistinctProps(table)
    requires j < |table|
    ensures table[j].1 in MissingProps(details, table) <==> table[j].0 !in details
  {
    var init := table[..|table| - 1];
    MissingPropsAreTableProps(details, init);
    if j < |table| - 1 {
      assert init[j] == table[j];
      MissingPropsAt(details, init, j);
    }
  }

  lemma {:induction false} MissingPropsAreTableProps(details: map<string, Value>, table: seq<(string, string)>)
    ensures forall p :: p in MissingProps(details, table) ==> exists i :: 0 <= i < |table| && p == table[i].1
  {
    if table != [] {
      var init := table[..|table| - 1];
      MissingPropsAreTableProps(details, init);
      forall p | p in MissingProps(details, table) ensures exists i :: 0 <= i < |table| && p == table[i].1 {
        if p in MissingProps(details, init) {
          var i :| 0 <= i < |init| && p == init[i].1;
          assert table[i] == init[i];
        } else {
          assert p == table[|table| - 1].1;
        }
      }
    }
  }

  /** Every table entry is either set or logged as missing, once. */
  lemma {:induction false} SetOrLogged(details: map<string, Value>, table: seq<(string, string)>)
    requires DistinctProps(table)
    ensures |Renamed(details, table)| + |MissingProps(details, table)| == |table|
  {
    if table != [] {
      var init := table[..|table| - 1];
      var entry := table[|table| - 1];
      assert DistinctProps(init) by {
        forall i, j | 0 <= i < j < |init| ensures init[i].1 != init[j].1 {
          assert init[i] == table[i] && init[j] == table[j];
        }
      }
      SetOrLogged(details, init);
      if entry.0 in details {
        RenamedKeys(details, init);
      }
    }
  }

  /** The lengths of the attribute names of the rename table, in table order. */
  const NameLengths: seq<nat> := [8, 11, 12, 8, 9, 14, 17, 21, 10, 12, 11, 7, 26, 17, 22, 34, 28, 28, 14]

  lemma NameLengthsAreLengths()
    ensures |NameLengths| == |RenameTable|
    ensures forall i :: 0 <= i < |RenameTable| ==> |RenameTable[i].1| == NameLengths[i]
  {
  }

  /** The six pairs of attribute names that have the same length differ in one character. */
  lemma EqualLengthNamesDiffer()
    ensures RenameTable[0].1 != RenameTable[3].1 && RenameTable[1].1 != RenameTable[10].1
    ensures RenameTable[2].1 != RenameTable[9].1 && RenameTable[5].1 != RenameTable[18].1
    ensures RenameTable[6].1 != RenameTable[13].1 && RenameTable[16].1 != RenameTable[17].1
  {
    assert RenameTable[0].1[0] != RenameTable[3].1[0];
    assert RenameTable[1].1[0] != RenameTable[10].1[0];
    assert RenameTable[2].1[0] != RenameTable[9].1[0];
    assert RenameTable[5].1[0] != RenameTable[18].1[0];
    assert RenameTable[6].1[0] != RenameTable[13].1[0];
    assert RenameTable[16].1[14] != RenameTable[17].1[14];
  }

  /** The attribute names of the rename table are all different. */
  lemma RenameTableIsDistinct()
    ensures DistinctProps(RenameTable)
  {
    NameLengthsAreLengths();
    EqualLengthNamesDiffer();
    forall i, j | 0 <= i < j < |RenameTable| ensures RenameTable[i].1 != RenameTable[j].1 {
      if NameLengths[i] == NameLengths[j] {
        assert (i, j) in {(0, 3), (1, 10), (2, 9), (5, 18), (6, 13), (16, 17)};
      }
    }
  }

  // ---------------------------------------------------------------------
  // number_of_interfaces and the log
  // ---------------------------------------------------------------------

  /** Python's len(): defined on strings, lists and dicts; a TypeError otherwise. */
  function Len(v: Value): Option<nat> {
    match v
    case VStr(s) => Some(|s|)
    case VList(l) => Some(|l|)
    case VDict(m) => Some(|m|)
    case _ => None
  }

  /** `len(host_details['hostInterfaces'])`, or nothing when that raises. */
  function InterfaceCount(details: map<string, Value>): (n: Option<nat>)
    ensures n.Some? <==> "hostInterfaces" in details && Len(details["hostInterfaces"]).Some?
    ensures "hostInterfaces" in details && details["hostInterfaces"].VList? ==>
      n == Some(|details["hostInterfaces"].elems|)
  {
    if "hostInterfaces" in details then Len(details["hostInterfaces"]) else None
  }

  /** One "could not add property" line per attribute name, each naming the computer. */
  function LogLines(props: seq<string>, computer: Value): seq<LogEntry> {
    seq(|props|, i requires 0 <= i < |props| => CouldNotAddProperty(props[i], computer))
  }

  /** Every log line written while building a record: one per attribute that could not be set. */
  function ConstructionLog(details: map<string, Value>): seq<LogEntry>
    requires "name" in details
  {
    LogLines(MissingProps(details, RenameTable)
             + (if InterfaceCount(details).None? then ["number_of_interfaces"] else []),
             details["name"])
  }

  /** Constructing the record raises only when a manager is attached and the name is missing. */
  predicate ConstructionRaises(details: map<string, Value>, hasManager: bool) {
    hasManager && "name" !in details
  }

  datatype ComputerError = MissingKey(key: string)

  // ---------------------------------------------------------------------
  // The record
  // ---------------------------------------------------------------------

  class Computer {
    const data: map<string, Value>
    const manager: Manager?
    var properties: map<string, Value>
    var numberOfInterfaces: Option<nat>

    /**
     * `__init__` and `_process_host_detail`: copy each present entry of the
     * rename table onto the record, log each absent one when a manager is
     * attached, then count the interfaces.
     */
    constructor (hostDetails: map<string, Value>, manager: Manager?)
      requires !ConstructionRaises(hostDetails, manager != null)
      modifies manager
      ensures data == hostDetails && this.manager == manager
      ensures properties == Renamed(hostDetails, RenameTable)
      ensures numberOfInterfaces == InterfaceCount(hostDetails)
      ensures manager != null ==> manager.log == old(manager.log) + ConstructionLog(hostDetails)
      ensures manager != null ==> manager.sent == old(manager.sent) && manager.actions == old(manager.actions)
    {
      data := hostDetails;
      this.manager := manager;
      properties := map[];
      numberOfInterfaces := None;
      new;
      var i := 0;
      while i < |RenameTable|
        invariant 0 <= i <= |RenameTable|
        invariant properties == Renamed(data, RenameTable[..i])
        invariant numberOfInterfaces == None
        invariant manager != null ==>
          manager.log == old(manager.log) + LogLines(MissingProps(data, RenameTable[..i]), data["name"])
        invariant manager != null ==> manager.sent == old(manager.sent) && manager.actions == old(manager.actions)
      {
        var entry := RenameTable[i];
        assert RenameTable[..i + 1][..i] == RenameTable[..i];
        if entry.0 in data {
          properties := properties[entry.1 := data[entry.0]];
        } else if manager != null {
          manager.Log(CouldNotAddProperty(entry.1, data["name"]));
        }
        i := i + 1;
      }
      assert RenameTable[..i] == RenameTable;
      if "hostInterfaces" in data && Len(data["hostInterfaces"]).Some? {
        numberOfInterfaces := Len(data["hostInterfaces"]);
      } else if manager != null {
        manager.Log(CouldNotAddProperty("number_of_interfaces", data["name"]));
      }
    }

    /** What every action returns: None, unless a manager needs the missing `data['ID']`. */
    function ActionResult(): Result<(), ComputerError> {
      if manager != null && "ID" !in data then Failure(MissingKey("ID")) else Success(())
    }

    /** The manager calls an action makes: one, with the host id, when a manager is attached. */
    function ActionCalls(action: Action): seq<ActionCall> {
      if manager != null && "ID" in data then [ActionCall(action, data["ID"])] else []
    }

    method Act(action: Action) returns (r: Result<(), ComputerError>)
      modifies manager
      ensures r == ActionResult()
      ensures manager != null ==> manager.actions == old(manager.actions) + ActionCalls(action)
      ensures manager != null ==> manager.log == old(manager.log) && manager.sent == old(manager.sent)
    {
      if manager == null {
        return Success(());
      }
      if "ID" !in data {
        return Failure(MissingKey("ID"));
      }
      manager.Perform(ActionCall(action, data["ID"]));
      r := Success(());
    }

    method SendEventsToManager() returns (r: Result<(), ComputerError>)
      modifies manager
      ensures r == ActionResult()
      ensures manager != null ==> manager.actions == old(manager.actions) + ActionCalls(RequestEventsFromComputer)
      ensures manager != null ==> manager.log == old(manager.log) && manager.sent == old(manager.sent)
    {
      r := Act(RequestEventsFromComputer);
    }

    method ClearWarningsAndErrors() returns (r: Result<(), ComputerError>)
      modifies manager
      ensures r == ActionResult()
      ensures manager != null ==> manager.actions == old(manager.actions) + ActionCalls(ClearWarningsAndErrorsFromComputer)
      ensures manager != null ==> manager.log == old(manager.log) && manager.sent == old(manager.sent)
    {
      r := Act(ClearWarningsAndErrorsFromComputer);
    }

    method ScanForMalware() returns (r: Result<(), ComputerError>)
      modifies manager
      ensures r == ActionResult()
      ensures manager != null ==> manager.actions == old(manager.actions) + ActionCalls(ScanComputersForMalware)
      ensures manager != null ==> manager.log == old(manager.log) && manager.sent == old(manager.sent)
    {
      r := Act(ScanComputersForMalware);
    }

    method ScanForIntegrity() returns (r: Result<(), ComputerError>)
      modifies manager
      ensures r == ActionResult()
      ensures manager != null ==> manager.actions == old(manager.actions) + ActionCalls(ScanComputersForIntegrity)
      ensures manager != null ==> manager.log == old(manager.log) && manager.sent == old(manager.sent)
    {
      r := Act(ScanComputersForIntegrity);
    }

    method ScanForRecommendations() returns (r: Result<(), ComputerError>)
      modifies manager
      ensures r == ActionResult()
      ensures manager != null ==> manager.actions == old(manager.actions) + ActionCalls(ScanComputersForRecommendations)
      ensures manager != null ==> manager.log == old(manager.log) && manager.sent == old(manager.sent)
    {
      r := Act(ScanComputersForRecommendations);
    }
  }

  /**
   * `Computer(host_details, manager)`: with a manager attached and no
   * `name`, the first log message cannot be formatted and construction
   * raises before any log line is written.
   */
  method NewComputer(hostDetails: map<string, Value>, manager: Manager?) returns (r: Result<Computer, ComputerError>)
    modifies manager
    ensures ConstructionRaises(hostDetails, manager != null) ==>
      r == Failure(MissingKey("name")) && manager.log == old(manager.log)
    ensures !ConstructionRaises(hostDetails, manager != null) ==>
      && r.Success? && fresh(r.value)
      && r.value.data == hostDetails && r.value.manager == manager
      && r.value.properties == Renamed(hostDetails, RenameTable)
      && r.value.numberOfInterfaces == InterfaceCount(hostDetails)
    ensures !ConstructionRaises(hostDetails, manager != null) && manager != null ==>
      manager.log == old(manager.log) + ConstructionLog(hostDetails)
    ensures manager != null ==> manager.sent == old(manager.sent) && manager.actions == old(manager.actions)
  {
    if ConstructionRaises(hostDetails, manager != null) {
      return Failure(MissingKey("name"));
    }
    var c := new Computer(hostDetails, manager);
    r := Success(c);
  }

  // ---------------------------------------------------------------------
  // Properties of the record
  // ---------------------------------------------------------------------

  /** Each attribute of the table equals its source entry when that entry is present, and is unset otherwise. */
  lemma AttributesFollowRenameTable(details: map<string, Value>, j: nat)
    requires j < |RenameTable|
    ensures RenameTable[j].1 in Renamed(details, RenameTable) <==> RenameTable[j].0 in details
    ensures RenameTable[j].0 in details ==>
      Renamed(details, RenameTable)[RenameTable[j].1] == details[RenameTable[j].0]
  {
    RenameTableIsDistinct();
    RenamedAt(details, RenameTable, j);
  }

  /** With a manager attached, one log line is written per attribute left unset. */
  lemma OneLogLinePerMissingAttribute(details: map<string, Value>)
    requires "name" in details
    ensures |ConstructionLog(details)|
         == (|RenameTable| - |Renamed(details, RenameTable)|) + (if InterfaceCount(details).None? then 1 else 0)
    ensures forall j :: 0 <= j < |RenameTable| && RenameTable[j].0 !in details ==>
      CouldNotAddProperty(RenameTable[j].1, details["name"]) in ConstructionLog(details)
  {
    RenameTableIsDistinct();
    SetOrLogged(details, RenameTable);
    var missing := MissingProps(details, RenameTable);
    var props := missing + (if InterfaceCount(details).None? then ["number_of_interfaces"] else []);
    forall j | 0 <= j < |RenameTable| && RenameTable[j].0 !in details
      ensures CouldNotAddProperty(RenameTable[j].1, details["name"]) in ConstructionLog(details)
    {
      MissingPropsAt(details, RenameTable, j);
      var k :| 0 <= k < |missing| && missing[k] == RenameTable[j].1;
      assert props[k] == missing[k];
      assert ConstructionLog(details)[k] == CouldNotAddProperty(RenameTable[j].1, details["name"]);
    }
  }

  /** The host `{ID: 7, name: 'h1', hostInterfaces: [{}, {}]}`: hostname 'h1', two interfaces. */
  lemma ExampleHost()
    ensures var details := map["ID" := VInt(7), "name" := VStr("h1"),
                               "hostInterfaces" := VList([VDict(map[]), VDict(map[])])];
            && "hostname" in Renamed(details, RenameTable)
            && Renamed(details, RenameTable)["hostname"] == VStr("h1")
            && InterfaceCount(details) == Some(2)
            && !ConstructionRaises(details, false)
  {
    var details := map["ID" := VInt(7), "name" := VStr("h1"),
                       "hostInterfaces" := VList([VDict(map[]), VDict(map[])])];
    AttributesFollowRenameTable(details, 0);
  }
}
