/**
 * The manager collaborator that events.py and computer.py hand their work to.
 * Its network transport, session handling and remote actions are not part of
 * this model; it is seen only through what it is asked to do (the requests it
 * is sent, the log lines it is given, the actions it is asked to perform) and
 * through the reply objects it returns.
 */
module Transport {
  import opened Wrappers
  import opened Values

  /** The two protocol tags of `_get_request_format`. */
  datatype Api = Soap | Rest

  /**
   * The request format the manager hands out, `{api, call, use_cookie_auth}`,
   * with the `query` and `data` entries filled in by the caller.
   */
  datatype Request = Request(api: Api, call: string, useCookieAuth: bool,
                             query: Option<map<string, Value>>, data: Option<map<string, Value>>)

  /** The `{status, data}` content of a reply. */
  datatype Response = Response(status: int, data: Value)

  /** One `manager.log` call made while building a computer record. */
  datatype LogEntry = CouldNotAddProperty(prop: string, computer: Value)

  /** The five remote actions a computer record can ask for. */
  datatype Action =
    | RequestEventsFromComputer
    | ClearWarningsAndErrorsFromComputer
    | ScanComputersForMalware
    | ScanComputersForIntegrity
    | ScanComputersForRecommendations

  datatype ActionCall = ActionCall(action: Action, hostId: Value)

  /** A reply dictionary returned by the manager; its caller may rewrite `data` in place. */
  class Reply {
    var status: int
    var data: Value

    constructor (status: int, data: Value)
      ensures this.status == status && this.data == data
    {
      this.status := status;
      this.data := data;
    }

    function View(): Response
      reads this
    {
      Response(status, data)
    }
  }

  /** The manager, recorded as the traces of what it was asked to do. */
  class Manager {
    var log: seq<LogEntry>
    var sent: seq<Request>
    var actions: seq<ActionCall>

    constructor ()
      ensures log == [] && sent == [] && actions == []
    {
      log, sent, actions := [], [], [];
    }

    method Log(entry: LogEntry)
      modifies this
      ensures log == old(log) + [entry]
      ensures sent == old(sent) && actions == old(actions)
    {
      log := log + [entry];
    }

    /** `_request`: the request is handed to the transport. */
    method Send(req: Request)
      modifies this
      ensures sent == old(sent) + [req]
      ensures log == old(log) && actions == old(actions)
    {
      sent := sent + [req];
    }

    method Perform(call: ActionCall)
      modifies this
      ensures actions == old(actions) + [call]
      ensures log == old(log) && sent == old(sent)
    {
      actions := actions + [call];
    }
  }
}
