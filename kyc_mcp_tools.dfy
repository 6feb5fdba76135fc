/**
 * The search_clients tool: runs the client search and puts the result, or the
 * failure, into a string-keyed response map.
 */
module KycMcpTools {
  import opened Wrappers
  import opened Enums
  import opened Text
  import ClientDto
  import ClientService

  /** The values the response maps hold. */
  datatype Value =
    | Bool(b: bool)
    | Str(s: string)
    | Int(i: int)
    | Risk(level: RiskLevel)
    | Clients(clients: seq<ClientDto.ClientDTO>)
    | Time(at: Timestamp)
    | Object(fields: map<string, Value>)

  const ToolName := "search_clients"
  const FoundPrefix := "Found "
  const FoundSuffix := " clients matching search criteria"

  /** String.format("Found %d clients matching search criteria", n). */
  function FoundMessage(n: nat): (m: string)
    ensures IsPrefix(FoundPrefix, m) && |m| > |FoundPrefix| + |FoundSuffix|
    ensures m[|m| - |FoundSuffix|..] == FoundSuffix
  {
    var m := FoundPrefix + NatToString(n) + FoundSuffix;
    assert m[..|FoundPrefix|] == FoundPrefix;
    assert m[|m| - |FoundSuffix|..] == FoundSuffix;
    m
  }

  /** The count can be read back out of the message: the digits between the
      fixed prefix and suffix render n. */
  lemma FoundMessageCount(n: nat)
    ensures var m := FoundMessage(n);
      ParseNat(m[|FoundPrefix|..|m| - |FoundSuffix|]) == n
  {
    var m := FoundMessage(n);
    var digits := NatToString(n);
    assert m == FoundPrefix + digits + FoundSuffix;
    assert m[|FoundPrefix|..|m| - |FoundSuffix|] == digits;
    ParseNatToString(n);
  }

  /** Different counts give different messages. */
  lemma FoundMessageInjective(n: nat, n': nat)
    requires FoundMessage(n) == FoundMessage(n')
    ensures n == n'
  {
    FoundMessageCount(n);
    FoundMessageCount(n');
  }

  /** The echo of the criteria: each one as given, or "any" when absent. */
  function Criteria(name: Option<string>, riskLevel: Option<RiskLevel>): (r: map<string, Value>)
    ensures r.Keys == {"name", "riskLevel"}
    ensures r["name"] == if name.Some? then Str(name.value) else Str("any")
    ensures r["riskLevel"] == if riskLevel.Some? then Risk(riskLevel.value) else Str("any")
  {
    map["name" := if name.Some? then Str(name.value) else Str("any"),
        "riskLevel" := if riskLevel.Some? then Risk(riskLevel.value) else Str("any")]
  }

  /** The error envelope: exactly success, error, tool and timestamp. */
  method CreateErrorResponse(toolName: string, errorMessage: string, now: Timestamp)
    returns (response: map<string, Value>)
    ensures response.Keys == {"success", "error", "tool", "timestamp"}
    ensures response["success"] == Bool(false) && response["error"] == Str(errorMessage)
    ensures response["tool"] == Str(toolName) && response["timestamp"] == Time(now)
  {
    response := map[];
    response := response["success" := Bool(false)];
    response := response["error" := Str(errorMessage)];
    response := response["tool" := Str(toolName)];
    response := response["timestamp" := Time(now)];
  }

  class KycMcpToolsImpl {
    const clientService: ClientService.ClientServiceImpl

    constructor (clientService: ClientService.ClientServiceImpl)
      ensures this.clientService == clientService
    {
      this.clientService := clientService;
    }

    /** search_clients(name, riskLevel). The client type is not a parameter, so
        it never constrains the search. `failure` is an exception raised while
        searching; it is caught and becomes the error envelope. */
    method SearchClients(name: Option<string>, riskLevel: Option<RiskLevel>, failure: Option<string>, now: Timestamp)
      returns (response: map<string, Value>)
      requires clientService.store.Valid()
      requires name.Some? ==> NoLikeWildcards(name.value)
      ensures failure.Some? ==>
        && response.Keys == {"success", "error", "tool", "timestamp"}
        && response["success"] == Bool(false) && response["error"] == Str(failure.value)
        && response["tool"] == Str(ToolName) && response["timestamp"] == Time(now)
      ensures failure.None? ==>
        var clients := clientService.SearchClients(name, None, riskLevel);
        && response.Keys == {"success", "message", "count", "clients", "searchCriteria"}
        && response["success"] == Bool(true)
        && response["clients"] == Clients(clients)
        && response["count"] == Int(|clients|)
        && response["message"] == Str(FoundMessage(|clients|))
        && response["searchCriteria"] == Object(Criteria(name, riskLevel))
    {
      if failure.Some? {
        response := CreateErrorResponse(ToolName, failure.value, now);
        return;
      }
      var clients := clientService.SearchClients(name, None, riskLevel);
      response := map[];
      response := response["success" := Bool(true)];
      response := response["message" := Str(FoundMessage(|clients|))];
      response := response["count" := Int(|clients|)];
      response := response["clients" := Clients(clients)];
      response := response["searchCriteria" := Object(Criteria(name, riskLevel))];
    }
  }
}
