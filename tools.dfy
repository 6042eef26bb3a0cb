/**
 * A tool invocation end to end: each tool's parameter map handed to
 * `api_call`, then the query the adapter sends for it.
 */
module Tools {
  import opened Wrappers
  import opened Json
  import opened ToolParams
  import opened Adapter
  import opened Accounts
  import opened Logs
  import opened Rpc

  /** A call of any modelled tool. */
  datatype ToolCall =
    | AccountTool(account: AccountCall)
    | LogsTool(logs: LogsCall)
    | ProxyTool(proxy: RpcCall)
  {
    function Name(): string
    {
      match this
      case AccountTool(c) => c.Name()
      case LogsTool(c) => c.Name()
      case ProxyTool(c) => c.Name()
    }

    /** The tool's parameter map: `module`, `action` and `chainid` always, and never a `None`. */
    function Params(): (p: ParamMap)
      ensures "module" in p && "action" in p && "chainid" in p
      ensures AllPresent(p)
    {
      match this
      case AccountTool(c) => c.Params()
      case LogsTool(c) => c.Params()
      case ProxyTool(c) => c.Params()
    }
  }

  /** `return api_call(params)`: every tool body ends by handing its map to the adapter. */
  function Invoke(t: ToolCall, apiKey: Option<string>, fetch: Request -> Response): (r: Result<Value, ApiError>)
    ensures KeyMissing(apiKey) ==> r == Failure(ConfigError)
  {
    ApiCall(apiKey, t.Params(), fetch)
  }

  /**
   * No tool passes a `None`, so the adapter's `None` filter drops nothing:
   * the query holds exactly the tool's keys and `apikey`, with the tool's
   * values.
   */
  lemma ToolQueryKeys(t: ToolCall, apiKey: string)
    ensures Query(t.Params(), apiKey).Keys == t.Params().Keys + {ApiKeyParam}
    ensures forall k :: k in t.Params() && k != ApiKeyParam ==> Query(t.Params(), apiKey)[k] == t.Params()[k].value
  {
    QueryShape(t.Params(), apiKey);
  }

  /**
   * `proxy_eth_estimateGas` tests its optional values against `None`, so an
   * empty `value` still reaches the query as an empty string.
   */
  lemma EstimateGasEmptyValueSent(data: string, to: string, chainid: string, apiKey: string)
    ensures var q := Query(EthEstimateGas(data, to, Some(""), None, None, chainid).Params(), apiKey);
      "value" in q && q["value"] == "" && "gas" !in q && "gasPrice" !in q
  {
    var p := EthEstimateGas(data, to, Some(""), None, None, chainid).Params();
    EstimateGasShape(data, to, Some(""), None, None, chainid);
    QueryShape(p, apiKey);
  }

  /**
   * A token-transfer tool called without a contract, or with an empty one,
   * does not filter by contract: no `contractaddress` reaches the query.
   */
  lemma NoContractNoFilter(c: AccountCall, apiKey: string)
    requires c.TokenTx? || c.TokenNftTx? || c.Token1155Tx?
    requires !Truthy(c.contractaddress)
    ensures "contractaddress" !in Query(c.Params(), apiKey)
  {
    ContractAddressIffTruthy(c);
    QueryShape(c.Params(), apiKey);
  }

  /**
   * The two empty-string treatments side by side: an empty `fromBlock` of
   * `logs_getLogsByAddress` is dropped, an empty `topic0` of
   * `logs_getLogsByTopics` is sent.
   */
  lemma EmptyStringTreatments(address: string, fromBlock: string, toBlock: string, apiKey: string)
    ensures "fromBlock" !in Query(GetLogsByAddress(address, Some("")).Params(), apiKey)
    ensures var q := Query(GetLogsByTopics(fromBlock, toBlock, TopicOptions(topic0 := Some(""))).Params(), apiKey);
      "topic0" in q && q["topic0"] == ""
  {
    var byAddress := GetLogsByAddress(address, Some(""));
    ByAddressShape(address, Some(""), None, "1", "1000", "1");
    QueryShape(byAddress.Params(), apiKey);
    var byTopics := GetLogsByTopics(fromBlock, toBlock, TopicOptions(topic0 := Some("")));
    EmptyTopicKept(fromBlock, toBlock, TopicOptions(topic0 := Some("")), "1");
    QueryShape(byTopics.Params(), apiKey);
  }
}
