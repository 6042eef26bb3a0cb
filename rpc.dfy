/**
 * The `proxy_*` tools, which forward Ethereum JSON-RPC calls through the
 * upstream `proxy` module. All but `proxy_eth_estimateGas` hand a dictionary
 * literal to `api_call`; `proxy_eth_getBlockByNumber` coerces its boolean to
 * text, and `proxy_eth_estimateGas` adds its three optional arguments when
 * they are not `None`.
 */
module Rpc {
  import opened Wrappers
  import opened ToolParams

  const Module := "proxy"
  const NamePrefix := "proxy_"

  /** Python's `str(b)` for a boolean. */
  function PyBoolStr(b: bool): string
  {
    if b then "True" else "False"
  }

  /** ASCII lower-casing, as `str.lower()` does on `"True"` and `"False"`. */
  function Lower(s: string): (r: string)
    ensures |r| == |s|
  {
    seq(|s|, i requires 0 <= i < |s| => if 'A' <= s[i] <= 'Z' then (s[i] as int + 32) as char else s[i])
  }

  /** `str(boolean).lower()` is exactly "true" or "false", matching the input. */
  lemma BoolCoercion(b: bool)
    ensures Lower(PyBoolStr(b)) == (if b then "true" else "false")
  {
    var r := Lower(PyBoolStr(b));
    if b {
      assert r[0] == 't' && r[1] == 'r' && r[2] == 'u' && r[3] == 'e';
    } else {
      assert r[0] == 'f' && r[1] == 'a' && r[2] == 'l' && r[3] == 's' && r[4] == 'e';
    }
  }

  /** A call of one of the `proxy_*` tools, with the tool's own defaults. */
  datatype RpcCall =
    | EthBlockNumber(chainid: string := "1")
    | EthGetBlockByNumber(tag: string, boolean: bool, chainid: string := "1")
    | EthGetUncleByBlockNumberAndIndex(tag: string, index: string, chainid: string := "1")
    | EthGetBlockTransactionCountByNumber(tag: string, chainid: string := "1")
    | EthGetTransactionByHash(txhash: string, chainid: string := "1")
    | EthGetTransactionByBlockNumberAndIndex(tag: string, index: string, chainid: string := "1")
    | EthGetTransactionCount(address: string, tag: string, chainid: string := "1")
    | EthGetTransactionReceipt(txhash: string, chainid: string := "1")
    | EthCall(to: string, data: string, tag: string, chainid: string := "1")
    | EthGetCode(address: string, tag: string, chainid: string := "1")
    | EthGetStorageAt(address: string, position: string, tag: string, chainid: string := "1")
    | EthGasPrice(chainid: string := "1")
    | EthEstimateGas(data: string, to: string, value: Option<string> := None, gas: Option<string> := None,
                     gasPrice: Option<string> := None, chainid: string := "1")
  {
    /** The upstream action each tool sends. */
    function Action(): string
    {
      match this
      case EthBlockNumber(_) => "eth_blockNumber"
      case EthGetBlockByNumber(_, _, _) => "eth_getBlockByNumber"
      case EthGetUncleByBlockNumberAndIndex(_, _, _) => "eth_getUncleByBlockNumberAndIndex"
      case EthGetBlockTransactionCountByNumber(_, _) => "eth_getBlockTransactionCountByNumber"
      case EthGetTransactionByHash(_, _) => "eth_getTransactionByHash"
      case EthGetTransactionByBlockNumberAndIndex(_, _, _) => "eth_getTransactionByBlockNumberAndIndex"
      case EthGetTransactionCount(_, _, _) => "eth_getTransactionCount"
      case EthGetTransactionReceipt(_, _) => "eth_getTransactionReceipt"
      case EthCall(_, _, _, _) => "eth_call"
      case EthGetCode(_, _, _) => "eth_getCode"
      case EthGetStorageAt(_, _, _, _) => "eth_getStorageAt"
      case EthGasPrice(_) => "eth_gasPrice"
      case EthEstimateGas(_, _, _, _, _, _) => "eth_estimateGas"
    }

    /** The tool's registered name: its action behind the `proxy_` prefix. */
    function Name(): string
    {
      NamePrefix + Action()
    }

    /**
     * The dictionary the tool passes to `api_call`: `module=proxy`, the
     * tool's action and its `chainid`, and no `None` value.
     */
    function Params(): (p: ParamMap)
      ensures "module" in p && p["module"] == Some(Module)
      ensures "action" in p && p["action"] == Some(Action())
      ensures "chainid" in p && p["chainid"] == Some(chainid)
      ensures AllPresent(p)
    {
      match this
      case EthBlockNumber(chainid) =>
        Routed(Module, "eth_blockNumber", chainid, map[])
      case EthGetBlockByNumber(tag, boolean, chainid) =>
        Routed(Module, "eth_getBlockByNumber", chainid, map["tag" := tag, "boolean" := Lower(PyBoolStr(boolean))])
      case EthGetUncleByBlockNumberAndIndex(tag, index, chainid) =>
        Routed(Module, "eth_getUncleByBlockNumberAndIndex", chainid, map["tag" := tag, "index" := index])
      case EthGetBlockTransactionCountByNumber(tag, chainid) =>
        Routed(Module, "eth_getBlockTransactionCountByNumber", chainid, map["tag" := tag])
      case EthGetTransactionByHash(txhash, chainid) =>
        Routed(Module, "eth_getTransactionByHash", chainid, map["txhash" := txhash])
      case EthGetTransactionByBlockNumberAndIndex(tag, index, chainid) =>
        Routed(Module, "eth_getTransactionByBlockNumberAndIndex", chainid, map["tag" := tag, "index" := index])
      case EthGetTransactionCount(address, tag, chainid) =>
        Routed(Module, "eth_getTransactionCount", chainid, map["address" := address, "tag" := tag])
      case EthGetTransactionReceipt(txhash, chainid) =>
        Routed(Module, "eth_getTransactionReceipt", chainid, map["txhash" := txhash])
      case EthCall(to, data, tag, chainid) =>
        Routed(Module, "eth_call", chainid, map["to" := to, "data" := data, "tag" := tag])
      case EthGetCode(address, tag, chainid) =>
        Routed(Module, "eth_getCode", chainid, map["address" := address, "tag" := tag])
      case EthGetStorageAt(address, position, tag, chainid) =>
        Routed(Module, "eth_getStorageAt", chainid, map["address" := address, "position" := position, "tag" := tag])
      case EthGasPrice(chainid) =>
        Routed(Module, "eth_gasPrice", chainid, map[])
      case EthEstimateGas(data, to, value, gas, gasPrice, chainid) =>
        EstimateGasParams(data, to, value, gas, gasPrice, chainid)
    }
  }

  // ---------------------------------------------------------------------------
  // proxy_eth_estimateGas
  // ---------------------------------------------------------------------------

  /** The entries `proxy_eth_estimateGas` always sends. */
  function EstimateGasFixed(data: string, to: string, chainid: string): (p: ParamMap)
    ensures "module" in p && p["module"] == Some(Module) && "action" in p && p["action"] == Some("eth_estimateGas")
    ensures "chainid" in p && p["chainid"] == Some(chainid)
    ensures AllPresent(p)
  {
    map["module" := Some(Module), "action" := Some("eth_estimateGas"), "data" := Some(data), "to" := Some(to),
        "chainid" := Some(chainid)]
  }

  /** The optional transaction fields, keyed as upstream expects them. */
  function EstimateGasOptional(value: Option<string>, gas: Option<string>, gasPrice: Option<string>): ParamMap
  {
    map["value" := value, "gas" := gas, "gasPrice" := gasPrice]
  }

  /** The fixed entries plus each optional field that is not `None`. */
  function EstimateGasParams(data: string, to: string, value: Option<string>, gas: Option<string>,
                             gasPrice: Option<string>, chainid: string): (p: ParamMap)
    ensures "module" in p && p["module"] == Some(Module) && "action" in p && p["action"] == Some("eth_estimateGas")
    ensures "chainid" in p && p["chainid"] == Some(chainid)
    ensures AllPresent(p)
  {
    var optional := EstimateGasOptional(value, gas, gasPrice);
    assert "module" !in optional && "action" !in optional && "chainid" !in optional;
    UnionAllPresent(EstimateGasFixed(data, to, chainid), KeepPresent(optional));
    EstimateGasFixed(data, to, chainid) + KeepPresent(optional)
  }

  /** `proxy_eth_estimateGas` in rpc.py: the fixed dictionary, then three conditional in-place inserts. */
  method BuildEstimateGas(data: string, to: string, value: Option<string>, gas: Option<string>,
                          gasPrice: Option<string>, chainid: string) returns (p: ParamMap)
    ensures p == EstimateGasParams(data, to, value, gas, gasPrice, chainid)
  {
    var fixed := EstimateGasFixed(data, to, chainid);
    var m0: ParamMap := map[];
    var m1 := m0["value" := value];
    var m2 := m1["gas" := gas];
    assert EstimateGasOptional(value, gas, gasPrice) == m2["gasPrice" := gasPrice];
    assert fixed + KeepPresent(m0) == fixed;
    p := fixed;
    KeepPresentExtend(m0, "value", value);
    if value.Some? {
      UnionUpdate(fixed, KeepPresent(m0), "value", value);
      p := p["value" := value];
    }
    KeepPresentExtend(m1, "gas", gas);
    if gas.Some? {
      UnionUpdate(fixed, KeepPresent(m1), "gas", gas);
      p := p["gas" := gas];
    }
    KeepPresentExtend(m2, "gasPrice", gasPrice);
    if gasPrice.Some? {
      UnionUpdate(fixed, KeepPresent(m2), "gasPrice", gasPrice);
      p := p["gasPrice" := gasPrice];
    }
  }

  /**
   * `value`, `gas` and `gasPrice` are sent iff each is not `None` (an empty
   * string is kept); `data`, `to` and `chainid` are always sent; no other
   * key is.
   */
  lemma EstimateGasShape(data: string, to: string, value: Option<string>, gas: Option<string>,
                         gasPrice: Option<string>, chainid: string)
    ensures var p := EthEstimateGas(data, to, value, gas, gasPrice, chainid).Params();
      && ("value" in p <==> value.Some?) && ("gas" in p <==> gas.Some?) && ("gasPrice" in p <==> gasPrice.Some?)
      && ("value" in p ==> p["value"] == value) && ("gas" in p ==> p["gas"] == gas)
      && ("gasPrice" in p ==> p["gasPrice"] == gasPrice)
      && "data" in p && p["data"] == Some(data) && "to" in p && p["to"] == Some(to)
      && p.Keys <= {"module", "action", "data", "to", "chainid", "value", "gas", "gasPrice"}
  {
    EstimateGasParts(data, to, value, gas, gasPrice, chainid);
    assert EthEstimateGas(data, to, value, gas, gasPrice, chainid).Params()
        == EstimateGasFixed(data, to, chainid) + KeepPresent(EstimateGasOptional(value, gas, gasPrice));
  }

  /** The keys and argument entries of the two halves of the `proxy_eth_estimateGas` dictionary. */
  lemma EstimateGasParts(data: string, to: string, value: Option<string>, gas: Option<string>,
                         gasPrice: Option<string>, chainid: string)
    ensures var fixed := EstimateGasFixed(data, to, chainid);
      && fixed.Keys == {"module", "action", "data", "to", "chainid"}
      && fixed["data"] == Some(data) && fixed["to"] == Some(to)
    ensures var optional := EstimateGasOptional(value, gas, gasPrice);
      && optional.Keys == {"value", "gas", "gasPrice"}
      && optional["value"] == value && optional["gas"] == gas && optional["gasPrice"] == gasPrice
  {
  }

  // ---------------------------------------------------------------------------
  // Properties of the whole family
  // ---------------------------------------------------------------------------

  /** Every rpc tool's action is its name with the `proxy_` prefix removed. */
  lemma ActionIsNameWithoutPrefix(c: RpcCall)
    ensures |c.Name()| >= |NamePrefix| && c.Name()[..|NamePrefix|] == NamePrefix
    ensures c.Params()["action"] == Some(c.Name()[|NamePrefix|..])
  {
  }

  /** The `boolean` entry of `proxy_eth_getBlockByNumber` is "true" or "false", matching the argument. */
  lemma BooleanEntry(tag: string, boolean: bool, chainid: string)
    ensures var p := EthGetBlockByNumber(tag, boolean, chainid).Params();
      "boolean" in p && p["boolean"] == Some(if boolean then "true" else "false")
      && p["tag"] == Some(tag)
  {
    BoolCoercion(boolean);
  }

  /** `proxy_eth_blockNumber` and `proxy_eth_gasPrice` send only `module`, `action` and `chainid`. */
  lemma NoArgumentTools(chainid: string)
    ensures EthBlockNumber(chainid).Params().Keys == {"module", "action", "chainid"}
    ensures EthGasPrice(chainid).Params().Keys == {"module", "action", "chainid"}
  {
  }

  /** Every rpc tool defaults `chainid` to "1". */
  lemma ChainIdDefaultsToOne(tag: string, boolean: bool, index: string, txhash: string, address: string,
                             to: string, data: string, position: string)
    ensures EthBlockNumber().Params()["chainid"] == Some("1")
    ensures EthGetBlockByNumber(tag, boolean).Params()["chainid"] == Some("1")
    ensures EthGetUncleByBlockNumberAndIndex(tag, index).Params()["chainid"] == Some("1")
    ensures EthGetBlockTransactionCountByNumber(tag).Params()["chainid"] == Some("1")
    ensures EthGetTransactionByHash(txhash).Params()["chainid"] == Some("1")
    ensures EthGetTransactionByBlockNumberAndIndex(tag, index).Params()["chainid"] == Some("1")
    ensures EthGetTransactionCount(address, tag).Params()["chainid"] == Some("1")
    ensures EthGetTransactionReceipt(txhash).Params()["chainid"] == Some("1")
    ensures EthCall(to, data, tag).Params()["chainid"] == Some("1")
    ensures EthGetCode(address, tag).Params()["chainid"] == Some("1")
    ensures EthGetStorageAt(address, position, tag).Params()["chainid"] == Some("1")
    ensures EthGasPrice().Params()["chainid"] == Some("1")
    ensures EthEstimateGas(data, to).Params()["chainid"] == Some("1")
  {
  }
}
