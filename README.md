# Etherscan MCP server: request adapter and parameter builders

This project is a Dafny model of the decision logic in the Etherscan MCP
server. Every tool of the server builds a parameter dictionary and hands it to
`api_call`. The request adapter in `src/tools/utils.py` does the rest:

- it rejects a missing or empty `ETHERSCAN_API_KEY`;
- it builds the query by dropping `None` values and forcing `apikey`;
- it makes one HTTP GET;
- it classifies the `{status, message, result}` envelope that comes back;
- it picks the error detail, or returns `result` (the whole envelope when
  there is no `result`).

The model has eight modules:

| file | module | models |
|---|---|---|
| `wrappers.dfy` | `Wrappers` | `Option` and `Result` |
| `json.dfy` | `Json` | decoded JSON values, Python's `dict.get` and the type names Python prints |
| `params.dfy` | `ToolParams` | parameter dictionaries (`map<string, Option<string>>`, with `None` as `Option.None`) and the two omission rules the tools use |
| `adapter.dfy` | `Adapter` | `make_api_request`, the asynchronous path of `api_call`, and its duplicated synchronous branch |
| `logs.dfy` | `Logs` | the three `logs_*` tools |
| `rpc.dfy` | `Rpc` | the thirteen `proxy_*` tools |
| `accounts.dfy` | `Accounts` | the twelve `account_*` tools |
| `tools.dfy` | `Tools` | any tool call end to end, with facts that span a builder and the adapter |

Each tool is a constructor of a call datatype (`LogsCall`, `RpcCall` or
`AccountCall`). The constructor's default parameter values are the tool's
Python defaults. Its `Params()` member is the dictionary the tool passes to
`api_call`.

Some tools mutate their dictionary in place. They are:

- `logs_getLogsByAddress`;
- the two topic variants of the logs tools;
- `proxy_eth_estimateGas`;
- the three token-transfer tools.

Each of these has two parts in the model. A function states the dictionary
declaratively. A method performs the source's inserts step by step and is
proved equal to that function.

The adapter's HTTP GET is the parameter `fetch`. It maps the outbound request
(URL and query) to one of three things:

- a transport failure;
- a body that is not JSON;
- the decoded body.

The key read from the environment is the parameter `apiKey`. `ApiCall` is the
asynchronous path: `make_api_request`, then the result selection. The method
`SyncApiCall` repeats the key check, the query loop and the classification
inline, as the running-event-loop branch does. Its postcondition is that it
produces the same outcome as `ApiCall`.

Two behaviours follow the code rather than what its error names suggest:

- Take an envelope reporting an error with `"result": null`. Its error text
  is `Unexpected error: Etherscan API error: None`. It does not quote the
  `message`, because the code takes `result` whenever the key is present.
- A body that is not JSON, or JSON that is not an object, is not an
  `httpx.HTTPError`. The generic handler catches it and surfaces it as
  `Unexpected error: ...`. The upstream error the adapter raises inside its
  own `try` is re-wrapped the same way.

## Model

| member | source | states |
|---|---|---|
| Json.Get | src/tools/utils.py:49 | `dict.get`: `Some` of the entry exactly when the key is present, `None` otherwise |
| ToolParams.WhenTruthy | src/tools/accounts.py:193-194 | the "omit if falsy" rule: the entry is present iff the value is neither `None` nor `""`, and then holds the value |
| ToolParams.KeepPresent | src/tools/logs.py:105-107 | the "omit if None" rule: exactly the entries whose value is not `None`, unchanged, with empty strings kept |
| ToolParams.AddPresent | src/tools/logs.py:105-107 | the in-place loop over `optional_params` leaves the fixed dictionary overlaid with every optional entry that is not `None` |
| Adapter.BuildQuery | src/tools/utils.py:31-37 | the query loop yields the present parameters stringified, with `apikey` written last |
| Adapter.SyncApiCall | src/tools/utils.py:82-113 | the synchronous branch yields the same outcome as the asynchronous path for every key, parameter map and response |
| Adapter.MissingKeyIsConfigError | src/tools/utils.py:27-29 | an unset or empty key is the configuration error with its fixed message, whatever the parameters and the network |
| Adapter.QueryShape | src/tools/utils.py:32-37 | the query's keys are exactly the non-`None` parameters plus `apikey`; kept values pass unchanged, empty strings included; `apikey` is the configured key |
| Adapter.CallerApiKeyOverridden | src/tools/utils.py:37 | any caller-supplied `apikey` entry leaves the query unchanged, because the configured key overrides it |
| Adapter.NoneIsOmitted | src/tools/utils.py:33-35 | a parameter set to `None` produces the same query as leaving it out |
| Adapter.OutcomeDependsOnQuery | src/tools/utils.py:39-43 | two parameter maps with the same query produce the same outcome |
| Adapter.Classification | src/tools/utils.py:49 | an envelope is an error iff `status` is `"0"` and `message` is not exactly "No transactions found"; a missing or other status never is |
| Adapter.DetailChoice | src/tools/utils.py:50 | the detail is `result` whenever the key is present, even if null; without it `message`; without both "Unknown API error" |
| Adapter.EnvelopeOutcome | src/tools/utils.py:48-53 | for a decoded object the call fails iff the envelope is an error, with the upstream detail; otherwise it returns `result` when present, else the whole envelope |
| Adapter.UpstreamMessage | src/tools/utils.py:50-58 | every error envelope fails, and its surfaced text is "Unexpected error: Etherscan API error: " followed by `str()` of the chosen detail |
| Adapter.UpstreamStringDetail | src/tools/utils.py:50-51 | when the chosen detail is a string (`result` text, or `message` without `result`), the surfaced text quotes it verbatim after both prefixes |
| Adapter.RateLimitMessage | src/tools/utils.py:50-51 | status `"0"`, "NOTOK" and `result` "Max rate limit reached" fail with that `result` as detail and the text "Unexpected error: Etherscan API error: Max rate limit reached" |
| Adapter.NoTransactionsFoundIsEmptyResult | src/tools/utils.py:49 | status `"0"` with "No transactions found" and an empty `result` yields the empty list |
| Adapter.InvalidKeyWithNullResult | src/tools/utils.py:50-51 | status `"0"`, "Invalid API Key" and a null `result` fail with detail `None` and the text "Unexpected error: Etherscan API error: None" |
| Adapter.OkResultIsSelected | src/tools/utils.py:108 | a successful envelope yields its `result` value |
| Adapter.FetchFailuresSurface | src/tools/utils.py:55-58 | a transport failure surfaces as the HTTP error with its reason; an unparsable body surfaces through the generic handler; a success implies a decoded object came back |
| Logs.LogsCall.Params | src/tools/logs.py:30-37 | every logs tool sends `module=logs`, `action=getLogs` and its `chainid`, and never a `None` |
| Logs.AddressFixed | src/tools/logs.py:30-37 | the literal of `logs_getLogsByAddress` carries `module`, `action` and `chainid` with no `None` |
| Logs.ByAddressParams | src/tools/logs.py:30-41 | the by-address dictionary carries `module`, `action` and `chainid` with no `None` |
| Logs.BuildByAddress | src/tools/logs.py:30-41 | the two conditional in-place inserts yield the by-address dictionary |
| Logs.ByAddressShape | src/tools/logs.py:38-41 | `fromBlock`/`toBlock` are present iff truthy and then unchanged; `address`, `page`, `offset` and `chainid` are always sent |
| Logs.ByAddressDefaults | src/tools/logs.py:16-18 | with only an address, the tool sends exactly module, action, address, page "1", offset "1000" and chainid "1" |
| Logs.TopicsFixed | src/tools/logs.py:81-87 | the literal of `logs_getLogsByTopics` carries `module`, `action` and `chainid` with no `None` |
| Logs.ByTopicsParams | src/tools/logs.py:81-107 | the by-topics dictionary carries `module`, `action` and `chainid` with no `None` |
| Logs.BuildByTopics | src/tools/logs.py:81-107 | the literal followed by the optional-parameter loop yields the by-topics dictionary |
| Logs.OptionalKeysDisjoint | src/tools/logs.py:90-103 | no optional key is a fixed key of either topic variant |
| Logs.FixedEntriesKept | src/tools/logs.py:105-107 | the optional-parameter loop never alters a fixed entry of either topic variant |
| Logs.ByTopicsShape | src/tools/logs.py:81-107 | the by-topics map holds exactly the fixed keys plus the optional keys whose value is not `None`, each with its value |
| Logs.EmptyTopicKept | src/tools/logs.py:105-107 | an empty-string `topic0` is sent as an empty string |
| Logs.TopicsPagingOnlyWhenSupplied | src/tools/logs.py:58-59 | in both topic variants `page` and `offset` are present iff supplied |
| Logs.TopicsDefaults | src/tools/logs.py:45-60 | with only the block range, the topics tool sends exactly module, action, fromBlock, toBlock and chainid "1" |
| Logs.AddressTopicsFixed | src/tools/logs.py:150-157 | the literal of `logs_getLogsByAddressAndTopics` carries `module`, `action` and `chainid` with no `None` |
| Logs.ByAddressAndTopicsParams | src/tools/logs.py:150-177 | the address-and-topics dictionary carries `module`, `action` and `chainid` with no `None` |
| Logs.BuildByAddressAndTopics | src/tools/logs.py:150-177 | the literal followed by the optional-parameter loop yields the address-and-topics dictionary |
| Logs.FixedAddressExtends | src/tools/logs.py:150-157 | the address variant's literal is the topics literal plus `address` |
| Logs.AddressAndTopicsExtendsTopics | src/tools/logs.py:150-177 | `logs_getLogsByAddressAndTopics` sends the map of `logs_getLogsByTopics` on the shared arguments plus `address` |
| Rpc.RpcCall.Params | src/tools/rpc.py:18-22 | every rpc tool sends `module=proxy`, its own action and its `chainid`, and never a `None` |
| Rpc.EstimateGasFixed | src/tools/rpc.py:236-242 | the literal of `proxy_eth_estimateGas` carries `module`, `action` and `chainid` with no `None` |
| Rpc.EstimateGasParams | src/tools/rpc.py:236-250 | the estimate-gas dictionary carries `module`, `action` and `chainid` with no `None` |
| Rpc.BuildEstimateGas | src/tools/rpc.py:236-250 | the three conditional in-place inserts yield the estimate-gas dictionary |
| Rpc.EstimateGasShape | src/tools/rpc.py:245-250 | `value`, `gas` and `gasPrice` are present iff not `None` (empty strings kept); `data` and `to` are always sent; no other key is |
| Rpc.BoolCoercion | src/tools/rpc.py:38 | `str(b).lower()` is "true" for true and "false" for false |
| Rpc.BooleanEntry | src/tools/rpc.py:34-40 | the `boolean` entry is exactly "true" or "false", matching the argument, next to the given `tag` |
| Rpc.ActionIsNameWithoutPrefix | src/tools/rpc.py:19-20 | every rpc tool's name starts with `proxy_`, and its action is the name with that prefix removed |
| Rpc.NoArgumentTools | src/tools/rpc.py:210-214 | `proxy_eth_blockNumber` and `proxy_eth_gasPrice` send only `module`, `action` and `chainid` |
| Rpc.ChainIdDefaultsToOne | src/tools/rpc.py:12 | every rpc tool called without a `chainid` sends chainid "1" |
| Accounts.AccountCall.Params | src/tools/accounts.py:19-24 | every account tool sends `module=account`, its own action and its `chainid`, and never a `None` |
| Accounts.ListParams | src/tools/accounts.py:65-75 | the list-tool literal carries `module`, the given action and `chainid` with no `None` |
| Accounts.ListParamsEntries | src/tools/accounts.py:65-75 | the list-tool literal has exactly its nine keys, each argument under its own key |
| Accounts.TokenTransferParams | src/tools/accounts.py:182-194 | the token-transfer dictionary carries `module`, the given action and `chainid` with no `None` |
| Accounts.BuildTokenTransfer | src/tools/accounts.py:182-194 | the literal followed by the truthy in-place insert yields the token-transfer dictionary |
| Accounts.TokenTransferShape | src/tools/accounts.py:193-194 | `contractaddress` is present iff truthy and then unchanged; without it the map is the list literal |
| Accounts.ContractAddressIffTruthy | src/tools/accounts.py:269-270 | in all three token-transfer tools `contractaddress` is sent iff truthy, `None` and `""` both omitted, and the rest is the list literal |
| Accounts.InternalByHashShape | src/tools/accounts.py:120-125 | by hash: `action=txlistinternal` with exactly module, action, txhash and chainid |
| Accounts.InternalByBlockShape | src/tools/accounts.py:147-156 | by block: `action=txlistinternal` with the block range and paging and no `address` |
| Accounts.InternalByAddressShape | src/tools/accounts.py:99-109 | by address: `action=txlistinternal` with `address` and no `txhash` |
| Accounts.ListDefaults | src/tools/accounts.py:47-52 | txlist and txlistinternal default to blocks 0 to 99999999, page 1, offset 10, asc, chain 1; the beacon-withdrawal tool uses offset 100 |
| Accounts.TokenDefaults | src/tools/accounts.py:163-168 | the token-transfer tools use the same defaults and, without a contract, send just the list literal |
| Accounts.MinedBlocksShape | src/tools/accounts.py:306-314 | for every argument, `account_getminedblocks` sends exactly module, action, address, blocktype, page, offset and chainid, each with its argument, and no sort or block range; the defaults are blocktype "blocks", page "1", offset "10", chain 1 |
| Accounts.BalanceMultiForwardsList | src/tools/accounts.py:36-41 | `account_balancemulti` forwards the address list unchanged as one value |
| Tools.ToolCall.Params | src/tools/accounts.py:25 | every tool's dictionary has `module`, `action` and `chainid` and no `None` |
| Tools.Invoke | src/tools/utils.py:27-29 | a tool invoked without a key fails with the configuration error |
| Tools.ToolQueryKeys | src/tools/utils.py:33-37 | for every tool the query holds exactly the tool's keys plus `apikey`, with the tool's values |
| Tools.EstimateGasEmptyValueSent | src/tools/rpc.py:245-246 | an empty `value` passed to `proxy_eth_estimateGas` reaches the query as `value=` |
| Tools.NoContractNoFilter | src/tools/accounts.py:193-194 | with a `None` or empty `contractaddress`, no token-transfer query holds `contractaddress` |
| Tools.EmptyStringTreatments | src/tools/logs.py:38-39 | an empty `fromBlock` of the by-address tool never reaches the query, but an empty `topic0` of the topics tool does |

## Left out

- The HTTP request is the `fetch` parameter. This covers `httpx.AsyncClient` and `httpx.Client`, `raise_for_status` and `response.json()`, all network I/O in a foreign library. Only their three possible outcomes are modelled.
- Reading `ETHERSCAN_API_KEY` with `os.getenv` is environment I/O. The key is the `apiKey` parameter.
- Event-loop detection and the choice between the three branches of `api_call` are concurrency plumbing. The asynchronous path is `Adapter.ApiCall`, and `Adapter.SyncApiCall` is proved to produce the same outcome.
- The text `json.dumps(..., indent=2)` that `api_call` returns is library formatting. The model returns the JSON value that is serialised. `format_response` is not modelled for the same reason.
- Python's `str()` of an error detail is the `render` parameter of `Adapter.Message`. Lemmas that need it require only that it prints strings as themselves and null as `None`. The `str()` of a dictionary depends on its key order, which maps do not keep, and strings nested inside a list or dictionary are printed quoted; neither is modelled.
- JSON numbers are unbounded integers. Floating-point values are not modelled.
- Query and JSON object key order is not modelled, because dictionaries are maps.
- Adapter.BuildQuery: `str(value)` is the identity here, because every tool passes string values. Parameter values of other Python types are not modelled.
- The `EtherscanAPIError` class itself is not modelled. Its message is `Adapter.Message` of the `ApiError` that stands for the exception.
- FastMCP registration is framework and process bootstrapping. This covers the `@server.tool()` decorators, `create_tool_decorator`, `src/server.py` and `server.py`. The tool names are the `Name()` members, and only `Rpc.ActionIsNameWithoutPrefix` states anything about them.
- Rpc.ActionIsNameWithoutPrefix: a tool's registered name is defined as `proxy_` followed by its action, so the property holds by construction rather than being checked against the function names in the source.
- The blocks, contracts, gas, stats, tokens and transactions tools are not modelled. They forward their arguments unchanged under constant `module`/`action` pairs, with no branching or coercion.
