/**
 * The three event-log tools. Each builds its parameter dictionary and then
 * mutates it: `logs_getLogsByAddress` adds the block bounds only when they
 * are truthy; the two topic variants add every optional argument that is
 * not `None`.
 */
module Logs {
  import opened Wrappers
  import opened ToolParams

  const Module := "logs"
  const Action := "getLogs"

  /** The twelve optional keyword arguments of the two topic variants, all defaulting to `None`. */
  datatype TopicOptions = TopicOptions(
    topic0: Option<string> := None,
    topic1: Option<string> := None,
    topic2: Option<string> := None,
    topic3: Option<string> := None,
    topic0_1_opr: Option<string> := None,
    topic1_2_opr: Option<string> := None,
    topic2_3_opr: Option<string> := None,
    topic0_2_opr: Option<string> := None,
    topic0_3_opr: Option<string> := None,
    topic1_3_opr: Option<string> := None,
    page: Option<string> := None,
    offset: Option<string> := None)
  {
    /** The `optional_params` dictionary. */
    function AsMap(): ParamMap
    {
      map[
        "topic0" := topic0, "topic1" := topic1, "topic2" := topic2, "topic3" := topic3,
        "topic0_1_opr" := topic0_1_opr, "topic1_2_opr" := topic1_2_opr, "topic2_3_opr" := topic2_3_opr,
        "topic0_2_opr" := topic0_2_opr, "topic0_3_opr" := topic0_3_opr, "topic1_3_opr" := topic1_3_opr,
        "page" := page, "offset" := offset]
    }
  }

  /** A call of one of the logs tools, with the tool's own defaults. */
  datatype LogsCall =
    | GetLogsByAddress(address: string, fromBlockOpt: Option<string> := None, toBlockOpt: Option<string> := None,
                       page: string := "1", offset: string := "1000", chainid: string := "1")
    | GetLogsByTopics(fromBlock: string, toBlock: string, options: TopicOptions := TopicOptions(),
                      chainid: string := "1")
    | GetLogsByAddressAndTopics(fromBlock: string, toBlock: string, address: string,
                                options: TopicOptions := TopicOptions(), chainid: string := "1")
  {
    function Name(): string
    {
      match this
      case GetLogsByAddress(_, _, _, _, _, _) => "logs_getLogsByAddress"
      case GetLogsByTopics(_, _, _, _) => "logs_getLogsByTopics"
      case GetLogsByAddressAndTopics(_, _, _, _, _) => "logs_getLogsByAddressAndTopics"
    }

    /** The dictionary the tool passes to `api_call`: every logs tool sends `module=logs`, `action=getLogs`. */
    function Params(): (p: ParamMap)
      ensures "module" in p && p["module"] == Some(Module)
      ensures "action" in p && p["action"] == Some(Action)
      ensures "chainid" in p && p["chainid"] == Some(chainid)
      ensures AllPresent(p)
    {
      match this
      case GetLogsByAddress(address, fromBlock, toBlock, page, offset, chainid) =>
        ByAddressParams(address, fromBlock, toBlock, page, offset, chainid)
      case GetLogsByTopics(fromBlock, toBlock, options, chainid) =>
        ByTopicsParams(fromBlock, toBlock, options, chainid)
      case GetLogsByAddressAndTopics(fromBlock, toBlock, address, options, chainid) =>
        ByAddressAndTopicsParams(fromBlock, toBlock, address, options, chainid)
    }
  }

  // ---------------------------------------------------------------------------
  // logs_getLogsByAddress
  // ---------------------------------------------------------------------------

  /** The entries `logs_getLogsByAddress` always sends. */
  function AddressFixed(address: string, page: string, offset: string, chainid: string): (p: ParamMap)
    ensures "module" in p && p["module"] == Some(Module) && "action" in p && p["action"] == Some(Action)
    ensures "chainid" in p && p["chainid"] == Some(chainid)
    ensures AllPresent(p)
  {
    map["module" := Some(Module), "action" := Some(Action), "address" := Some(address),
        "page" := Some(page), "offset" := Some(offset), "chainid" := Some(chainid)]
  }

  /** The fixed entries, then a block bound for each truthy `fromBlock` / `toBlock`. */
  function ByAddressParams(address: string, fromBlock: Option<string>, toBlock: Option<string>,
                           page: string, offset: string, chainid: string): (p: ParamMap)
    ensures "module" in p && p["module"] == Some(Module) && "action" in p && p["action"] == Some(Action)
    ensures "chainid" in p && p["chainid"] == Some(chainid)
    ensures AllPresent(p)
  {
    var fixed := AddressFixed(address, page, offset, chainid);
    UnionAllPresent(fixed, WhenTruthy("fromBlock", fromBlock));
    UnionAllPresent(fixed + WhenTruthy("fromBlock", fromBlock), WhenTruthy("toBlock", toBlock));
    fixed + WhenTruthy("fromBlock", fromBlock) + WhenTruthy("toBlock", toBlock)
  }

  /**
   * `logs_getLogsByAddress` in logs.py: the dictionary literal, then two
   * in-place inserts under `if fromBlock:` and `if toBlock:`.
   */
  method BuildByAddress(address: string, fromBlock: Option<string>, toBlock: Option<string>,
                        page: string, offset: string, chainid: string) returns (p: ParamMap)
    ensures p == ByAddressParams(address, fromBlock, toBlock, page, offset, chainid)
  {
    p := AddressFixed(address, page, offset, chainid);
    if fromBlock.Some? && fromBlock.value != "" {
      p := p["fromBlock" := fromBlock];
    }
    if toBlock.Some? && toBlock.value != "" {
      p := p["toBlock" := toBlock];
    }
  }

  /**
   * The block bounds are sent only when truthy (`None` and `""` are both
   * dropped); `address`, `page`, `offset` and `chainid` are always sent, and
   * nothing else is.
   */
  lemma ByAddressShape(address: string, fromBlock: Option<string>, toBlock: Option<string>,
                       page: string, offset: string, chainid: string)
    ensures var p := GetLogsByAddress(address, fromBlock, toBlock, page, offset, chainid).Params();
      && ("fromBlock" in p <==> Truthy(fromBlock))
      && ("toBlock" in p <==> Truthy(toBlock))
      && ("fromBlock" in p ==> p["fromBlock"] == fromBlock)
      && ("toBlock" in p ==> p["toBlock"] == toBlock)
      && p["address"] == Some(address) && p["page"] == Some(page)
      && p["offset"] == Some(offset) && p["chainid"] == Some(chainid)
      && p.Keys <= {"module", "action", "address", "page", "offset", "chainid", "fromBlock", "toBlock"}
  {
  }

  /** By default the tool asks for page 1 of 1000 records on chain 1, with no block bounds. */
  lemma ByAddressDefaults(address: string)
    ensures var p := GetLogsByAddress(address).Params();
      && p.Keys == {"module", "action", "address", "page", "offset", "chainid"}
      && p["page"] == Some("1") && p["offset"] == Some("1000") && p["chainid"] == Some("1")
  {
  }

  // ---------------------------------------------------------------------------
  // logs_getLogsByTopics and logs_getLogsByAddressAndTopics
  // ---------------------------------------------------------------------------

  /** The entries both topic variants always send. */
  function TopicsFixed(fromBlock: string, toBlock: string, chainid: string): (p: ParamMap)
    ensures "module" in p && p["module"] == Some(Module) && "action" in p && p["action"] == Some(Action)
    ensures "chainid" in p && p["chainid"] == Some(chainid)
    ensures AllPresent(p)
  {
    map["module" := Some(Module), "action" := Some(Action), "fromBlock" := Some(fromBlock),
        "toBlock" := Some(toBlock), "chainid" := Some(chainid)]
  }

  /** The fixed entries plus every optional argument that is not `None`. */
  function ByTopicsParams(fromBlock: string, toBlock: string, options: TopicOptions, chainid: string): (p: ParamMap)
    ensures "module" in p && p["module"] == Some(Module) && "action" in p && p["action"] == Some(Action)
    ensures "chainid" in p && p["chainid"] == Some(chainid)
    ensures AllPresent(p)
  {
    OptionalKeysDisjoint(options);
    UnionAllPresent(TopicsFixed(fromBlock, toBlock, chainid), KeepPresent(options.AsMap()));
    TopicsFixed(fromBlock, toBlock, chainid) + KeepPresent(options.AsMap())
  }

  /** `logs_getLogsByTopics` in logs.py: the dictionary literal, then the loop over `optional_params`. */
  method BuildByTopics(fromBlock: string, toBlock: string, options: TopicOptions, chainid: string)
    returns (p: ParamMap)
    ensures p == ByTopicsParams(fromBlock, toBlock, options, chainid)
  {
    p := TopicsFixed(fromBlock, toBlock, chainid);
    p := AddPresent(p, options.AsMap());
  }

  /** The fixed entries of the address variant: those of the topics variant plus `address`. */
  function AddressTopicsFixed(fromBlock: string, toBlock: string, address: string, chainid: string): (p: ParamMap)
    ensures "module" in p && p["module"] == Some(Module) && "action" in p && p["action"] == Some(Action)
    ensures "chainid" in p && p["chainid"] == Some(chainid)
    ensures AllPresent(p)
  {
    map["module" := Some(Module), "action" := Some(Action), "fromBlock" := Some(fromBlock),
        "toBlock" := Some(toBlock), "address" := Some(address), "chainid" := Some(chainid)]
  }

  /** The fixed entries of the address variant plus every optional argument that is not `None`. */
  function ByAddressAndTopicsParams(fromBlock: string, toBlock: string, address: string,
                                    options: TopicOptions, chainid: string): (p: ParamMap)
    ensures "module" in p && p["module"] == Some(Module) && "action" in p && p["action"] == Some(Action)
    ensures "chainid" in p && p["chainid"] == Some(chainid)
    ensures AllPresent(p)
  {
    OptionalKeysDisjoint(options);
    UnionAllPresent(AddressTopicsFixed(fromBlock, toBlock, address, chainid), KeepPresent(options.AsMap()));
    AddressTopicsFixed(fromBlock, toBlock, address, chainid) + KeepPresent(options.AsMap())
  }

  /** `logs_getLogsByAddressAndTopics` in logs.py: the dictionary literal, then the loop over `optional_params`. */
  method BuildByAddressAndTopics(fromBlock: string, toBlock: string, address: string,
                                 options: TopicOptions, chainid: string) returns (p: ParamMap)
    ensures p == ByAddressAndTopicsParams(fromBlock, toBlock, address, options, chainid)
  {
    p := AddressTopicsFixed(fromBlock, toBlock, address, chainid);
    p := AddPresent(p, options.AsMap());
  }

  /** No optional key is a fixed key of either topic variant. */
  lemma OptionalKeysDisjoint(options: TopicOptions)
    ensures var m := options.AsMap();
      && "module" !in m && "action" !in m && "fromBlock" !in m && "toBlock" !in m
      && "address" !in m && "chainid" !in m
  {
  }

  /**
   * The optional-parameter loop never overwrites a fixed entry, in either
   * topic variant.
   */
  lemma FixedEntriesKept(fromBlock: string, toBlock: string, address: string, options: TopicOptions, chainid: string)
    ensures var p := ByTopicsParams(fromBlock, toBlock, options, chainid);
      forall k :: k in TopicsFixed(fromBlock, toBlock, chainid) ==> k in p && p[k] == TopicsFixed(fromBlock, toBlock, chainid)[k]
    ensures var p := ByAddressAndTopicsParams(fromBlock, toBlock, address, options, chainid);
      forall k :: k in AddressTopicsFixed(fromBlock, toBlock, address, chainid) ==>
        k in p && p[k] == AddressTopicsFixed(fromBlock, toBlock, address, chainid)[k]
  {
    OptionalKeysDisjoint(options);
  }

  /**
   * `logs_getLogsByTopics` sends `module`, `action`, `fromBlock`, `toBlock`
   * and `chainid`, plus exactly the optional keys whose argument is not
   * `None`, each with its argument (an empty string is kept).
   */
  lemma ByTopicsShape(fromBlock: string, toBlock: string, options: TopicOptions, chainid: string)
    ensures var p := GetLogsByTopics(fromBlock, toBlock, options, chainid).Params();
      var m := options.AsMap();
      && (forall k :: k in p <==> k in TopicsFixed(fromBlock, toBlock, chainid) || (k in m && m[k].Some?))
      && (forall k :: k in m && m[k].Some? ==> p[k] == m[k])
      && p["fromBlock"] == Some(fromBlock) && p["toBlock"] == Some(toBlock)
  {
    OptionalKeysDisjoint(options);
  }

  /** An empty-string topic is sent as an empty value, not dropped. */
  lemma EmptyTopicKept(fromBlock: string, toBlock: string, options: TopicOptions, chainid: string)
    requires options.topic0 == Some("")
    ensures var p := GetLogsByTopics(fromBlock, toBlock, options, chainid).Params();
      "topic0" in p && p["topic0"] == Some("")
  {
    ByTopicsShape(fromBlock, toBlock, options, chainid);
  }

  /** In the topic variants `page` and `offset` have no default: they are sent only when supplied. */
  lemma TopicsPagingOnlyWhenSupplied(fromBlock: string, toBlock: string, address: string, options: TopicOptions, chainid: string)
    ensures var p := GetLogsByTopics(fromBlock, toBlock, options, chainid).Params();
      && ("page" in p <==> options.page.Some?) && ("offset" in p <==> options.offset.Some?)
    ensures var p := GetLogsByAddressAndTopics(fromBlock, toBlock, address, options, chainid).Params();
      && ("page" in p <==> options.page.Some?) && ("offset" in p <==> options.offset.Some?)
  {
    var m := options.AsMap();
    assert m["page"] == options.page && m["offset"] == options.offset;
  }

  /** With every optional argument left out, the topics tool sends only its five fixed keys. */
  lemma TopicsDefaults(fromBlock: string, toBlock: string)
    ensures GetLogsByTopics(fromBlock, toBlock).Params().Keys == {"module", "action", "fromBlock", "toBlock", "chainid"}
    ensures GetLogsByTopics(fromBlock, toBlock).Params()["chainid"] == Some("1")
  {
    assert KeepPresent(TopicOptions().AsMap()) == map[];
  }

  /**
   * `logs_getLogsByAddressAndTopics` builds the map of
   * `logs_getLogsByTopics` on the shared arguments, plus `address`.
   */
  lemma AddressAndTopicsExtendsTopics(fromBlock: string, toBlock: string, address: string, options: TopicOptions, chainid: string)
    ensures GetLogsByAddressAndTopics(fromBlock, toBlock, address, options, chainid).Params()
         == GetLogsByTopics(fromBlock, toBlock, options, chainid).Params()["address" := Some(address)]
  {
    FixedAddressExtends(fromBlock, toBlock, address, chainid);
    OptionalKeysDisjoint(options);
    var opt := KeepPresent(options.AsMap());
    assert "address" !in opt;
    var fixed := TopicsFixed(fromBlock, toBlock, chainid);
    assert fixed["address" := Some(address)] + opt == (fixed + opt)["address" := Some(address)];
  }

  /** The fixed entries of the address variant are those of the topics variant plus `address`. */
  lemma FixedAddressExtends(fromBlock: string, toBlock: string, address: string, chainid: string)
    ensures AddressTopicsFixed(fromBlock, toBlock, address, chainid)
         == TopicsFixed(fromBlock, toBlock, chainid)["address" := Some(address)]
  {
  }
}
