/**
 * The `account_*` tools. All hand a dictionary literal to `api_call` except
 * the three token-transfer tools, which add `contractaddress` in place only
 * when it is truthy.
 */
module Accounts {
  import opened Wrappers
  import opened ToolParams

  const Module := "account"

  /** A call of one of the `account_*` tools, with the tool's own defaults. */
  datatype AccountCall =
    | Balance(address: string, chainid: string := "1")
    | BalanceMulti(address: string, chainid: string := "1")
    | TxList(address: string, startblock: string := "0", endblock: string := "99999999", page: string := "1",
             offset: string := "10", sort: string := "asc", chainid: string := "1")
    | TxListInternal(address: string, startblock: string := "0", endblock: string := "99999999",
                     page: string := "1", offset: string := "10", sort: string := "asc", chainid: string := "1")
    | TxListInternalByHash(txhash: string, chainid: string := "1")
    | TxListInternalByBlock(startblock: string, endblock: string, page: string := "1", offset: string := "10",
                            sort: string := "asc", chainid: string := "1")
    | TokenTx(address: string, contractaddress: Option<string> := None, startblock: string := "0",
              endblock: string := "99999999", page: string := "1", offset: string := "10", sort: string := "asc",
              chainid: string := "1")
    | TokenNftTx(address: string, contractaddress: Option<string> := None, startblock: string := "0",
                 endblock: string := "99999999", page: string := "1", offset: string := "10", sort: string := "asc",
                 chainid: string := "1")
    | Token1155Tx(address: string, contractaddress: Option<string> := None, startblock: string := "0",
                  endblock: string := "99999999", page: string := "1", offset: string := "10", sort: string := "asc",
                  chainid: string := "1")
    | FundedBy(address: string, chainid: string := "1")
    | GetMinedBlocks(address: string, blocktype: string := "blocks", page: string := "1", offset: string := "10",
                     chainid: string := "1")
    | TxsBeaconWithdrawal(address: string, startblock: string := "0", endblock: string := "99999999",
                          page: string := "1", offset: string := "100", sort: string := "asc", chainid: string := "1")
  {
    function Name(): string
    {
      match this
      case Balance(_, _) => "account_balance"
      case BalanceMulti(_, _) => "account_balancemulti"
      case TxList(_, _, _, _, _, _, _) => "account_txlist"
      case TxListInternal(_, _, _, _, _, _, _) => "account_txlistinternal"
      case TxListInternalByHash(_, _) => "account_txlistinternal_byhash"
      case TxListInternalByBlock(_, _, _, _, _, _) => "account_txlistinternal_byblock"
      case TokenTx(_, _, _, _, _, _, _, _) => "account_tokentx"
      case TokenNftTx(_, _, _, _, _, _, _, _) => "account_tokennfttx"
      case Token1155Tx(_, _, _, _, _, _, _, _) => "account_token1155tx"
      case FundedBy(_, _) => "account_fundedby"
      case GetMinedBlocks(_, _, _, _, _) => "account_getminedblocks"
      case TxsBeaconWithdrawal(_, _, _, _, _, _, _) => "account_txsBeaconWithdrawal"
    }

    /** The upstream action each tool sends; the three internal-transaction tools share one. */
    function Action(): string
    {
      match this
      case Balance(_, _) => "balance"
      case BalanceMulti(_, _) => "balancemulti"
      case TxList(_, _, _, _, _, _, _) => "txlist"
      case TxListInternal(_, _, _, _, _, _, _) => "txlistinternal"
      case TxListInternalByHash(_, _) => "txlistinternal"
      case TxListInternalByBlock(_, _, _, _, _, _) => "txlistinternal"
      case TokenTx(_, _, _, _, _, _, _, _) => "tokentx"
      case TokenNftTx(_, _, _, _, _, _, _, _) => "tokennfttx"
      case Token1155Tx(_, _, _, _, _, _, _, _) => "token1155tx"
      case FundedBy(_, _) => "fundedby"
      case GetMinedBlocks(_, _, _, _, _) => "getminedblocks"
      case TxsBeaconWithdrawal(_, _, _, _, _, _, _) => "txsBeaconWithdrawal"
    }

    /**
     * The dictionary the tool passes to `api_call`: `module=account`, the
     * tool's action and its `chainid`, and no `None` value.
     */
    function Params(): (p: ParamMap)
      ensures "module" in p && p["module"] == Some(Module)
      ensures "action" in p && p["action"] == Some(Action())
      ensures "chainid" in p && p["chainid"] == Some(chainid)
      ensures AllPresent(p)
    {
      match this
      case Balance(address, chainid) =>
        Routed(Module, "balance", chainid, map["address" := address])
      case BalanceMulti(address, chainid) =>
        Routed(Module, "balancemulti", chainid, map["address" := address])
      case TxList(address, startblock, endblock, page, offset, sort, chainid) =>
        ListParams("txlist", address, startblock, endblock, page, offset, sort, chainid)
      case TxListInternal(address, startblock, endblock, page, offset, sort, chainid) =>
        ListParams("txlistinternal", address, startblock, endblock, page, offset, sort, chainid)
      case TxListInternalByHash(txhash, chainid) =>
        Routed(Module, "txlistinternal", chainid, map["txhash" := txhash])
      case TxListInternalByBlock(startblock, endblock, page, offset, sort, chainid) =>
        Routed(Module, "txlistinternal", chainid,
               map["startblock" := startblock, "endblock" := endblock, "page" := page, "offset" := offset,
                   "sort" := sort])
      case TokenTx(address, contractaddress, startblock, endblock, page, offset, sort, chainid) =>
        TokenTransferParams("tokentx", address, contractaddress, startblock, endblock, page, offset, sort, chainid)
      case TokenNftTx(address, contractaddress, startblock, endblock, page, offset, sort, chainid) =>
        TokenTransferParams("tokennfttx", address, contractaddress, startblock, endblock, page, offset, sort, chainid)
      case Token1155Tx(address, contractaddress, startblock, endblock, page, offset, sort, chainid) =>
        TokenTransferParams("token1155tx", address, contractaddress, startblock, endblock, page, offset, sort, chainid)
      case FundedBy(address, chainid) =>
        Routed(Module, "fundedby", chainid, map["address" := address])
      case GetMinedBlocks(address, blocktype, page, offset, chainid) =>
        Routed(Module, "getminedblocks", chainid,
               map["address" := address, "blocktype" := blocktype, "page" := page, "offset" := offset])
      case TxsBeaconWithdrawal(address, startblock, endblock, page, offset, sort, chainid) =>
        ListParams("txsBeaconWithdrawal", address, startblock, endblock, page, offset, sort, chainid)
    }
  }

  /** The nine-entry dictionary of the address-and-block-range list tools. */
  function ListParams(action: string, address: string, startblock: string, endblock: string, page: string,
                      offset: string, sort: string, chainid: string): (p: ParamMap)
    ensures "module" in p && p["module"] == Some(Module) && "action" in p && p["action"] == Some(action)
    ensures "chainid" in p && p["chainid"] == Some(chainid)
    ensures AllPresent(p)
  {
    Routed(Module, action, chainid,
           map["address" := address, "startblock" := startblock, "endblock" := endblock, "page" := page,
               "offset" := offset, "sort" := sort])
  }

  /** Every entry of a list tool's dictionary, each with its argument. */
  lemma ListParamsEntries(action: string, address: string, startblock: string, endblock: string, page: string,
                          offset: string, sort: string, chainid: string)
    ensures var p := ListParams(action, address, startblock, endblock, page, offset, sort, chainid);
      && p.Keys == {"module", "action", "address", "startblock", "endblock", "page", "offset", "sort", "chainid"}
      && p["address"] == Some(address) && p["startblock"] == Some(startblock) && p["endblock"] == Some(endblock)
      && p["page"] == Some(page) && p["offset"] == Some(offset) && p["sort"] == Some(sort)
  {
  }

  // ---------------------------------------------------------------------------
  // account_tokentx, account_tokennfttx, account_token1155tx
  // ---------------------------------------------------------------------------

  /** A list tool's dictionary plus `contractaddress` when it is truthy. */
  function TokenTransferParams(action: string, address: string, contractaddress: Option<string>,
                               startblock: string, endblock: string, page: string, offset: string, sort: string,
                               chainid: string): (p: ParamMap)
    ensures "module" in p && p["module"] == Some(Module) && "action" in p && p["action"] == Some(action)
    ensures "chainid" in p && p["chainid"] == Some(chainid)
    ensures AllPresent(p)
  {
    var list := ListParams(action, address, startblock, endblock, page, offset, sort, chainid);
    UnionAllPresent(list, WhenTruthy("contractaddress", contractaddress));
    list + WhenTruthy("contractaddress", contractaddress)
  }

  /**
   * The body the three token-transfer tools of accounts.py share
   * (`account_tokentx`, `account_tokennfttx`, `account_token1155tx`): build
   * the dictionary, then `if contractaddress: params["contractaddress"] =
   * contractaddress`.
   */
  method BuildTokenTransfer(action: string, address: string, contractaddress: Option<string>,
                            startblock: string, endblock: string, page: string, offset: string, sort: string,
                            chainid: string) returns (p: ParamMap)
    ensures p == TokenTransferParams(action, address, contractaddress, startblock, endblock, page, offset, sort, chainid)
  {
    p := ListParams(action, address, startblock, endblock, page, offset, sort, chainid);
    if contractaddress.Some? && contractaddress.value != "" {
      p := p["contractaddress" := contractaddress];
    }
  }

  /**
   * A token-transfer dictionary holds `contractaddress` iff the argument is
   * truthy, and then unchanged; without it, it is the list tool's dictionary.
   */
  lemma TokenTransferShape(action: string, address: string, contractaddress: Option<string>,
                           startblock: string, endblock: string, page: string, offset: string, sort: string,
                           chainid: string)
    ensures var p := TokenTransferParams(action, address, contractaddress, startblock, endblock, page, offset, sort, chainid);
      && ("contractaddress" in p <==> Truthy(contractaddress))
      && ("contractaddress" in p ==> p["contractaddress"] == contractaddress)
      && p - {"contractaddress"} == ListParams(action, address, startblock, endblock, page, offset, sort, chainid)
  {
    var list := ListParams(action, address, startblock, endblock, page, offset, sort, chainid);
    ListParamsEntries(action, address, startblock, endblock, page, offset, sort, chainid);
    assert "contractaddress" !in list;
    assert (list + WhenTruthy("contractaddress", contractaddress)) - {"contractaddress"} == list;
  }

  /**
   * In the three token-transfer tools `contractaddress` is sent iff the
   * argument is truthy (`None` and `""` are both dropped), and then
   * unchanged; the rest is the list tool's dictionary.
   */
  lemma ContractAddressIffTruthy(c: AccountCall)
    requires c.TokenTx? || c.TokenNftTx? || c.Token1155Tx?
    ensures "contractaddress" in c.Params() <==> Truthy(c.contractaddress)
    ensures "contractaddress" in c.Params() ==> c.Params()["contractaddress"] == c.contractaddress
    ensures c.Params() - {"contractaddress"}
         == ListParams(c.Action(), c.address, c.startblock, c.endblock, c.page, c.offset, c.sort, c.chainid)
  {
    TokenTransferShape(c.Action(), c.address, c.contractaddress, c.startblock, c.endblock, c.page, c.offset,
                       c.sort, c.chainid);
  }

  // ---------------------------------------------------------------------------
  // Properties of the other tools
  // ---------------------------------------------------------------------------

  /**
   * The three internal-transaction tools share `action=txlistinternal` but
   * not their keys. By hash sends `txhash` and no address or block fields.
   */
  lemma InternalByHashShape(txhash: string, chainid: string)
    ensures var p := TxListInternalByHash(txhash, chainid).Params();
      && p["action"] == Some("txlistinternal")
      && p.Keys == {"module", "action", "txhash", "chainid"} && p["txhash"] == Some(txhash)
  {
  }

  /** By block sends the block range and paging but no `address`. */
  lemma InternalByBlockShape(startblock: string, endblock: string, page: string, offset: string, sort: string,
                             chainid: string)
    ensures var p := TxListInternalByBlock(startblock, endblock, page, offset, sort, chainid).Params();
      && p["action"] == Some("txlistinternal")
      && p.Keys == {"module", "action", "startblock", "endblock", "page", "offset", "sort", "chainid"}
      && p["startblock"] == Some(startblock) && p["endblock"] == Some(endblock)
  {
  }

  /** By address sends `address` and no `txhash`. */
  lemma InternalByAddressShape(address: string, startblock: string, endblock: string, page: string,
                               offset: string, sort: string, chainid: string)
    ensures var p := TxListInternal(address, startblock, endblock, page, offset, sort, chainid).Params();
      && p["action"] == Some("txlistinternal")
      && "address" in p && p["address"] == Some(address) && "txhash" !in p
  {
    ListParamsEntries("txlistinternal", address, startblock, endblock, page, offset, sort, chainid);
  }

  /**
   * The list tools default to blocks 0 to 99999999, page 1 of 10, ascending,
   * on chain 1; the beacon-withdrawal tool differs only in its page size of
   * 100.
   */
  lemma ListDefaults(address: string)
    ensures TxList(address).Params() == ListParams("txlist", address, "0", "99999999", "1", "10", "asc", "1")
    ensures TxListInternal(address).Params()
         == ListParams("txlistinternal", address, "0", "99999999", "1", "10", "asc", "1")
    ensures TxsBeaconWithdrawal(address).Params()
         == ListParams("txsBeaconWithdrawal", address, "0", "99999999", "1", "100", "asc", "1")
  {
  }

  /**
   * The token-transfer tools share the list defaults and, called without a
   * contract, send no `contractaddress`.
   */
  lemma TokenDefaults(address: string)
    ensures TokenTx(address).Params() == ListParams("tokentx", address, "0", "99999999", "1", "10", "asc", "1")
    ensures TokenNftTx(address).Params() == ListParams("tokennfttx", address, "0", "99999999", "1", "10", "asc", "1")
    ensures Token1155Tx(address).Params() == ListParams("token1155tx", address, "0", "99999999", "1", "10", "asc", "1")
  {
  }

  /**
   * `account_getminedblocks` sends its address, block type and paging and
   * never a sort or block range; by default the block type is canonical
   * blocks, page 1 of 10, on chain 1.
   */
  lemma MinedBlocksShape(address: string, blocktype: string, page: string, offset: string, chainid: string)
    ensures var p := GetMinedBlocks(address, blocktype, page, offset, chainid).Params();
      && p.Keys == {"module", "action", "address", "blocktype", "page", "offset", "chainid"}
      && p["address"] == Some(address) && p["blocktype"] == Some(blocktype)
      && p["page"] == Some(page) && p["offset"] == Some(offset)
    ensures GetMinedBlocks(address) == GetMinedBlocks(address, "blocks", "1", "10", "1")
  {
  }

  /** `account_balancemulti` forwards the comma-separated address list as one unchanged value. */
  lemma BalanceMultiForwardsList(addresses: string, chainid: string)
    ensures var p := BalanceMulti(addresses, chainid).Params();
      && p.Keys == {"module", "action", "address", "chainid"} && p["address"] == Some(addresses)
  {
  }
}
