/**
 * The chain registry (`CHAIN_CONFIGS`, whose contents are not part of this
 * model) and the answers a chain's JSON-RPC endpoint gives to the two queries
 * the verifiers make.
 */
module Chains {
  import opened Wrappers

  /** USDC amounts on chain are integers in units of 10^-6 USDC. */
  const MicroUnits: real := 1000000.0

  /** One chain: its numeric chain id, its RPC endpoint and its USDC token contract. */
  datatype ChainConfig = ChainConfig(chainId: nat, rpcUrl: string, usdcAddress: string)

  /** The registry as its entries in dictionary iteration order. */
  type Registry = seq<(string, ChainConfig)>

  /** A dictionary has one entry per key. */
  predicate DistinctNames(reg: Registry) {
    forall i, j :: 0 <= i < j < |reg| ==> reg[i].0 != reg[j].0
  }

  /** `name in CHAIN_CONFIGS`. */
  predicate Has(reg: Registry, name: string) {
    exists i :: 0 <= i < |reg| && reg[i].0 == name
  }

  /** `CHAIN_CONFIGS.get(name)`. */
  function Lookup(reg: Registry, name: string): (r: Option<ChainConfig>)
    ensures r.Some? <==> Has(reg, name)
    ensures r.Some? ==> exists i :: 0 <= i < |reg| && reg[i] == (name, r.value)
  {
    if reg == [] then None
    else if reg[0].0 == name then Some(reg[0].1)
    else
      var r := Lookup(reg[1..], name);
      assert r.Some? ==> exists i :: 0 <= i < |reg| && reg[i] == (name, r.value) by {
        if r.Some? {
          var i :| 0 <= i < |reg[1..]| && reg[1..][i] == (name, r.value);
          assert reg[i + 1] == (name, r.value);
        }
      }
      assert Has(reg[1..], name) ==> Has(reg, name) by {
        if Has(reg[1..], name) {
          var i :| 0 <= i < |reg[1..]| && reg[1..][i].0 == name;
          assert reg[i + 1].0 == name;
        }
      }
      assert Has(reg, name) ==> Has(reg[1..], name) by {
        if Has(reg, name) {
          var i :| 0 <= i < |reg| && reg[i].0 == name;
          assert i > 0 && reg[1..][i - 1].0 == name;
        }
      }
      r
  }

  /** In a registry with distinct names, lookup finds the one entry of that name. */
  lemma {:induction false} LookupEntry(reg: Registry, i: nat)
    requires DistinctNames(reg)
    requires i < |reg|
    ensures Lookup(reg, reg[i].0) == Some(reg[i].1)
  {
    if i > 0 {
      assert reg[0].0 != reg[i].0;
      assert DistinctNames(reg[1..]) by {
        forall j, k | 0 <= j < k < |reg[1..]| ensures reg[1..][j].0 != reg[1..][k].0 {
          assert reg[1..][j] == reg[j + 1] && reg[1..][k] == reg[k + 1];
        }
      }
      LookupEntry(reg[1..], i - 1);
      assert reg[1..][i - 1] == reg[i];
    }
  }

  /** What `get_transaction` returns: only the destination field is used. */
  datatype Tx = Tx(to: Option<string>)

  /** The arguments of a decoded ERC-20 `Transfer(from, to, value)` event. */
  datatype Transfer = Transfer(from: string, to: string, value: nat)

  /** A receipt log: its emitting contract, and its decoding as a Transfer (None: decoding raises). */
  datatype Log = Log(address: string, transfer: Option<Transfer>)

  datatype Receipt = Receipt(status: int, logs: seq<Log>)

  /**
   * The answers of one RPC endpoint. A hash absent from `txs` makes
   * `get_transaction` raise (not found); a hash absent from `receipts` makes
   * `get_transaction_receipt` raise (pending); a present receipt may be None.
   */
  datatype ChainNode = ChainNode(txs: map<string, Tx>, receipts: map<string, Option<Receipt>>)

  /** RPC endpoints by URL; a URL that is absent answers every call with an error. */
  type Nodes = map<string, ChainNode>

  /** `Web3(HTTPProvider(url)).eth.get_transaction(h)`; None when it raises. */
  function GetTransaction(nodes: Nodes, url: string, h: string): Option<Tx> {
    if url in nodes && h in nodes[url].txs then Some(nodes[url].txs[h]) else None
  }

  /** `get_transaction_receipt(h)`; None when it raises, Some(None) when it returns None. */
  function GetReceipt(nodes: Nodes, url: string, h: string): Option<Option<Receipt>> {
    if url in nodes && h in nodes[url].receipts then Some(nodes[url].receipts[h]) else None
  }
}
