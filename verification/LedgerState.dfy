/** The replicated state machine of the ledger, on values: balances, processed operations and reports. */
module LedgerState {
  import opened Text

  type Bytes = string

  datatype TransactionFields = TransactionFields(
    kind: string, nationID: string, eventID: string, signature: string, payload: string)

  /** Log lines slice the first eight characters of the event ID, so shorter ones are outside the model. */
  type Transaction = t: TransactionFields | |t.eventID| >= 8
    witness TransactionFields("", "", "--------", "", "")

  /** What every validator computes alike: JSON decoding, and Ed25519 checking of (nation, message, signature). */
  datatype Node = Node(decode: Bytes -> Option<Transaction>, verify: (string, string, string) -> bool)

  datatype Ledger = Ledger(balances: map<string, int>, processed: set<string>, reports: map<string, Bytes>)

  const SPEND_CREDIT := "SPEND_CREDIT"
  const SAVE_REPORT := "SAVE_REPORT"
  const NATIONS: seq<string> := ["BR", "UK", "FR", "US"]
  const INITIAL_CREDITS := 1000
  const INITIAL_TEXT := "1000"

  // ---------- one transaction ----------

  /** A signature is 64 bytes in hexadecimal. */
  predicate SignatureWellFormed(signature: string) {
    |signature| == 128 && forall i :: 0 <= i < |signature| ==> IsHexDigit(signature[i])
  }

  /** What a nation signs: type, nation and event with nothing between them. */
  function SignedMessage(tx: Transaction): string {
    tx.kind + tx.nationID + tx.eventID
  }

  /** The first refusal among malformed (1), unknown nation (2), broken signature (3) and forged (4); 0 if none. */
  function Verdict(node: Node, txBytes: Bytes): nat {
    match node.decode(txBytes)
    case None => 1
    case Some(tx) =>
      if tx.nationID !in NATIONS then 2
      else if !SignatureWellFormed(tx.signature) then 3
      else if !node.verify(tx.nationID, SignedMessage(tx), tx.signature) then 4
      else 0
  }

  predicate Valid(node: Node, txBytes: Bytes) {
    Verdict(node, txBytes) == 0
  }

  /** What identifies an operation: `<Type>_<EventID>`. */
  function DedupKey(tx: Transaction): string {
    tx.kind + "_" + tx.eventID
  }

  function KeyOf(node: Node, txBytes: Bytes): string
    requires Valid(node, txBytes)
  {
    DedupKey(node.decode(txBytes).value)
  }

  predicate IsSpend(node: Node, txBytes: Bytes, nation: string) {
    match node.decode(txBytes)
    case None => false
    case Some(tx) => tx.kind == SPEND_CREDIT && tx.nationID == nation
  }

  function Credits(balances: map<string, int>, nation: string): int {
    if nation in balances then balances[nation] else 0
  }

  function Balance(l: Ledger, nation: string): int {
    Credits(l.balances, nation)
  }

  /** A spend costs its nation one credit, whatever the balance; other operations cost nothing. */
  function Debited(balances: map<string, int>, tx: Transaction): map<string, int> {
    if tx.kind == SPEND_CREDIT then balances[tx.nationID := Credits(balances, tx.nationID) - 1] else balances
  }

  function Accept(l: Ledger, tx: Transaction, txBytes: Bytes): Ledger {
    Ledger(Debited(l.balances, tx), l.processed + {DedupKey(tx)}, l.reports[DedupKey(tx) := txBytes])
  }

  function Code(node: Node, l: Ledger, txBytes: Bytes): nat {
    if !Valid(node, txBytes) then Verdict(node, txBytes)
    else if KeyOf(node, txBytes) in l.processed then 5
    else 0
  }

  function Apply(node: Node, l: Ledger, txBytes: Bytes): Ledger {
    if Code(node, l, txBytes) == 0 then Accept(l, node.decode(txBytes).value, txBytes) else l
  }

  // ---------- a chain of transactions ----------

  function Run(node: Node, l: Ledger, txs: seq<Bytes>): Ledger {
    if txs == [] then l else Apply(node, Run(node, l, txs[..|txs| - 1]), txs[|txs| - 1])
  }

  function Codes(node: Node, l: Ledger, txs: seq<Bytes>): (codes: seq<nat>)
    ensures |codes| == |txs|
  {
    if txs == [] then []
    else
      var init := txs[..|txs| - 1];
      Codes(node, l, init) + [Code(node, Run(node, l, init), txs[|txs| - 1])]
  }

  function RunBlocks(node: Node, l: Ledger, blocks: seq<seq<Bytes>>): Ledger {
    if blocks == [] then l
    else Run(node, RunBlocks(node, l, blocks[..|blocks| - 1]), blocks[|blocks| - 1])
  }

  /** Every block's codes, one after the other. */
  function BlockCodes(node: Node, l: Ledger, blocks: seq<seq<Bytes>>): seq<nat> {
    if blocks == [] then []
    else
      var init := blocks[..|blocks| - 1];
      BlockCodes(node, l, init) + Codes(node, RunBlocks(node, l, init), blocks[|blocks| - 1])
  }

  function Chain(blocks: seq<seq<Bytes>>): seq<Bytes> {
    if blocks == [] then [] else Chain(blocks[..|blocks| - 1]) + blocks[|blocks| - 1]
  }

  // ---------- start-up and mempool ----------

  const EMPTY := Ledger(map[], {}, map[])

  /** Start-up gives a nation its credits only when it has no balance yet. */
  function SeedNation(l: Ledger, nation: string): Ledger {
    if nation in l.balances then l else l.(balances := l.balances[nation := INITIAL_CREDITS])
  }

  function SeedFirst(l: Ledger, n: nat): Ledger
    requires n <= |NATIONS|
  {
    if n == 0 then l else SeedNation(SeedFirst(l, n - 1), NATIONS[n - 1])
  }

  function Seed(l: Ledger): Ledger {
    SeedFirst(l, |NATIONS|)
  }

  function Genesis(): Ledger {
    Seed(EMPTY)
  }

  /** The mempool's check: malformed (1), spender without a balance (2), no credit left (3), passed (0). */
  function Check(node: Node, l: Ledger, txBytes: Bytes): nat {
    match node.decode(txBytes)
    case None => 1
    case Some(tx) =>
      if tx.kind != SPEND_CREDIT then 0
      else if tx.nationID !in l.balances then 2
      else if l.balances[tx.nationID] <= 0 then 3
      else 0
  }
}
