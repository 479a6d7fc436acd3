/** The mempool's check against the block's execution: what it leaves open, and how far balances can fall. */
module Overdraft {
  import opened Text
  import opened LedgerState
  import opened LedgerTheorems

  // ---------- checked and accepted ----------

  /** What passing the mempool check leaves open: the block accepts exactly the authentic ones with a fresh key. */
  lemma CheckedThenAccepted(node: Node, l: Ledger, txBytes: Bytes)
    requires Check(node, l, txBytes) == 0
    ensures Code(node, l, txBytes) == 0
            <==> Verdict(node, txBytes) !in {2, 3, 4} && DedupKey(node.decode(txBytes).value) !in l.processed
  {
  }

  /** Each refusal but the parse error can follow a passed check: here on every ledger, and for 5 on a processed key. */
  lemma CheckedButRefused(l: Ledger, txBytes: Bytes, code: nat) returns (node: Node)
    requires code in {2, 3, 4} || (code == 5 && "SAVE_REPORT_--------" in l.processed)
    ensures Check(node, l, txBytes) == 0 && Code(node, l, txBytes) == code
  {
    var signature := if code == 3 then "" else seq(128, _ => '0');
    var tx: Transaction := TransactionFields(SAVE_REPORT, if code == 2 then "" else "BR", "--------", signature, "");
    node := Node(_ => Some(tx), (_, _, _) => code == 5);
    NationNames();
    assert DedupKey(tx) == "SAVE_REPORT_--------";
  }

  // ---------- exact balances ----------

  /** Transaction i is the spend that costs the nation a credit: valid, and the first with a key not yet processed. */
  ghost predicate Costs(node: Node, l: Ledger, txs: seq<Bytes>, i: nat, nation: string)
    requires i < |txs|
  {
    && Valid(node, txs[i]) && IsSpend(node, txs[i], nation)
    && KeyOf(node, txs[i]) !in l.processed && IsFirst(node, txs, i, KeyOf(node, txs[i]))
  }

  ghost function Spent(node: Node, l: Ledger, txs: seq<Bytes>, nation: string): set<nat> {
    set i: nat | i < |txs| && Costs(node, l, txs, i, nation)
  }

  lemma CostsPrefix(node: Node, l: Ledger, txs: seq<Bytes>, i: nat, n: nat, nation: string)
    requires i < n <= |txs|
    ensures Costs(node, l, txs[..n], i, nation) <==> Costs(node, l, txs, i, nation)
  {
    assert forall j :: 0 <= j < n ==> txs[..n][j] == txs[j];
  }

  lemma CostsExactly(node: Node, l: Ledger, txs: seq<Bytes>, i: nat, nation: string)
    requires i < |txs|
    ensures Costs(node, l, txs, i, nation) <==> Codes(node, l, txs)[i] == 0 && IsSpend(node, txs[i], nation)
  {
    BlockClosedForm(node, l, txs, i);
  }

  lemma SpentGrows(node: Node, l: Ledger, txs: seq<Bytes>, nation: string)
    requires txs != []
    ensures var n := |txs| - 1;
            |Spent(node, l, txs, nation)|
            == |Spent(node, l, txs[..n], nation)| + if Costs(node, l, txs, n, nation) then 1 else 0
  {
    var n := |txs| - 1;
    forall i: nat | i < n
      ensures Costs(node, l, txs[..n], i, nation) <==> Costs(node, l, txs, i, nation)
    {
      CostsPrefix(node, l, txs, i, n, nation);
    }
    var more: set<nat> := if Costs(node, l, txs, n, nation) then {n} else {};
    assert Spent(node, l, txs, nation) == Spent(node, l, txs[..n], nation) + more;
  }

  /** A nation's balance falls by exactly its valid spends that are the first with a fresh key, and by nothing else. */
  lemma {:induction false} BalanceClosedForm(node: Node, l: Ledger, txs: seq<Bytes>, nation: string)
    ensures Balance(Run(node, l, txs), nation) == Balance(l, nation) - |Spent(node, l, txs, nation)|
    ensures Balance(Run(node, l, txs), nation) >= 0 <==> |Spent(node, l, txs, nation)| <= Balance(l, nation)
  {
    if txs == [] {
      assert Spent(node, l, txs, nation) == {};
    } else {
      hide Spent, Costs, Balance, Verdict, KeyOf, IsSpend;
      var n := |txs| - 1;
      BalanceClosedForm(node, l, txs[..n], nation);
      SpentGrows(node, l, txs, nation);
      CostsExactly(node, l, txs, n, nation);
      var before := Run(node, l, txs[..n]);
      if Code(node, before, txs[n]) == 0 {
        ApplyFields(node, before, txs[n]);
      }
    }
  }

  // ---------- overdraft ----------

  /** How many transactions of the block debit the nation if accepted. */
  function SpendsOf(node: Node, txs: seq<Bytes>, nation: string): nat {
    if txs == [] then 0
    else SpendsOf(node, txs[..|txs| - 1], nation) +
         if Valid(node, txs[|txs| - 1]) && IsSpend(node, txs[|txs| - 1], nation) then 1 else 0
  }

  ghost predicate Checked(node: Node, l: Ledger, txs: seq<Bytes>) {
    forall i :: 0 <= i < |txs| && IsSpendOfAny(node, txs[i]) ==> Check(node, l, txs[i]) == 0
  }

  /** Every spend passed the check against its block's starting state, and no block has more than k of the nation. */
  ghost predicate Guarded(node: Node, l: Ledger, blocks: seq<seq<Bytes>>, nation: string, k: nat) {
    forall b :: 0 <= b < |blocks| ==>
      Checked(node, RunBlocks(node, l, blocks[..b]), blocks[b]) && SpendsOf(node, blocks[b], nation) <= k
  }

  lemma {:induction false} BlockDebits(node: Node, l: Ledger, txs: seq<Bytes>, nation: string)
    requires nation in l.balances
    ensures nation in Run(node, l, txs).balances
    ensures Balance(l, nation) - SpendsOf(node, txs, nation) <= Balance(Run(node, l, txs), nation) <= Balance(l, nation)
  {
    if txs != [] {
      BlockDebits(node, l, txs[..|txs| - 1], nation);
    }
  }

  lemma {:induction false} SpendsPrefix(node: Node, txs: seq<Bytes>, i: nat, nation: string)
    requires i <= |txs|
    ensures SpendsOf(node, txs[..i], nation) <= SpendsOf(node, txs, nation)
    ensures SpendsOf(node, txs[..i], nation) > 0 ==>
              exists j :: 0 <= j < i && Valid(node, txs[j]) && IsSpend(node, txs[j], nation)
    decreases |txs|, i
  {
    if i < |txs| {
      SpendsPrefix(node, txs[..|txs| - 1], i, nation);
      assert txs[..|txs| - 1][..i] == txs[..i];
    } else if i > 0 {
      assert txs[..i] == txs;
      SpendsPrefix(node, txs[..|txs| - 1], i - 1, nation);
      assert txs[..|txs| - 1][..i - 1] == txs[..|txs| - 1];
    } else {
      assert txs[..0] == [];
    }
  }

  lemma {:induction false} BoundaryBound(node: Node, blocks: seq<seq<Bytes>>, nation: string, k: nat)
    requires nation in NATIONS && k >= 1 && Guarded(node, Genesis(), blocks, nation, k)
    ensures nation in RunBlocks(node, Genesis(), blocks).balances
    ensures Balance(RunBlocks(node, Genesis(), blocks), nation) >= 1 - k
  {
    GenesisLedger();
    NationNames();
    if blocks != [] {
      var init, block := blocks[..|blocks| - 1], blocks[|blocks| - 1];
      assert forall b :: 0 <= b < |init| ==> init[b] == blocks[b] && init[..b] == blocks[..b];
      BoundaryBound(node, init, nation, k);
      PrefixBound(node, RunBlocks(node, Genesis(), init), block, nation, k, |block|);
      assert block[..|block|] == block;
    }
  }

  /** In a guarded run the balance is at least 1 - k after every transaction of every block. */
  lemma OverdraftBound(node: Node, blocks: seq<seq<Bytes>>, nation: string, k: nat, b: nat, i: nat)
    requires nation in NATIONS && k >= 1 && Guarded(node, Genesis(), blocks, nation, k)
    requires b < |blocks| && i <= |blocks[b]|
    ensures Balance(Run(node, RunBlocks(node, Genesis(), blocks[..b]), blocks[b][..i]), nation) >= 1 - k
  {
    var init := blocks[..b];
    assert forall a :: 0 <= a < |init| ==> init[a] == blocks[a] && init[..a] == blocks[..a];
    BoundaryBound(node, init, nation, k);
    PrefixBound(node, RunBlocks(node, Genesis(), init), blocks[b], nation, k, i);
  }

  lemma PrefixBound(node: Node, start: Ledger, block: seq<Bytes>, nation: string, k: nat, i: nat)
    requires i <= |block| && nation in start.balances && Balance(start, nation) >= 1 - k
    requires Checked(node, start, block) && SpendsOf(node, block, nation) <= k
    ensures nation in Run(node, start, block[..i]).balances
    ensures Balance(Run(node, start, block[..i]), nation) >= 1 - k
  {
    BlockDebits(node, start, block[..i], nation);
    SpendsPrefix(node, block, i, nation);
    if SpendsOf(node, block[..i], nation) > 0 {
      var j :| 0 <= j < i && Valid(node, block[j]) && IsSpend(node, block[j], nation);
      assert Check(node, start, block[j]) == 0;
    }
  }

  /** The bound is reached: k fresh, authentic spends of a nation with one credit all pass the check together. */
  lemma {:induction false} OverdraftReached(node: Node, l: Ledger, block: seq<Bytes>, nation: string)
    requires nation in l.balances && Balance(l, nation) == 1
    requires forall i :: 0 <= i < |block| ==> IsSpend(node, block[i], nation) && Code(node, l, block[i]) == 0
    requires DistinctKeys(node, block)
    ensures Checked(node, l, block) && SpendsOf(node, block, nation) == |block|
    ensures nation in Run(node, l, block).balances
    ensures Balance(Run(node, l, block), nation) == 1 - |block|
  {
    if block != [] {
      var init := block[..|block| - 1];
      assert forall i :: 0 <= i < |init| ==> init[i] == block[i];
      OverdraftReached(node, l, init, nation);
      var last := |block| - 1;
      AloneCode(node, l, block, last);
      CodesAt(node, l, block, last);
    }
  }

  // ---------- from an empty database ----------

  /** The chain that has one transaction in each block. */
  function Singles(txs: seq<Bytes>): seq<seq<Bytes>> {
    seq(|txs|, i requires 0 <= i < |txs| => [txs[i]])
  }

  ghost predicate FreshSpends(node: Node, l: Ledger, txs: seq<Bytes>, nation: string) {
    && DistinctKeys(node, txs)
    && forall i :: 0 <= i < |txs| ==> IsSpend(node, txs[i], nation) && Code(node, l, txs[i]) == 0
  }

  /** Fresh spends one after the other: each block leaves one credit less, and the others stay fresh. */
  lemma {:induction false} SpentOneByOne(node: Node, l: Ledger, txs: seq<Bytes>, nation: string, n: nat)
    requires FreshSpends(node, l, txs, nation) && n <= |txs| && nation in l.balances
    ensures RunBlocks(node, l, Singles(txs)[..n]) == Run(node, l, txs[..n])
    ensures nation in Run(node, l, txs[..n]).balances
    ensures Balance(Run(node, l, txs[..n]), nation) == Balance(l, nation) - n
    ensures FreshSpends(node, Run(node, l, txs[..n]), txs[n..], nation)
  {
    hide Apply, Code, Valid, Verdict, KeyOf, IsSpend, Balance, FreshSpends;
    if n == 0 {
      assert txs[0..] == txs && txs[..0] == [] && Singles(txs)[..0] == [];
    } else {
      SpentOneByOne(node, l, txs, nation, n - 1);
      var before, x := Run(node, l, txs[..n - 1]), txs[n - 1];
      assert txs[n - 1..][0] == x;
      assert txs[..n][..n - 1] == txs[..n - 1];
      assert Singles(txs)[..n][..n - 1] == Singles(txs)[..n - 1];
      assert [x][..0] == [] && Run(node, before, [x]) == Apply(node, before, x);
      OneSpent(node, before, txs[n - 1..], nation);
      assert txs[n - 1..][1..] == txs[n..];
    }
  }

  /** Spending the first of several fresh spends costs one credit and leaves the others fresh. */
  lemma OneSpent(node: Node, l: Ledger, txs: seq<Bytes>, nation: string)
    requires txs != [] && FreshSpends(node, l, txs, nation) && nation in l.balances
    ensures var after := Apply(node, l, txs[0]);
            && nation in after.balances && Balance(after, nation) == Balance(l, nation) - 1
            && FreshSpends(node, after, txs[1..], nation)
  {
    hide Verdict, KeyOf, IsSpend, Balance;
    ApplyFields(node, l, txs[0]);
    var after, rest := Apply(node, l, txs[0]), txs[1..];
    hide Apply, Code;
    forall i | 0 <= i < |rest|
      ensures IsSpend(node, rest[i], nation) && Code(node, after, rest[i]) == 0
    {
      assert rest[i] == txs[i + 1];
      SameCodeAfter(node, l, txs[0], rest[i]);
    }
    assert forall i :: 0 <= i < |rest| ==> rest[i] == txs[i + 1];
  }

  lemma SingleIsChecked(node: Node, l: Ledger, txs: seq<Bytes>, nation: string, b: nat)
    requires FreshSpends(node, l, txs, nation) && b < |txs| && nation in l.balances && Balance(l, nation) > b
    ensures Checked(node, RunBlocks(node, l, Singles(txs)[..b]), [txs[b]]) && SpendsOf(node, [txs[b]], nation) <= 1
  {
    SpentOneByOne(node, l, txs, nation, b);
    assert txs[b..][0] == txs[b];
    assert [txs[b]][..0] == [];
  }

  lemma {:induction false} ChainOfSingles(txs: seq<Bytes>, n: nat)
    requires n <= |txs|
    ensures Chain(Singles(txs)[..n]) == txs[..n]
  {
    if n > 0 {
      ChainOfSingles(txs, n - 1);
      assert Singles(txs)[..n][..n - 1] == Singles(txs)[..n - 1];
    }
  }

  /** Fresh spends, one to a block until one credit is left, and the remaining k together: all pass the check. */
  lemma SpentDown(node: Node, l: Ledger, txs: seq<Bytes>, nation: string, n: nat, k: nat)
    returns (blocks: seq<seq<Bytes>>)
    requires nation in l.balances && Balance(l, nation) == n + 1 && k >= 1 && |txs| == n + k
    requires FreshSpends(node, l, txs, nation)
    ensures Chain(blocks) == txs && Guarded(node, l, blocks, nation, k)
    ensures Balance(RunBlocks(node, l, blocks), nation) == 1 - k
  {
    hide Run, Checked, SpendsOf, Balance, Apply, Code, IsSpend;
    var singles := Singles(txs)[..n];
    blocks := singles + [txs[n..]];
    assert blocks[..n] == singles;
    SpentOneByOne(node, l, txs, nation, n);
    OverdraftReached(node, Run(node, l, txs[..n]), txs[n..], nation);
    hide FreshSpends;
    forall b | 0 <= b < |blocks|
      ensures Checked(node, RunBlocks(node, l, blocks[..b]), blocks[b]) && SpendsOf(node, blocks[b], nation) <= k
    {
      if b < n {
        SingleIsChecked(node, l, txs, nation, b);
        assert blocks[..b] == Singles(txs)[..b] && blocks[b] == [txs[b]];
      }
    }
    ChainOfSingles(txs, n);
    assert txs == txs[..n] + txs[n..];
  }

  /**
   * From an empty database: given 999 + k fresh authentic spends of a nation, blocks of one transaction each spend
   * all credits but one, and a last block of k, all checked, leaves 1 - k. So the bound is reached in guarded runs.
   */
  lemma OverdraftFromGenesis(node: Node, txs: seq<Bytes>, nation: string, k: nat) returns (blocks: seq<seq<Bytes>>)
    requires nation in NATIONS && k >= 1 && |txs| == INITIAL_CREDITS - 1 + k
    requires FreshSpends(node, Genesis(), txs, nation)
    ensures Chain(blocks) == txs && Guarded(node, Genesis(), blocks, nation, k)
    ensures Balance(RunBlocks(node, Genesis(), blocks), nation) == 1 - k
  {
    assert nation in Genesis().balances && Balance(Genesis(), nation) == INITIAL_CREDITS by {
      GenesisLedger();
      NationNames();
    }
    hide Genesis, FreshSpends, RunBlocks, Guarded;
    blocks := SpentDown(node, Genesis(), txs, nation, INITIAL_CREDITS - 1, k);
  }
}
