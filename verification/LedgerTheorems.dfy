/** What holds of every chain the ledger executes. */
module LedgerTheorems {
  import opened LedgerState
  import opened Permutations

  // ---------- splitting a chain ----------

  lemma {:induction false} RunConcat(node: Node, l: Ledger, a: seq<Bytes>, b: seq<Bytes>)
    ensures Run(node, l, a + b) == Run(node, Run(node, l, a), b)
    ensures Codes(node, l, a + b) == Codes(node, l, a) + Codes(node, Run(node, l, a), b)
  {
    hide Apply, Code;
    if b == [] {
      assert a + b == a;
    } else {
      var init := b[..|b| - 1];
      RunConcat(node, l, a, init);
      assert (a + b)[..|a + b| - 1] == a + init && (a + b)[|a + b| - 1] == b[|b| - 1];
      assert Codes(node, l, a) + (Codes(node, Run(node, l, a), init) + [Code(node, Run(node, l, a + init), b[|b| - 1])])
          == Codes(node, l, a) + Codes(node, Run(node, l, a), init) + [Code(node, Run(node, l, a + init), b[|b| - 1])];
    }
  }

  lemma RunLast(node: Node, l: Ledger, chain: seq<Bytes>, from: nat, until: nat)
    requires from < until <= |chain|
    ensures Run(node, l, chain[from..until]) == Apply(node, Run(node, l, chain[from..until - 1]), chain[until - 1])
  {
    assert chain[from..until][..until - 1 - from] == chain[from..until - 1];
  }

  /** Grouping transactions into blocks changes neither the state nor the results. */
  lemma {:induction false} BlocksDoNotMatter(node: Node, l: Ledger, blocks: seq<seq<Bytes>>)
    ensures RunBlocks(node, l, blocks) == Run(node, l, Chain(blocks))
    ensures BlockCodes(node, l, blocks) == Codes(node, l, Chain(blocks))
  {
    if blocks != [] {
      var init := blocks[..|blocks| - 1];
      BlocksDoNotMatter(node, l, init);
      RunConcat(node, l, Chain(init), blocks[|blocks| - 1]);
    }
  }

  lemma {:induction false} CodesAt(node: Node, l: Ledger, txs: seq<Bytes>, i: nat)
    requires i < |txs|
    ensures Codes(node, l, txs)[i] == Code(node, Run(node, l, txs[..i]), txs[i])
  {
    var rest := txs[i + 1..];
    assert txs == txs[..i] + ([txs[i]] + rest);
    RunConcat(node, l, txs[..i], [txs[i]] + rest);
    RunConcat(node, Run(node, l, txs[..i]), [txs[i]], rest);
    assert [txs[i]][..0] == [];
    assert Codes(node, Run(node, l, txs[..i]), [txs[i]])[0] == Code(node, Run(node, l, txs[..i]), txs[i]);
  }

  // ---------- the closed form of a block ----------

  predicate HasKey(node: Node, txBytes: Bytes, key: string) {
    Valid(node, txBytes) && KeyOf(node, txBytes) == key
  }

  lemma {:induction false} ProcessedAfter(node: Node, l: Ledger, txs: seq<Bytes>, key: string)
    ensures key in Run(node, l, txs).processed
            <==> key in l.processed || exists j :: 0 <= j < |txs| && HasKey(node, txs[j], key)
  {
    if txs != [] {
      var n := |txs| - 1;
      ProcessedAfter(node, l, txs[..n], key);
      assert forall j :: 0 <= j < n ==> txs[..n][j] == txs[j];
      if HasKey(node, txs[n], key) {
        assert key in Run(node, l, txs).processed;
      }
    }
  }

  /** A result depends on the transaction, on the starting state, and on earlier valid transactions with its key. */
  lemma BlockClosedForm(node: Node, l: Ledger, txs: seq<Bytes>, i: nat)
    requires i < |txs|
    ensures |Codes(node, l, txs)| == |txs|
    ensures Codes(node, l, txs)[i] ==
            if !Valid(node, txs[i]) then Verdict(node, txs[i])
            else if KeyOf(node, txs[i]) in l.processed
                    || exists j :: 0 <= j < i && HasKey(node, txs[j], KeyOf(node, txs[i])) then 5
            else 0
  {
    CodesAt(node, l, txs, i);
    if Valid(node, txs[i]) {
      ProcessedAfter(node, l, txs[..i], KeyOf(node, txs[i]));
      assert forall j :: 0 <= j < i ==> txs[..i][j] == txs[j];
    }
  }

  ghost predicate IsFirst(node: Node, txs: seq<Bytes>, i: nat, key: string)
    requires i < |txs|
  {
    HasKey(node, txs[i], key) && forall j :: 0 <= j < i ==> !HasKey(node, txs[j], key)
  }

  /** A report that is there stays as it is, and one that is stored during the chain is the first one accepted. */
  lemma {:induction false} FirstReportStays(node: Node, l: Ledger, txs: seq<Bytes>, key: string)
    ensures key in l.processed ==>
              (key in Run(node, l, txs).reports <==> key in l.reports)
              && (key in l.reports ==> Run(node, l, txs).reports[key] == l.reports[key])
    ensures forall i | 0 <= i < |txs| && IsFirst(node, txs, i, key) && key !in l.processed ::
              key in Run(node, l, txs).reports && Run(node, l, txs).reports[key] == txs[i]
  {
    if txs != [] {
      var n := |txs| - 1;
      var init := txs[..n];
      FirstReportStays(node, l, init, key);
      ProcessedAfter(node, l, init, key);
      forall i | 0 <= i < |txs| && IsFirst(node, txs, i, key) && key !in l.processed
        ensures key in Run(node, l, txs).reports && Run(node, l, txs).reports[key] == txs[i]
      {
        if i < n {
          assert init[i] == txs[i];
          assert forall j :: 0 <= j < i ==> init[j] == txs[j];
        } else {
          assert forall j :: 0 <= j < n ==> init[j] == txs[j];
        }
      }
    }
  }

  // ---------- replay ----------

  /** The code a transaction gets the second time. */
  function SecondTime(code: nat): nat {
    if code == 0 then 5 else code
  }

  ghost predicate AllProcessed(node: Node, l: Ledger, txs: seq<Bytes>) {
    forall i :: 0 <= i < |txs| && Valid(node, txs[i]) ==> KeyOf(node, txs[i]) in l.processed
  }

  lemma {:induction false} ProcessedIsInert(node: Node, l: Ledger, txs: seq<Bytes>)
    requires AllProcessed(node, l, txs)
    ensures Run(node, l, txs) == l
    ensures forall i :: 0 <= i < |txs| ==>
              Codes(node, l, txs)[i] == if Valid(node, txs[i]) then 5 else Verdict(node, txs[i])
  {
    if txs != [] {
      var init := txs[..|txs| - 1];
      assert forall i :: 0 <= i < |init| ==> init[i] == txs[i];
      ProcessedIsInert(node, l, init);
    }
  }

  function Repeated<T>(s: seq<T>, n: nat): seq<T> {
    if n == 0 then [] else Repeated(s, n - 1) + s
  }

  /** Executing an already executed stretch again, any number of times, changes no state; each 0 becomes a 5. */
  lemma {:induction false} ReplayIsNoOp(node: Node, l: Ledger, chain: seq<Bytes>, from: nat, to: nat, times: nat)
    requires from <= to <= |chain|
    ensures Run(node, Run(node, l, chain), Repeated(chain[from..to], times)) == Run(node, l, chain)
    ensures forall i :: from <= i < to ==>
              Codes(node, Run(node, l, chain), chain[from..to])[i - from] == SecondTime(Codes(node, l, chain)[i])
  {
    var done := Run(node, l, chain);
    var stretch := chain[from..to];
    forall i | 0 <= i < |stretch| && Valid(node, stretch[i])
      ensures KeyOf(node, stretch[i]) in done.processed
    {
      assert stretch[i] == chain[from + i];
      ProcessedAfter(node, l, chain, KeyOf(node, stretch[i]));
      assert HasKey(node, chain[from + i], KeyOf(node, stretch[i]));
    }
    ProcessedIsInert(node, done, stretch);
    forall i | from <= i < to
      ensures Codes(node, done, stretch)[i - from] == SecondTime(Codes(node, l, chain)[i])
    {
      assert stretch[i - from] == chain[i];
      BlockClosedForm(node, l, chain, i);
    }
    if times > 0 {
      ReplayIsNoOp(node, l, chain, from, to, times - 1);
      RunConcat(node, done, Repeated(stretch, times - 1), stretch);
    }
  }

  // ---------- audit ----------

  ghost function SpendReports(node: Node, l: Ledger, nation: string): set<string> {
    set key | key in l.reports && IsSpend(node, l.reports[key], nation)
  }

  ghost predicate Reconciled(node: Node, l: Ledger) {
    && l.reports.Keys == l.processed
    && l.balances.Keys == (set n | n in NATIONS)
    && forall n :: n in NATIONS ==> INITIAL_CREDITS - Balance(l, n) == |SpendReports(node, l, n)|
  }

  lemma GenesisLedger()
    ensures Genesis() == Ledger(map["BR" := 1000, "UK" := 1000, "FR" := 1000, "US" := 1000], {}, map[])
  {
    assert SeedFirst(EMPTY, 1).balances == map["BR" := 1000];
    assert SeedFirst(EMPTY, 2).balances == map["BR" := 1000, "UK" := 1000];
    assert SeedFirst(EMPTY, 3).balances == map["BR" := 1000, "UK" := 1000, "FR" := 1000];
    assert SeedFirst(EMPTY, 4).balances == map["BR" := 1000, "UK" := 1000, "FR" := 1000, "US" := 1000];
  }

  lemma NationNames()
    ensures (set n | n in NATIONS) == {"BR", "UK", "FR", "US"}
    ensures forall n :: n in NATIONS <==> n in {"BR", "UK", "FR", "US"}
  {
    assert NATIONS[0] == "BR" && NATIONS[1] == "UK" && NATIONS[2] == "FR" && NATIONS[3] == "US";
  }

  lemma ApplyFields(node: Node, l: Ledger, txBytes: Bytes)
    requires Code(node, l, txBytes) == 0
    ensures var after := Apply(node, l, txBytes); var key := KeyOf(node, txBytes);
            && key !in l.processed && after.processed == l.processed + {key}
            && after.reports == l.reports[key := txBytes]
            && (forall n :: Balance(after, n) == Balance(l, n) - if IsSpend(node, txBytes, n) then 1 else 0)
            && (forall n :: n in after.balances <==> n in l.balances || IsSpend(node, txBytes, n))
    ensures node.decode(txBytes).Some? && node.decode(txBytes).value.nationID in NATIONS
  {
  }

  lemma ApplyReconciles(node: Node, l: Ledger, txBytes: Bytes)
    requires Reconciled(node, l) && Code(node, l, txBytes) == 0
    ensures Reconciled(node, Apply(node, l, txBytes))
  {
    ApplyFields(node, l, txBytes);
    var after := Apply(node, l, txBytes);
    var key := KeyOf(node, txBytes);
    forall n | n in NATIONS
      ensures INITIAL_CREDITS - Balance(after, n) == |SpendReports(node, after, n)|
    {
      SpendReportAdded(node, l, after, key, txBytes, n);
    }
  }

  lemma SpendReportAdded(node: Node, l: Ledger, after: Ledger, key: string, txBytes: Bytes, nation: string)
    requires key !in l.reports && after.reports == l.reports[key := txBytes]
    ensures |SpendReports(node, after, nation)|
            == |SpendReports(node, l, nation)| + if IsSpend(node, txBytes, nation) then 1 else 0
  {
    var more := if IsSpend(node, txBytes, nation) then {key} else {};
    assert SpendReports(node, after, nation) == SpendReports(node, l, nation) + more;
  }

  function TotalCredits(balances: map<string, int>): int {
    Credits(balances, "BR") + Credits(balances, "UK") + Credits(balances, "FR") + Credits(balances, "US")
  }

  function TotalBalance(l: Ledger): int {
    TotalCredits(l.balances)
  }

  function IsSpendOfAny(node: Node, txBytes: Bytes): bool {
    match node.decode(txBytes)
    case None => false
    case Some(tx) => tx.kind == SPEND_CREDIT
  }

  /** How many spends of the chain got code 0. */
  function AcceptedDebits(node: Node, l: Ledger, txs: seq<Bytes>): nat {
    if txs == [] then 0
    else
      var init := txs[..|txs| - 1];
      AcceptedDebits(node, l, init) +
      if Codes(node, l, txs)[|txs| - 1] == 0 && IsSpendOfAny(node, txs[|txs| - 1]) then 1 else 0
  }

  lemma DebitedTotal(balances: map<string, int>, tx: Transaction)
    requires tx.nationID in NATIONS
    ensures TotalCredits(Debited(balances, tx)) == TotalCredits(balances) - if tx.kind == SPEND_CREDIT then 1 else 0
  {
    NationNames();
    assert tx.nationID in {"BR", "UK", "FR", "US"};
  }

  lemma Accepted(node: Node, l: Ledger, txBytes: Bytes)
    requires Code(node, l, txBytes) == 0
    ensures Valid(node, txBytes) && node.decode(txBytes).Some?
    ensures var tx := node.decode(txBytes).value;
            && Apply(node, l, txBytes) == Accept(l, tx, txBytes)
            && tx.nationID in NATIONS && DedupKey(tx) == KeyOf(node, txBytes) && DedupKey(tx) !in l.processed
  {
  }

  /** From an empty database, every balance is what the stored reports say, and no credit appears or disappears. */
  lemma {:induction false} AuditReconciles(node: Node, chain: seq<Bytes>)
    ensures Reconciled(node, Run(node, Genesis(), chain))
    ensures TotalBalance(Run(node, Genesis(), chain)) + AcceptedDebits(node, Genesis(), chain) == 4 * INITIAL_CREDITS
  {
    if chain == [] {
      GenesisLedger();
      NationNames();
      assert forall n :: SpendReports(node, Genesis(), n) == {};
    } else {
      var init := chain[..|chain| - 1];
      AuditReconciles(node, init);
      var before, last := Run(node, Genesis(), init), chain[|chain| - 1];
      if Code(node, before, last) == 0 {
        ApplyReconciles(node, before, last);
        Accepted(node, before, last);
        DebitedTotal(before.balances, node.decode(last).value);
      }
    }
  }

  lemma OnlyNations(node: Node, chain: seq<Bytes>)
    ensures forall n :: n in Run(node, Genesis(), chain).balances ==> n in NATIONS
  {
    AuditReconciles(node, chain);
  }

  // ---------- order independence ----------

  ghost predicate DistinctKeys(node: Node, txs: seq<Bytes>) {
    forall i, j :: 0 <= i < j < |txs| && Valid(node, txs[i]) && Valid(node, txs[j]) ==>
      KeyOf(node, txs[i]) != KeyOf(node, txs[j])
  }

  ghost predicate Independent(node: Node, a: Bytes, b: Bytes) {
    Valid(node, a) && Valid(node, b) ==> KeyOf(node, a) != KeyOf(node, b)
  }

  ghost predicate IndependentOfAll(node: Node, x: Bytes, others: seq<Bytes>) {
    forall b :: b in others ==> Independent(node, x, b)
  }

  lemma DebitsCommute(b: map<string, int>, s: Transaction, t: Transaction)
    ensures Debited(Debited(b, s), t) == Debited(Debited(b, t), s)
  {
  }

  lemma AcceptsCommute(l: Ledger, s: Transaction, a: Bytes, t: Transaction, b: Bytes)
    requires DedupKey(s) != DedupKey(t)
    ensures Accept(Accept(l, s, a), t, b) == Accept(Accept(l, t, b), s, a)
  {
    hide Debited, DedupKey;
    DebitsCommute(l.balances, s, t);
    var ka, kb := DedupKey(s), DedupKey(t);
    assert l.processed + {ka} + {kb} == l.processed + {kb} + {ka};
    assert l.reports[ka := a][kb := b] == l.reports[kb := b][ka := a];
  }

  lemma ApplyCommutes(node: Node, l: Ledger, a: Bytes, b: Bytes)
    requires Independent(node, a, b)
    ensures Apply(node, Apply(node, l, a), b) == Apply(node, Apply(node, l, b), a)
  {
    SameCodeAfter(node, l, a, b);
    SameCodeAfter(node, l, b, a);
    if Code(node, l, a) == 0 && Code(node, l, b) == 0 {
      AcceptsCommute(l, node.decode(a).value, a, node.decode(b).value, b);
    }
  }

  lemma SameCodeAfter(node: Node, l: Ledger, a: Bytes, b: Bytes)
    requires Independent(node, a, b)
    ensures Code(node, Apply(node, l, a), b) == Code(node, l, b)
  {
    if Code(node, l, a) == 0 {
      ApplyFields(node, l, a);
    }
  }

  /** A transaction can be carried past others with other keys. */
  lemma {:induction false} CarryPast(node: Node, l: Ledger, x: Bytes, b: seq<Bytes>)
    requires IndependentOfAll(node, x, b)
    ensures Run(node, Apply(node, l, x), b) == Apply(node, Run(node, l, b), x)
  {
    if b != [] {
      var init := b[..|b| - 1];
      assert forall y :: y in init ==> y in b;
      CarryPast(node, l, x, init);
      ApplyCommutes(node, Run(node, l, init), x, b[|b| - 1]);
    }
  }

  /** Permuted transactions with distinct keys reach the same state. */
  lemma {:induction false} SameStateAfterPermutation(node: Node, l: Ledger, xs: seq<Bytes>, ys: seq<Bytes>)
    requires multiset(xs) == multiset(ys)
    requires DistinctKeys(node, xs)
    ensures Run(node, l, xs) == Run(node, l, ys)
    ensures DistinctKeys(node, ys)
    decreases |xs|
  {
    assert |multiset(xs)| == |xs| && |multiset(ys)| == |ys|;
    if xs != [] {
      var k := WhereLastWent(xs, ys);
      var init, x := xs[..|xs| - 1], xs[|xs| - 1];
      LastIsIndependent(node, xs);
      SameStateAfterPermutation(node, l, init, Without(ys, k));
      WithoutOne(ys, k);
      SameMembers(init, Without(ys, k));
      CarryToEnd(node, l, ys, k);
      DistinctInserted(node, ys, k);
    }
  }

  lemma LastIsIndependent(node: Node, xs: seq<Bytes>)
    requires xs != [] && DistinctKeys(node, xs)
    ensures DistinctKeys(node, xs[..|xs| - 1])
    ensures IndependentOfAll(node, xs[|xs| - 1], xs[..|xs| - 1])
  {
    var init := xs[..|xs| - 1];
    assert forall i :: 0 <= i < |init| ==> init[i] == xs[i];
    forall b | b in init
      ensures Independent(node, xs[|xs| - 1], b)
    {
      var i :| 0 <= i < |init| && init[i] == b;
      assert xs[i] == b;
    }
  }

  /** ... and each transaction gets the result it would get alone, wherever it stands. */
  lemma OrderIndependence(node: Node, l: Ledger, xs: seq<Bytes>, ys: seq<Bytes>)
    requires multiset(xs) == multiset(ys)
    requires DistinctKeys(node, xs)
    ensures Run(node, l, xs) == Run(node, l, ys)
    ensures forall i, j :: 0 <= i < |xs| && 0 <= j < |ys| && xs[i] == ys[j] ==>
              Codes(node, l, xs)[i] == Codes(node, l, ys)[j] == Code(node, l, xs[i])
  {
    SameStateAfterPermutation(node, l, xs, ys);
    forall i, j | 0 <= i < |xs| && 0 <= j < |ys| && xs[i] == ys[j]
      ensures Codes(node, l, xs)[i] == Codes(node, l, ys)[j] == Code(node, l, xs[i])
    {
      AloneCode(node, l, xs, i);
      AloneCode(node, l, ys, j);
    }
  }

  lemma CarryToEnd(node: Node, l: Ledger, ys: seq<Bytes>, k: nat)
    requires k < |ys|
    requires IndependentOfAll(node, ys[k], ys[k + 1..])
    ensures Run(node, l, ys) == Apply(node, Run(node, l, Without(ys, k)), ys[k])
  {
    var a, x, b := ys[..k], ys[k], ys[k + 1..];
    assert ys == a + [x] + b;
    RunConcat(node, l, a + [x], b);
    assert (a + [x])[..|a|] == a;
    assert Run(node, l, a + [x]) == Apply(node, Run(node, l, a), x);
    CarryPast(node, Run(node, l, a), x, b);
    RunConcat(node, l, a, b);
  }

  lemma DistinctInserted(node: Node, ys: seq<Bytes>, k: nat)
    requires k < |ys|
    requires DistinctKeys(node, Without(ys, k))
    requires IndependentOfAll(node, ys[k], Without(ys, k))
    ensures DistinctKeys(node, ys)
  {
    var rest := Without(ys, k);
    forall i, j | 0 <= i < j < |ys| && Valid(node, ys[i]) && Valid(node, ys[j])
      ensures KeyOf(node, ys[i]) != KeyOf(node, ys[j])
    {
      var i' := if i < k then i else i - 1;
      var j' := if j < k then j else j - 1;
      if i == k {
        assert rest[j'] == ys[j] && rest[j'] in rest;
      } else if j == k {
        assert rest[i'] == ys[i] && rest[i'] in rest;
      } else {
        assert rest[i'] == ys[i] && rest[j'] == ys[j];
      }
    }
  }

  lemma AloneCode(node: Node, l: Ledger, txs: seq<Bytes>, i: nat)
    requires i < |txs| && DistinctKeys(node, txs)
    ensures Codes(node, l, txs)[i] == Code(node, l, txs[i])
  {
    BlockClosedForm(node, l, txs, i);
  }
}
