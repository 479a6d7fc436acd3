/** The ledger's database: one flat map of text keys and values, changed by one Put at a time. */
module FlatStore {
  import opened Text
  import opened LedgerState

  type Store = map<string, string>

  datatype Put = Put(key: string, value: string)

  // ---------- three key spaces in one map ----------

  const BALANCE := "balance:"
  const PROCESSED := "processed:"
  const REPORT := "report:"

  function Key(prefix: string, name: string): string {
    prefix + name
  }

  lemma KeyInjective(prefix: string, a: string, b: string)
    ensures Key(prefix, a) == Key(prefix, b) <==> a == b
  {
    assert Key(prefix, a)[|prefix|..] == a && Key(prefix, b)[|prefix|..] == b;
  }

  function BalanceKey(nation: string): string {
    Key(BALANCE, nation)
  }

  function ProcessedKey(dedupKey: string): string {
    Key(PROCESSED, dedupKey)
  }

  function ReportKey(dedupKey: string): string {
    Key(REPORT, dedupKey)
  }

  /** The keys of the map that start with the prefix are the content's, with the content's values. */
  ghost predicate Section(db: Store, prefix: string, content: map<string, string>) {
    && (forall k {:trigger Key(prefix, k)} :: Key(prefix, k) in db <==> k in content)
    && (forall k {:trigger Key(prefix, k)} :: k in content ==> db[Key(prefix, k)] == content[k])
  }

  ghost predicate OnlySections(db: Store) {
    forall key :: key in db ==> HasPrefix(key, BALANCE) || HasPrefix(key, PROCESSED) || HasPrefix(key, REPORT)
  }

  function Printed(balances: map<string, int>): map<string, string> {
    map n | n in balances :: Itoa(balances[n])
  }

  function Marks(keys: set<string>): map<string, string> {
    map k | k in keys :: "true"
  }

  /** The flat map holds exactly this ledger. */
  ghost predicate Represents(db: Store, l: Ledger) {
    && Section(db, BALANCE, Printed(l.balances))
    && Section(db, PROCESSED, Marks(l.processed))
    && Section(db, REPORT, l.reports)
    && OnlySections(db)
  }

  /** Keys of different sections never alias, and within a section they alias only when the names do. */
  lemma NoAliasing(a: string, b: string)
    ensures BalanceKey(a) != ProcessedKey(b) && BalanceKey(a) != ReportKey(b) && ProcessedKey(a) != ReportKey(b)
    ensures BalanceKey(a) == BalanceKey(b) <==> a == b
    ensures ProcessedKey(a) == ProcessedKey(b) <==> a == b
    ensures ReportKey(a) == ReportKey(b) <==> a == b
  {
    assert BalanceKey(a)[0] == 'b' && ProcessedKey(a)[0] == 'p' == ProcessedKey(b)[0] && ReportKey(b)[0] == 'r';
    KeyInjective(BALANCE, a, b);
    KeyInjective(PROCESSED, a, b);
    KeyInjective(REPORT, a, b);
  }

  lemma SameSection(db: Store, prefix: string, m1: map<string, string>, m2: map<string, string>)
    requires Section(db, prefix, m1) && Section(db, prefix, m2)
    ensures m1 == m2
  {
    forall k
      ensures k in m1 <==> k in m2
      ensures k in m1 ==> m1[k] == m2[k]
    {
      assert Key(prefix, k) in db <==> k in m1;
    }
  }

  lemma PrintedInjective(b1: map<string, int>, b2: map<string, int>)
    requires Printed(b1) == Printed(b2)
    ensures b1 == b2
  {
    assert b1.Keys == Printed(b1).Keys == Printed(b2).Keys == b2.Keys;
    forall n | n in b1
      ensures b1[n] == b2[n]
    {
      assert Printed(b1)[n] == Printed(b2)[n];
      AtoiItoa(b1[n]);
      AtoiItoa(b2[n]);
    }
  }

  lemma SectionCovers(db1: Store, db2: Store, prefix: string, content: map<string, string>, key: string)
    requires Section(db1, prefix, content) && Section(db2, prefix, content)
    requires key in db1 && HasPrefix(key, prefix)
    ensures key in db2 && db2[key] == db1[key]
  {
    assert key == Key(prefix, key[|prefix|..]);
  }

  lemma SubStore(db1: Store, db2: Store, l: Ledger)
    requires Represents(db1, l) && Represents(db2, l)
    ensures forall key :: key in db1 ==> key in db2 && db1[key] == db2[key]
  {
    forall key | key in db1
      ensures key in db2 && db1[key] == db2[key]
    {
      if HasPrefix(key, BALANCE) {
        SectionCovers(db1, db2, BALANCE, Printed(l.balances), key);
      } else if HasPrefix(key, PROCESSED) {
        SectionCovers(db1, db2, PROCESSED, Marks(l.processed), key);
      } else {
        SectionCovers(db1, db2, REPORT, l.reports, key);
      }
    }
  }

  /** A ledger has one flat form, and a flat form has one ledger: balances survive printing and parsing. */
  lemma RepresentsUnique(db1: Store, l1: Ledger, db2: Store, l2: Ledger)
    requires Represents(db1, l1) && Represents(db2, l2)
    ensures db1 == db2 <==> l1 == l2
  {
    if l1 == l2 {
      SubStore(db1, db2, l1);
      SubStore(db2, db1, l1);
      assert db1.Keys == db2.Keys;
    }
    if db1 == db2 {
      SameSection(db1, BALANCE, Printed(l1.balances), Printed(l2.balances));
      PrintedInjective(l1.balances, l2.balances);
      SameSection(db1, PROCESSED, Marks(l1.processed), Marks(l2.processed));
      assert l1.processed == Marks(l1.processed).Keys == Marks(l2.processed).Keys == l2.processed;
      SameSection(db1, REPORT, l1.reports, l2.reports);
    }
  }

  // ---------- one Put ----------

  lemma PutHere(db: Store, prefix: string, content: map<string, string>, name: string, value: string)
    requires Section(db, prefix, content)
    ensures Section(db[Key(prefix, name) := value], prefix, content[name := value])
  {
    var after, holds := db[Key(prefix, name) := value], content[name := value];
    forall k
      ensures Key(prefix, k) in after <==> k in holds
      ensures k in holds ==> after[Key(prefix, k)] == holds[k]
    {
      KeyInjective(prefix, k, name);
    }
  }

  lemma PutElsewhere(db: Store, prefix: string, content: map<string, string>, key: string, value: string)
    requires Section(db, prefix, content)
    requires !HasPrefix(key, prefix)
    ensures Section(db[key := value], prefix, content)
  {
    assert forall k {:trigger Key(prefix, k)} :: HasPrefix(Key(prefix, k), prefix);
  }

  lemma PrefixesApart(name: string)
    ensures !HasPrefix(BalanceKey(name), PROCESSED) && !HasPrefix(BalanceKey(name), REPORT)
    ensures !HasPrefix(ProcessedKey(name), BALANCE) && !HasPrefix(ProcessedKey(name), REPORT)
    ensures !HasPrefix(ReportKey(name), BALANCE) && !HasPrefix(ReportKey(name), PROCESSED)
  {
    assert BalanceKey(name)[0] == 'b' && ProcessedKey(name)[0] == 'p' && ReportKey(name)[0] == 'r';
  }

  lemma PutBalance(db: Store, l: Ledger, nation: string, balance: int)
    requires Represents(db, l)
    ensures Represents(db[BalanceKey(nation) := Itoa(balance)], l.(balances := l.balances[nation := balance]))
  {
    PrefixesApart(nation);
    PutHere(db, BALANCE, Printed(l.balances), nation, Itoa(balance));
    assert Printed(l.balances[nation := balance]) == Printed(l.balances)[nation := Itoa(balance)];
    PutElsewhere(db, PROCESSED, Marks(l.processed), BalanceKey(nation), Itoa(balance));
    PutElsewhere(db, REPORT, l.reports, BalanceKey(nation), Itoa(balance));
  }

  lemma PutProcessed(db: Store, l: Ledger, key: string)
    requires Represents(db, l)
    ensures Represents(db[ProcessedKey(key) := "true"], l.(processed := l.processed + {key}))
  {
    PrefixesApart(key);
    PutHere(db, PROCESSED, Marks(l.processed), key, "true");
    assert Marks(l.processed + {key}) == Marks(l.processed)[key := "true"];
    PutElsewhere(db, BALANCE, Printed(l.balances), ProcessedKey(key), "true");
    PutElsewhere(db, REPORT, l.reports, ProcessedKey(key), "true");
  }

  lemma PutReport(db: Store, l: Ledger, key: string, report: Bytes)
    requires Represents(db, l)
    ensures Represents(db[ReportKey(key) := report], l.(reports := l.reports[key := report]))
  {
    PrefixesApart(key);
    PutHere(db, REPORT, l.reports, key, report);
    PutElsewhere(db, BALANCE, Printed(l.balances), ReportKey(key), report);
    PutElsewhere(db, PROCESSED, Marks(l.processed), ReportKey(key), report);
  }

  /** What a reader of the flat map finds. */
  lemma Lookup(db: Store, l: Ledger, name: string)
    requires Represents(db, l)
    ensures BalanceKey(name) in db <==> name in l.balances
    ensures name in l.balances ==> db[BalanceKey(name)] == Itoa(l.balances[name])
    ensures ProcessedKey(name) in db <==> name in l.processed
    ensures ReportKey(name) in db <==> name in l.reports
    ensures name in l.reports ==> db[ReportKey(name)] == l.reports[name]
    ensures Atoi(Get(db, BalanceKey(name))) == Balance(l, name)
  {
    assert name in Printed(l.balances) <==> name in l.balances;
    assert name in Marks(l.processed) <==> name in l.processed;
    if name in l.balances {
      AtoiItoa(l.balances[name]);
    }
  }

  // ---------- what is written, in order ----------

  function Write(db: Store, puts: seq<Put>): Store {
    if puts == [] then db
    else
      var last := puts[|puts| - 1];
      Write(db, puts[..|puts| - 1])[last.key := last.value]
  }

  lemma WriteNone(db: Store)
    ensures Write(db, []) == db
  {
  }

  lemma {:induction false} WriteConcat(db: Store, a: seq<Put>, b: seq<Put>)
    ensures Write(db, a + b) == Write(Write(db, a), b)
  {
    if b == [] {
      assert a + b == a;
    } else {
      WriteConcat(db, a, b[..|b| - 1]);
      assert (a + b)[..|a + b| - 1] == a + b[..|b| - 1];
    }
  }

  function Get(db: Store, key: string): string {
    if key in db then db[key] else ""
  }

  function TxPuts(node: Node, db: Store, txBytes: Bytes): seq<Put> {
    if !Valid(node, txBytes) || ProcessedKey(KeyOf(node, txBytes)) in db then []
    else
      var tx := node.decode(txBytes).value;
      var account := BalanceKey(tx.nationID);
      (if tx.kind == SPEND_CREDIT then [Put(account, Itoa(Atoi(Get(db, account)) - 1))] else []) +
      [Put(ProcessedKey(DedupKey(tx)), "true"), Put(ReportKey(DedupKey(tx)), txBytes)]
  }

  function BlockPuts(node: Node, db: Store, txs: seq<Bytes>): seq<Put> {
    if txs == [] then []
    else
      var init := BlockPuts(node, db, txs[..|txs| - 1]);
      init + TxPuts(node, Write(db, init), txs[|txs| - 1])
  }

  function SeedPutsFirst(db: Store, n: nat): seq<Put>
    requires n <= |NATIONS|
  {
    if n == 0 then []
    else
      var init := SeedPutsFirst(db, n - 1);
      var account := BalanceKey(NATIONS[n - 1]);
      init + if account in Write(db, init) then [] else [Put(account, INITIAL_TEXT)]
  }

  function SeedPuts(db: Store): seq<Put> {
    SeedPutsFirst(db, |NATIONS|)
  }

  // ---------- every prefix of the writes is a ledger, too ----------

  function PutCount(node: Node, l: Ledger, txBytes: Bytes): nat {
    if Code(node, l, txBytes) != 0 then 0
    else if node.decode(txBytes).value.kind == SPEND_CREDIT then 3
    else 2
  }

  /** The ledger after the first `cut` writes of a transaction: debit, then mark, then report. */
  function Torn(node: Node, l: Ledger, txBytes: Bytes, cut: nat): Ledger
    requires cut <= PutCount(node, l, txBytes)
  {
    if cut == 0 then l
    else
      var tx := node.decode(txBytes).value;
      var paid := l.(balances := Debited(l.balances, tx));
      if cut + 2 == PutCount(node, l, txBytes) then paid
      else if cut + 1 == PutCount(node, l, txBytes) then paid.(processed := l.processed + {DedupKey(tx)})
      else Accept(l, tx, txBytes)
  }

  lemma {:induction false} TornWrites(node: Node, db: Store, l: Ledger, txBytes: Bytes, cut: nat)
    requires Represents(db, l) && cut <= PutCount(node, l, txBytes)
    ensures |TxPuts(node, db, txBytes)| == PutCount(node, l, txBytes)
    ensures Represents(Write(db, TxPuts(node, db, txBytes)[..cut]), Torn(node, l, txBytes, cut))
    ensures Torn(node, l, txBytes, PutCount(node, l, txBytes)) == Apply(node, l, txBytes)
    decreases cut
  {
    hide Represents, Itoa, Atoi, Key, Get, Credits;
    var puts := TxPuts(node, db, txBytes);
    if Valid(node, txBytes) {
      Lookup(db, l, KeyOf(node, txBytes));
    }
    if cut > 0 {
      TornWrites(node, db, l, txBytes, cut - 1);
      assert puts[..cut][..cut - 1] == puts[..cut - 1];
      var before, ledger := Write(db, puts[..cut - 1]), Torn(node, l, txBytes, cut - 1);
      assert Write(db, puts[..cut]) == before[puts[cut - 1].key := puts[cut - 1].value];
      var tx := node.decode(txBytes).value;
      if cut + 2 == |puts| {
        Lookup(db, l, tx.nationID);
        PutBalance(before, ledger, tx.nationID, Balance(l, tx.nationID) - 1);
      } else if cut + 1 == |puts| {
        PutProcessed(before, ledger, DedupKey(tx));
      } else {
        PutReport(before, ledger, DedupKey(tx), txBytes);
      }
    } else {
      assert puts[..0] == [];
    }
  }

  /** The flat execution of a block refines the ledger's. */
  lemma {:induction false} BlockRefines(node: Node, db: Store, l: Ledger, txs: seq<Bytes>)
    requires Represents(db, l)
    ensures Represents(Write(db, BlockPuts(node, db, txs)), Run(node, l, txs))
  {
    if txs != [] {
      var init, last := txs[..|txs| - 1], txs[|txs| - 1];
      BlockRefines(node, db, l, init);
      var puts := BlockPuts(node, db, init);
      var mid, ledger := Write(db, puts), Run(node, l, init);
      TornWrites(node, mid, ledger, last, PutCount(node, ledger, last));
      var more := TxPuts(node, mid, last);
      assert more[..|more|] == more;
      WriteConcat(db, puts, more);
    }
  }

  lemma {:induction false} SeedRefines(db: Store, l: Ledger, n: nat)
    requires Represents(db, l) && n <= |NATIONS|
    ensures Represents(Write(db, SeedPutsFirst(db, n)), SeedFirst(l, n))
  {
    hide Represents, Itoa, Numeral, Key;
    if n > 0 {
      SeedRefines(db, l, n - 1);
      var puts := SeedPutsFirst(db, n - 1);
      var mid, nation := Write(db, puts), NATIONS[n - 1];
      ThousandText();
      Lookup(mid, SeedFirst(l, n - 1), nation);
      if BalanceKey(nation) in mid {
        assert puts + [] == puts;
      } else {
        PutBalance(mid, SeedFirst(l, n - 1), nation, INITIAL_CREDITS);
        WriteConcat(db, puts, [Put(BalanceKey(nation), INITIAL_TEXT)]);
        assert [Put(BalanceKey(nation), INITIAL_TEXT)][..0] == [];
      }
    }
  }

  lemma SeedStep(disk: Store, i: nat)
    requires i < |NATIONS|
    ensures var puts, key := SeedPutsFirst(disk, i), BalanceKey(NATIONS[i]);
            if key in Write(disk, puts) then SeedPutsFirst(disk, i + 1) == puts
            else SeedPutsFirst(disk, i + 1) == puts + [Put(key, INITIAL_TEXT)]
                 && Write(disk, SeedPutsFirst(disk, i + 1)) == Write(disk, puts)[key := INITIAL_TEXT]
  {
    hide Key;
    var puts := SeedPutsFirst(disk, i);
    assert (puts + [Put(BalanceKey(NATIONS[i]), INITIAL_TEXT)])[..|puts|] == puts;
  }

  lemma ThousandText()
    ensures Itoa(INITIAL_CREDITS) == INITIAL_TEXT
  {
    assert Numeral(1) == "1";
    assert Numeral(10) == "10";
    assert Numeral(100) == "100";
    assert Numeral(1000) == INITIAL_TEXT;
  }

  // ---------- from an empty database ----------

  function StartUp(disk: Store): Store {
    Write(disk, SeedPuts(disk))
  }

  function Execute(node: Node, db: Store, txs: seq<Bytes>): Store {
    Write(db, BlockPuts(node, db, txs))
  }

  lemma StartUpRefines(disk: Store, l: Ledger)
    requires Represents(disk, l)
    ensures Represents(StartUp(disk), Seed(l))
  {
    SeedRefines(disk, l, |NATIONS|);
  }

  lemma EmptyStore()
    ensures Represents(map[], EMPTY)
  {
  }

  lemma CrashFree(node: Node, chain: seq<Bytes>)
    ensures Represents(Execute(node, StartUp(map[]), chain), Run(node, Genesis(), chain))
  {
    EmptyStore();
    StartUpRefines(map[], EMPTY);
    BlockRefines(node, StartUp(map[]), Genesis(), chain);
  }
}
