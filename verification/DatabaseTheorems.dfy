/** The ledger's guarantees, read off the flat database itself. */
module DatabaseTheorems {
  import opened Text
  import opened LedgerState
  import opened LedgerTheorems
  import opened FlatStore

  /** The stored `report:` entries whose bytes decode to a spend of the nation. */
  ghost function SpendEntries(node: Node, db: Store, nation: string): set<string> {
    set key | key in db && HasPrefix(key, REPORT) && IsSpend(node, db[key], nation)
  }

  ghost function Keys(prefix: string, names: set<string>): set<string> {
    set name | name in names :: Key(prefix, name)
  }

  lemma {:induction false} AsManyKeysAsNames(prefix: string, names: set<string>)
    ensures |Keys(prefix, names)| == |names|
  {
    if names != {} {
      var name :| name in names;
      var rest := names - {name};
      AsManyKeysAsNames(prefix, rest);
      forall other
        ensures Key(prefix, other) == Key(prefix, name) ==> other == name
      {
        KeyInjective(prefix, other, name);
      }
      assert Key(prefix, name) !in Keys(prefix, rest);
      assert Keys(prefix, names) == Keys(prefix, rest) + {Key(prefix, name)};
    }
  }

  lemma EntriesAreReports(node: Node, db: Store, l: Ledger, nation: string)
    requires Represents(db, l)
    ensures |SpendEntries(node, db, nation)| == |SpendReports(node, l, nation)|
  {
    hide Represents, IsSpend;
    var reports := SpendReports(node, l, nation);
    forall key
      ensures key in SpendEntries(node, db, nation) <==> key in Keys(REPORT, reports)
    {
      if key in db && HasPrefix(key, REPORT) {
        assert key == ReportKey(key[|REPORT|..]);
        Lookup(db, l, key[|REPORT|..]);
      }
      if key in Keys(REPORT, reports) {
        var name :| name in reports && Key(REPORT, name) == key;
        Lookup(db, l, name);
        assert HasPrefix(key, REPORT);
      }
    }
    assert SpendEntries(node, db, nation) == Keys(REPORT, reports);
    AsManyKeysAsNames(REPORT, reports);
  }

  /** From an empty database: a nation's balance text, read back, is what its stored spends have left of 1000. */
  lemma DatabaseReconciles(node: Node, chain: seq<Bytes>, nation: string)
    requires nation in NATIONS
    ensures var db := Execute(node, StartUp(map[]), chain);
            && BalanceKey(nation) in db
            && INITIAL_CREDITS - Atoi(db[BalanceKey(nation)]) == |SpendEntries(node, db, nation)|
  {
    hide Represents, IsSpend, Run, Genesis;
    var db, l := Execute(node, StartUp(map[]), chain), Run(node, Genesis(), chain);
    CrashFree(node, chain);
    AuditReconciles(node, chain);
    Lookup(db, l, nation);
    EntriesAreReports(node, db, l, nation);
  }

  /** An operation is marked processed exactly when its report is stored. */
  lemma MarkedExactlyWhenReported(node: Node, chain: seq<Bytes>, dedupKey: string)
    ensures var db := Execute(node, StartUp(map[]), chain);
            ProcessedKey(dedupKey) in db <==> ReportKey(dedupKey) in db
  {
    CrashFree(node, chain);
    AuditReconciles(node, chain);
    Lookup(Execute(node, StartUp(map[]), chain), Run(node, Genesis(), chain), dedupKey);
  }

  /** Permuted transactions with distinct keys leave the same database, key by key. */
  lemma SameDatabaseAfterPermutation(node: Node, db: Store, l: Ledger, xs: seq<Bytes>, ys: seq<Bytes>)
    requires Represents(db, l) && multiset(xs) == multiset(ys) && DistinctKeys(node, xs)
    ensures Execute(node, db, xs) == Execute(node, db, ys)
  {
    hide Represents;
    BlockRefines(node, db, l, xs);
    BlockRefines(node, db, l, ys);
    OrderIndependence(node, l, xs, ys);
    RepresentsUnique(Execute(node, db, xs), Run(node, l, xs), Execute(node, db, ys), Run(node, l, ys));
  }

  /** Executing an already executed stretch again leaves the database as it is, key by key. */
  lemma SameDatabaseAfterReplay(node: Node, db: Store, l: Ledger, chain: seq<Bytes>, from: nat, to: nat, times: nat)
    requires Represents(db, l) && from <= to <= |chain|
    ensures var done := Execute(node, db, chain);
            Execute(node, done, Repeated(chain[from..to], times)) == done
  {
    hide Represents;
    var done, again := Execute(node, db, chain), Repeated(chain[from..to], times);
    BlockRefines(node, db, l, chain);
    BlockRefines(node, done, Run(node, l, chain), again);
    ReplayIsNoOp(node, l, chain, from, to, times);
    RepresentsUnique(Execute(node, done, again), Run(node, l, chain), done, Run(node, l, chain));
  }
}
