/** The ledger application: the methods that consensus calls, over the flat database. */
module LedgerApp {
  import opened Text
  import opened LedgerState
  import opened LedgerTheorems
  import opened FlatStore
  import opened Authentication

  datatype QueryResponse =
    | State(balances: map<string, int>, reports: map<string, Bytes>)
    | Amount(text: string)
    | NotFound
    | Unsupported

  /** The text before the first separator: what `Split(prefix + ":" + name, ":")[1]` leaves of a name. */
  function Field(name: string): string {
    Split(name, ':')[0]
  }

  lemma SecondField(prefix: string, name: string)
    requires ':' !in prefix
    ensures Split(prefix + ":" + name, ':') == [prefix] + Split(name, ':')
  {
    var fields := [prefix] + Split(name, ':');
    assert fields[1..] == Split(name, ':');
    assert Join(fields, ':') == prefix + ":" + name;
    SplitUnique(fields, ':');
  }

  lemma KeyFields(name: string)
    ensures |Split(BalanceKey(name), ':')| >= 2 && Split(BalanceKey(name), ':')[1] == Field(name)
    ensures |Split(ReportKey(name), ':')| >= 2 && Split(ReportKey(name), ':')[1] == Field(name)
  {
    assert BalanceKey(name) == "balance" + ":" + name;
    assert ReportKey(name) == "report" + ":" + name;
    SecondField("balance", name);
    SecondField("report", name);
  }

  lemma FieldIsWhole(name: string)
    ensures Field(name) == name <==> ':' !in name
    ensures ':' !in Field(name)
  {
    if ':' !in name {
      assert Join([name], ':') == name;
      SplitUnique([name], ':');
    } else {
      assert Split(name, ':')[0] in Split(name, ':');
    }
  }

  /** What a scan has gathered from the names seen so far: each under its field, the latest one winning. */
  ghost predicate Collected<V>(field: string -> string, content: map<string, V>, seen: set<string>,
                               gathered: map<string, V>) {
    && seen <= content.Keys
    && (forall n :: n in seen ==> field(n) in gathered)
    && (forall f :: f in gathered ==> exists n :: n in seen && field(n) == f && gathered[f] == content[n])
  }

  lemma CollectedIsWhole<V>(field: string -> string, content: map<string, V>, gathered: map<string, V>)
    requires forall n :: field(field(n)) == field(n)
    requires Collected(field, content, content.Keys, gathered)
    ensures gathered == content <==> forall n :: n in content ==> field(n) == n
  {
    if forall n :: n in content ==> field(n) == n {
      assert gathered.Keys == content.Keys;
      assert gathered == content;
    } else {
      var n :| n in content && field(n) != n;
      assert forall m :: field(m) == n ==> field(n) == n;
      assert n !in gathered;
    }
  }

  /** A key belongs to at most one nation or operation. */
  lemma AliasFree(key: string)
    ensures forall n {:trigger BalanceKey(n)} :: BalanceKey(n) == key ==> HasPrefix(key, BALANCE) && n == key[8..]
    ensures forall k {:trigger ReportKey(k)} ::
              ReportKey(k) == key ==> HasPrefix(key, REPORT) && !HasPrefix(key, BALANCE) && k == key[7..]
  {
    forall n
      ensures BalanceKey(n) == key ==> HasPrefix(key, BALANCE) && n == key[8..]
      ensures ReportKey(n) == key ==> HasPrefix(key, REPORT) && !HasPrefix(key, BALANCE) && n == key[7..]
    {
      PrefixesApart(n);
      assert BalanceKey(n)[8..] == n && ReportKey(n)[7..] == n;
    }
  }

  lemma WriteOne(db: Store, puts: seq<Put>, put: Put)
    ensures Write(db, puts + [put]) == Write(db, puts)[put.key := put.value]
  {
    assert (puts + [put])[..|puts|] == puts;
  }

  lemma TxWrites(node: Node, db: Store, l: Ledger, tx: Transaction, txBytes: Bytes)
    requires Represents(db, l) && Code(node, l, txBytes) == 0 && node.decode(txBytes) == Some(tx)
    ensures TxPuts(node, db, txBytes) ==
            (if tx.kind == SPEND_CREDIT
             then [Put(BalanceKey(tx.nationID), Itoa(Atoi(Get(db, BalanceKey(tx.nationID))) - 1))] else []) +
            [Put(ProcessedKey(DedupKey(tx)), "true"), Put(ReportKey(DedupKey(tx)), txBytes)]
    ensures Represents(Write(db, TxPuts(node, db, txBytes)), Apply(node, l, txBytes))
  {
    hide Represents, Itoa, Atoi, Key, Get, Balance;
    var puts := TxPuts(node, db, txBytes);
    Lookup(db, l, DedupKey(tx));
    TornWrites(node, db, l, txBytes, PutCount(node, l, txBytes));
    assert puts[..|puts|] == puts;
  }

  lemma KeysInWords(nation: string, tx: Transaction)
    ensures BalanceKey(nation) == "balance:" + nation
    ensures ProcessedKey(DedupKey(tx)) == "processed:" + (tx.kind + "_" + tx.eventID)
    ensures ReportKey(DedupKey(tx)) == "report:" + (tx.kind + "_" + tx.eventID)
  {
  }

  /** The database after an accepted transaction, key by key. */
  lemma PutsInWords(node: Node, db: Store, l: Ledger, tx: Transaction, txBytes: Bytes)
    requires Represents(db, l) && Code(node, l, txBytes) == 0 && node.decode(txBytes) == Some(tx)
    ensures var key := tx.kind + "_" + tx.eventID;
            var credits := if "balance:" + tx.nationID in db then db["balance:" + tx.nationID] else "";
            var paid := if tx.kind == "SPEND_CREDIT"
                        then db["balance:" + tx.nationID := Itoa(Atoi(credits) - 1)] else db;
            && Write(db, TxPuts(node, db, txBytes)) == paid["processed:" + key := "true"]["report:" + key := txBytes]
            && TxPuts(node, db, txBytes) ==
               (if tx.kind == "SPEND_CREDIT" then [Put("balance:" + tx.nationID, Itoa(Atoi(credits) - 1))] else []) +
               [Put("processed:" + key, "true"), Put("report:" + key, txBytes)]
  {
    hide Represents, TxPuts, Code, Apply, Itoa, Atoi, Write, BalanceKey, ProcessedKey, ReportKey, DedupKey;
    KeysInWords(tx.nationID, tx);
    TxWrites(node, db, l, tx, txBytes);
    var debit := Put(BalanceKey(tx.nationID), Itoa(Atoi(Get(db, BalanceKey(tx.nationID))) - 1));
    var mark, report := Put(ProcessedKey(DedupKey(tx)), "true"), Put(ReportKey(DedupKey(tx)), txBytes);
    WritesInOrder(db, if tx.kind == SPEND_CREDIT then [debit] else [], mark, report);
    WriteNone(db);
    WriteOne(db, [], debit);
    assert [] + [debit] == [debit];
  }

  lemma WritesInOrder(db: Store, first: seq<Put>, mark: Put, report: Put)
    ensures Write(db, first + [mark, report]) == Write(db, first)[mark.key := mark.value][report.key := report.value]
  {
    hide Write;
    WriteOne(db, first, mark);
    WriteOne(db, first + [mark], report);
    assert first + [mark] + [report] == first + [mark, report];
  }

  lemma RefusedWritesNothing(node: Node, db: Store, l: Ledger, txBytes: Bytes)
    requires Represents(db, l) && Code(node, l, txBytes) != 0
    ensures TxPuts(node, db, txBytes) == [] && Write(db, []) == db && Apply(node, l, txBytes) == l
  {
    hide Represents, ProcessedKey, BalanceKey, Verdict;
    if Valid(node, txBytes) {
      Lookup(db, l, KeyOf(node, txBytes));
    }
  }

  /** The mark of an operation. */
  lemma MarkInWords(db: Store, l: Ledger, tx: Transaction)
    requires Represents(db, l)
    ensures ProcessedKey(DedupKey(tx)) == "processed:" + (tx.kind + "_" + tx.eventID)
    ensures ProcessedKey(DedupKey(tx)) in db <==> tx.kind + "_" + tx.eventID in l.processed
  {
    hide Represents;
    KeysInWords(tx.nationID, tx);
    Lookup(db, l, DedupKey(tx));
  }

  lemma NothingSeeded(disk: Store, saved: Ledger)
    ensures SeedPutsFirst(disk, 0) == [] && SeedFirst(saved, 0) == saved && Write(disk, []) == disk
  {
  }

  /** Start-up puts the credits under the four nations' keys wherever nothing is there yet. */
  lemma SeedsInWords(disk: Store)
    ensures Write(disk, SeedPuts(disk)) ==
            map["balance:BR" := "1000", "balance:UK" := "1000", "balance:FR" := "1000", "balance:US" := "1000"] + disk
  {
    hide SeedPutsFirst, Write, BalanceKey;
    NothingSeeded(disk, EMPTY);
    SeedStep(disk, 0);
    SeedStep(disk, 1);
    SeedStep(disk, 2);
    SeedStep(disk, 3);
    Absent(disk, BalanceKey("BR"), BalanceKey("UK"), BalanceKey("FR"), BalanceKey("US"), INITIAL_TEXT);
    NationKeys();
  }

  lemma NationKeys()
    ensures BalanceKey("BR") == "balance:BR" && BalanceKey("UK") == "balance:UK"
    ensures BalanceKey("FR") == "balance:FR" && BalanceKey("US") == "balance:US"
  {
  }

  function IfAbsent(db: Store, key: string, value: string): Store {
    if key in db then db else db[key := value]
  }

  lemma Absent(db: Store, a: string, b: string, c: string, d: string, v: string)
    ensures IfAbsent(IfAbsent(IfAbsent(IfAbsent(db, a, v), b, v), c, v), d, v)
            == map[a := v, b := v, c := v, d := v] + db
  {
  }

  lemma NoneYet(node: Node, db: Store, l: Ledger)
    ensures Run(node, l, []) == l && Codes(node, l, []) == [] && BlockPuts(node, db, []) == [] && Write(db, []) == db
  {
  }

  lemma OneMore(node: Node, db: Store, l: Ledger, txs: seq<Bytes>, i: nat)
    requires i < |txs|
    ensures Run(node, l, txs[..i + 1]) == Apply(node, Run(node, l, txs[..i]), txs[i])
    ensures Codes(node, l, txs[..i + 1]) == Codes(node, l, txs[..i]) + [Code(node, Run(node, l, txs[..i]), txs[i])]
    ensures var puts := BlockPuts(node, db, txs[..i]); var more := TxPuts(node, Write(db, puts), txs[i]);
            && BlockPuts(node, db, txs[..i + 1]) == puts + more
            && Write(db, puts + more) == Write(Write(db, puts), more)
  {
    assert txs[..i + 1][..i] == txs[..i];
    var puts := BlockPuts(node, db, txs[..i]);
    WriteConcat(db, puts, TxPuts(node, Write(db, puts), txs[i]));
  }

  class OrmuzLedgerApp {
    const node: Node
    var db: Store
    ghost var ledger: Ledger
    /** Every write, in the order in which it became durable. */
    ghost var log: seq<Put>

    ghost predicate Valid()
      reads this
    {
      Represents(db, ledger)
    }

    /** Opens a database, empty or left behind by an earlier process, and gives new nations their credits. */
    constructor (node: Node, disk: Store, ghost saved: Ledger)
      requires Represents(disk, saved)
      ensures Valid() && this.node == node && ledger == Seed(saved)
      ensures log == SeedPuts(disk) && db == Write(disk, log)
      ensures db == map["balance:BR" := "1000", "balance:UK" := "1000", "balance:FR" := "1000", "balance:US" := "1000"]
                    + disk
    {
      hide Represents, Write, SeedPutsFirst, SeedFirst, BalanceKey;
      NothingSeeded(disk, saved);
      this.node := node;
      this.db := disk;
      this.ledger := saved;
      this.log := [];
      new;
      for i := 0 to |NATIONS|
        invariant this.node == node && Valid() && ledger == SeedFirst(saved, i)
        invariant log == SeedPutsFirst(disk, i) && db == Write(disk, log)
      {
        var n := NATIONS[i];
        SeedStep(disk, i);
        SeedRefines(disk, saved, i + 1);
        if BalanceKey(n) !in db {
          DurablePut(BalanceKey(n), INITIAL_TEXT);
        }
        ledger := SeedFirst(saved, i + 1);
      }
      SeedsInWords(disk);
    }

    method DurablePut(key: string, value: string)
      modifies this
      ensures db == old(db)[key := value]
      ensures log == old(log) + [Put(key, value)]
      ensures ledger == old(ledger)
    {
      db := db[key := value];
      log := log + [Put(key, value)];
    }

    method CheckTx(txBytes: Bytes) returns (code: nat)
      requires Valid()
      ensures code == Check(node, ledger, txBytes)
      ensures code == 1 <==> node.decode(txBytes) == None
      ensures node.decode(txBytes).Some? ==>
                var tx := node.decode(txBytes).value;
                var account := "balance:" + tx.nationID;
                && (code == 2 <==> tx.kind == "SPEND_CREDIT" && account !in db)
                && (code == 3 <==> tx.kind == "SPEND_CREDIT" && account in db && Atoi(db[account]) <= 0)
                && (code == 0 <==> tx.kind != "SPEND_CREDIT" || (account in db && Atoi(db[account]) > 0))
    {
      hide Represents, Atoi, Itoa;
      match node.decode(txBytes)
      case None => return 1;
      case Some(tx) =>
        if tx.kind == SPEND_CREDIT {
          Lookup(db, ledger, tx.nationID);
          if BalanceKey(tx.nationID) !in db {
            return 2;
          }
          AtoiItoa(ledger.balances[tx.nationID]);
          var balance := Atoi(db[BalanceKey(tx.nationID)]);
          if balance <= 0 {
            return 3;
          }
        }
        return 0;
    }

    /** The state machine proper: debit if it is a spend, then lock the operation, then keep the report. */
    method ApplyAndRecord(tx: Transaction, txBytes: Bytes)
      requires Valid() && Code(node, ledger, txBytes) == 0 && node.decode(txBytes) == Some(tx)
      modifies this
      ensures Valid() && ledger == Apply(node, old(ledger), txBytes)
      ensures log == old(log) + TxPuts(node, old(db), txBytes)
      ensures db == Write(old(db), TxPuts(node, old(db), txBytes))
      ensures var key := tx.kind + "_" + tx.eventID;
              var credits := if "balance:" + tx.nationID in old(db) then old(db)["balance:" + tx.nationID] else "";
              var paid := if tx.kind == "SPEND_CREDIT"
                          then old(db)["balance:" + tx.nationID := Itoa(Atoi(credits) - 1)] else old(db);
              && db == paid["processed:" + key := "true"]["report:" + key := txBytes]
              && log == old(log) + (if tx.kind == "SPEND_CREDIT"
                                    then [Put("balance:" + tx.nationID, Itoa(Atoi(credits) - 1))] else []) +
                                   [Put("processed:" + key, "true"), Put("report:" + key, txBytes)]
    {
      hide Represents, Write, TxPuts, Apply, Code, Itoa, Atoi, Get, BalanceKey, ProcessedKey, ReportKey, DedupKey;
      ghost var before := db;
      TxWrites(node, db, ledger, tx, txBytes);
      PutsInWords(node, db, ledger, tx, txBytes);
      ghost var puts: seq<Put> := [];
      WriteNone(db);
      if tx.kind == SPEND_CREDIT {
        var balance := Atoi(Get(db, BalanceKey(tx.nationID)));
        DurablePut(BalanceKey(tx.nationID), Itoa(balance - 1));
        WriteOne(before, puts, Put(BalanceKey(tx.nationID), Itoa(balance - 1)));
        puts := puts + [Put(BalanceKey(tx.nationID), Itoa(balance - 1))];
      }
      DurablePut(ProcessedKey(DedupKey(tx)), "true");
      WriteOne(before, puts, Put(ProcessedKey(DedupKey(tx)), "true"));
      puts := puts + [Put(ProcessedKey(DedupKey(tx)), "true")];
      DurablePut(ReportKey(DedupKey(tx)), txBytes);
      WriteOne(before, puts, Put(ReportKey(DedupKey(tx)), txBytes));
      puts := puts + [Put(ReportKey(DedupKey(tx)), txBytes)];
      ledger := Apply(node, ledger, txBytes);
      assert puts == TxPuts(node, before, txBytes);
    }

    /**
     * One round of the block's loop. The code says which check refused the transaction, or that none did; then the
     * database has the debit if it is a spend, the mark and the report, and otherwise nothing is written.
     */
    method ExecuteTx(txBytes: Bytes) returns (code: nat)
      requires Valid()
      modifies this
      ensures code == 1 <==> node.decode(txBytes) == None
      ensures node.decode(txBytes).Some? ==>
                var tx := node.decode(txBytes).value;
                var isNation := tx.nationID in {"BR", "UK", "FR", "US"};
                var isHex := |tx.signature| == 128 && forall c :: c in tx.signature ==> c in "0123456789abcdefABCDEF";
                var isSigned := node.verify(tx.nationID, tx.kind + tx.nationID + tx.eventID, tx.signature);
                var isProcessed := "processed:" + (tx.kind + "_" + tx.eventID) in old(db);
                && (code == 2 <==> !isNation)
                && (code == 3 <==> isNation && !isHex)
                && (code == 4 <==> isNation && isHex && !isSigned)
                && (code == 5 <==> isNation && isHex && isSigned && isProcessed)
                && (code == 0 <==> isNation && isHex && isSigned && !isProcessed)
      ensures code != 0 ==> db == old(db) && log == old(log)
      ensures code == 0 && node.decode(txBytes).Some? ==>
                var tx := node.decode(txBytes).value;
                var key := tx.kind + "_" + tx.eventID;
                var credits := if "balance:" + tx.nationID in old(db) then old(db)["balance:" + tx.nationID] else "";
                var paid := if tx.kind == "SPEND_CREDIT"
                            then old(db)["balance:" + tx.nationID := Itoa(Atoi(credits) - 1)] else old(db);
                db == paid["processed:" + key := "true"]["report:" + key := txBytes]
      ensures Valid() && ledger == Apply(node, old(ledger), txBytes)
      ensures code == Code(node, old(ledger), txBytes)
      ensures log == old(log) + TxPuts(node, old(db), txBytes)
      ensures db == Write(old(db), TxPuts(node, old(db), txBytes))
    {
      hide Represents, Code, Apply, TxPuts, Write, SignatureWellFormed, ProcessedKey, DedupKey, Itoa, Atoi;
      CodeInWords(node, ledger, txBytes);
      if Code(node, ledger, txBytes) != 0 {
        RefusedWritesNothing(node, db, ledger, txBytes);
      }
      if node.decode(txBytes).Some? {
        MarkInWords(db, ledger, node.decode(txBytes).value);
      }
      match node.decode(txBytes)
      case None => return 1;
      case Some(tx) =>
        NationNames();
        if tx.nationID !in NATIONS {
          return 2;
        }
        HexDigits(tx.signature);
        if !SignatureWellFormed(tx.signature) {
          return 3;
        }
        if !node.verify(tx.nationID, tx.kind + tx.nationID + tx.eventID, tx.signature) {
          return 4;
        }
        if ProcessedKey(DedupKey(tx)) in db {
          return 5;
        }
        ApplyAndRecord(tx, txBytes);
        return 0;
    }

    /** Executes a block: the ledger's run, one result per transaction, and nothing written but its writes. */
    method FinalizeBlock(txs: seq<Bytes>) returns (txResults: seq<nat>)
      requires Valid()
      modifies this
      ensures Valid() && ledger == Run(node, old(ledger), txs)
      ensures txResults == Codes(node, old(ledger), txs) && |txResults| == |txs|
      ensures forall i :: 0 <= i < |txs| ==> (txResults[i] == 1 <==> node.decode(txs[i]) == None)
      ensures forall i :: 0 <= i < |txs| && node.decode(txs[i]).Some? ==>
                var tx := node.decode(txs[i]).value;
                var isNation := tx.nationID in {"BR", "UK", "FR", "US"};
                var isHex := |tx.signature| == 128 && forall c :: c in tx.signature ==> c in "0123456789abcdefABCDEF";
                var isSigned := node.verify(tx.nationID, tx.kind + tx.nationID + tx.eventID, tx.signature);
                && (txResults[i] == 2 <==> !isNation)
                && (txResults[i] == 3 <==> isNation && !isHex)
                && (txResults[i] == 4 <==> isNation && isHex && !isSigned)
                && (txResults[i] in {0, 5} <==> isNation && isHex && isSigned)
      ensures log == old(log) + BlockPuts(node, old(db), txs)
      ensures db == Write(old(db), BlockPuts(node, old(db), txs))
    {
      hide *;
      NoneYet(node, db, ledger);
      assert txs[..0] == [];
      txResults := [];
      for i := 0 to |txs|
        invariant Valid() && ledger == Run(node, old(ledger), txs[..i])
        invariant txResults == Codes(node, old(ledger), txs[..i])
        invariant log == old(log) + BlockPuts(node, old(db), txs[..i])
        invariant db == Write(old(db), BlockPuts(node, old(db), txs[..i]))
      {
        OneMore(node, old(db), old(ledger), txs, i);
        var code := ExecuteTx(txs[i]);
        txResults := txResults + [code];
      }
      assert txs[..|txs|] == txs;
      forall i: nat | i < |txs| {
        CodesInWords(node, old(ledger), txs, i);
      }
    }

    /**
     * Scans the database in any order. What comes back is the ledger's balances and reports
     * exactly when no nation with a balance, or no reported operation, has a colon in its name.
     */
    method QueryState() returns (balances: map<string, int>, reports: map<string, Bytes>)
      requires Valid()
      ensures Collected(Field, ledger.balances, ledger.balances.Keys, balances)
      ensures Collected(Field, ledger.reports, ledger.reports.Keys, reports)
      ensures balances == ledger.balances <==> forall n :: n in ledger.balances ==> ':' !in n
      ensures reports == ledger.reports <==> forall k :: k in ledger.reports ==> ':' !in k
    {
      hide Represents, Split, Atoi, Itoa;
      balances, reports := map[], map[];
      var todo := db.Keys;
      ghost var nations, operations: set<string> := {}, {};
      while todo != {}
        invariant todo <= db.Keys
        invariant Collected(Field, ledger.balances, nations, balances)
        invariant Collected(Field, ledger.reports, operations, reports)
        invariant forall n {:trigger BalanceKey(n)} :: BalanceKey(n) in db && BalanceKey(n) !in todo ==> n in nations
        invariant forall k {:trigger ReportKey(k)} :: ReportKey(k) in db && ReportKey(k) !in todo ==> k in operations
        decreases |todo|
      {
        var key :| key in todo;
        todo := todo - {key};
        if HasPrefix(key, "balance:") {
          ghost var name := key[8..];
          assert key == BalanceKey(name);
          Lookup(db, ledger, name);
          KeyFields(name);
          AtoiItoa(ledger.balances[name]);
          balances := balances[Split(key, ':')[1] := Atoi(db[key])];
          nations := nations + {name};
        } else if HasPrefix(key, "report:") {
          ghost var name := key[7..];
          assert key == ReportKey(name);
          Lookup(db, ledger, name);
          KeyFields(name);
          reports := reports[Split(key, ':')[1] := db[key]];
          operations := operations + {name};
        }
        AliasFree(key);
      }
      forall name
        ensures name in ledger.balances ==> name in nations
        ensures name in ledger.reports ==> name in operations
      {
        Lookup(db, ledger, name);
      }
      assert nations == ledger.balances.Keys && operations == ledger.reports.Keys;
      forall name
        ensures Field(Field(name)) == Field(name)
        ensures Field(name) == name <==> ':' !in name
      {
        FieldIsWhole(name);
        FieldIsWhole(Field(name));
      }
      CollectedIsWhole(Field, ledger.balances, balances);
      CollectedIsWhole(Field, ledger.reports, reports);
    }

    method Query(path: string) returns (r: QueryResponse)
      requires Valid()
      ensures path == "state" ==> r.State? && Collected(Field, ledger.balances, ledger.balances.Keys, r.balances)
                                  && Collected(Field, ledger.reports, ledger.reports.Keys, r.reports)
      ensures forall n :: path == "balance/" + n && '/' !in n ==>
                r == if n in ledger.balances then Amount(Itoa(ledger.balances[n])) else NotFound
      ensures path != "state" && (forall n :: path == "balance/" + n ==> '/' in n) ==> r == Unsupported
    {
      if path == "state" {
        var balances, reports := QueryState();
        assert path[0] == 's';
        return State(balances, reports);
      }
      var parts := Split(path, '/');
      forall n | path == "balance/" + n && '/' !in n
        ensures parts == ["balance", n]
      {
        assert Join(["balance", n], '/') == path;
        SplitUnique(["balance", n], '/');
      }
      if |parts| == 2 && parts[0] == "balance" {
        var nation := parts[1];
        assert parts == ["balance", nation] && parts[1..] == [nation];
        assert Join(parts, '/') == "balance" + ['/'] + Join([nation], '/');
        assert path == "balance/" + nation;
        Lookup(db, ledger, nation);
        return if BalanceKey(nation) in db then Amount(db[BalanceKey(nation)]) else NotFound;
      }
      return Unsupported;
    }
  }
}
