/**
 * Crashes. Every Put is durable on its own, so a process can die between any two of them and leave a
 * database that no whole number of transactions explains. Consensus then executes the chain again.
 */
module CrashRecovery {
  import opened Text
  import opened LedgerState
  import opened LedgerTheorems
  import opened FlatStore

  /**
   * One life of a process that dies: while it hands out the initial credits, after `puts` of them; or later,
   * when it has executed chain[from..stop] and then the first `cut` writes of chain[stop].
   */
  datatype Life =
    | DiedSeeding(puts: nat)
    | DiedExecuting(from: nat, stop: nat, cut: nat)

  /** The writes that chain[stop] would issue in this life. */
  function LastPuts(node: Node, chain: seq<Bytes>, disk: Store, life: Life): seq<Put>
    requires life.DiedExecuting? && life.from <= life.stop <= |chain|
  {
    if life.stop == |chain| then []
    else TxPuts(node, Execute(node, StartUp(disk), chain[life.from..life.stop]), chain[life.stop])
  }

  function Disk(node: Node, chain: seq<Bytes>, disk: Store, life: Life): Store
    requires CanHappen(node, chain, disk, life)
  {
    match life
    case DiedSeeding(puts) => Write(disk, SeedPuts(disk)[..puts])
    case DiedExecuting(from, stop, cut) =>
      Write(Execute(node, StartUp(disk), chain[from..stop]), LastPuts(node, chain, disk, life)[..cut])
  }

  predicate CanHappen(node: Node, chain: seq<Bytes>, disk: Store, life: Life) {
    match life
    case DiedSeeding(puts) => puts <= |SeedPuts(disk)|
    case DiedExecuting(from, stop, cut) => from <= stop <= |chain| && cut <= |LastPuts(node, chain, disk, life)|
  }

  /** Whether the death fell strictly inside a transaction's writes. */
  predicate IsTorn(node: Node, chain: seq<Bytes>, disk: Store, life: Life)
    requires CanHappen(node, chain, disk, life)
  {
    life.DiedExecuting? && 0 < life.cut < |LastPuts(node, chain, disk, life)|
  }

  /** The disk after a history of lives on an initially empty database, how far they got, and how many were torn. */
  datatype History = History(disk: Store, reached: nat, torn: nat)

  /** None if the lives cannot follow each other: a process replays from a block its predecessors had reached. */
  function After(node: Node, chain: seq<Bytes>, lives: seq<Life>): Option<History> {
    if lives == [] then Some(History(map[], 0, 0))
    else
      match After(node, chain, lives[..|lives| - 1])
      case None => None
      case Some(h) =>
        var life := lives[|lives| - 1];
        if !CanHappen(node, chain, h.disk, life) || (life.DiedExecuting? && life.from > h.reached) then None
        else Some(History(
          Disk(node, chain, h.disk, life),
          if life.DiedExecuting? && life.stop > h.reached then life.stop else h.reached,
          h.torn + if IsTorn(node, chain, h.disk, life) then 1 else 0))
  }

  /** The database of the process that at last executes the chain from `from` to its end. */
  function Final(node: Node, chain: seq<Bytes>, h: History, from: nat): Store
    requires from <= |chain|
  {
    Execute(node, StartUp(h.disk), chain[from..])
  }

  // ---------- every crash point of a block is a life ----------

  /** However many writes of a block are durable, they are some whole transactions and a part of the next. */
  lemma {:induction false} EveryCrashPoint(node: Node, db: Store, txs: seq<Bytes>, durable: nat)
    returns (stop: nat, cut: nat)
    requires durable <= |BlockPuts(node, db, txs)|
    ensures stop <= |txs|
    ensures stop == |txs| ==> cut == 0 && Write(db, BlockPuts(node, db, txs)[..durable]) == Execute(node, db, txs)
    ensures stop < |txs| ==>
              var whole := Execute(node, db, txs[..stop]);
              && cut <= |TxPuts(node, whole, txs[stop])|
              && Write(db, BlockPuts(node, db, txs)[..durable])
                 == Write(whole, TxPuts(node, whole, txs[stop])[..cut])
  {
    hide TxPuts, Write;
    var puts := BlockPuts(node, db, txs);
    if txs == [] {
      stop, cut := 0, 0;
      assert puts[..durable] == puts;
    } else {
      var init := txs[..|txs| - 1];
      var first := BlockPuts(node, db, init);
      if durable < |first| {
        stop, cut := EveryCrashPoint(node, db, init, durable);
        assert puts[..durable] == first[..durable];
        if stop == |init| {
          assert init[..stop] == init;
          var rest := TxPuts(node, Execute(node, db, init), txs[stop]);
          assert rest[..0] == [];
          WriteNone(Execute(node, db, init));
        } else {
          assert init[..stop] == txs[..stop] && init[stop] == txs[stop];
        }
      } else {
        stop, cut := |txs| - 1, durable - |first|;
        var rest := TxPuts(node, Write(db, first), txs[stop]);
        assert puts[..durable] == first + rest[..cut];
        WriteConcat(db, first, rest[..cut]);
      }
    }
  }

  // ---------- lagging behind a crash-free ledger ----------

  ghost predicate Lags(l: Ledger, clean: Ledger) {
    && l.processed == clean.processed == clean.reports.Keys
    && l.balances.Keys == clean.balances.Keys
    && HasAll(l.balances, |NATIONS|)
    && NoneAbove(l.balances, clean.balances)
    && SomeOf(l.reports, clean.reports)
  }

  ghost predicate NoneAbove(balances: map<string, int>, clean: map<string, int>) {
    forall n :: Credits(balances, n) <= Credits(clean, n)
  }

  ghost predicate SomeOf<K, V>(reports: map<K, V>, clean: map<K, V>) {
    forall k :: k in reports ==> k in clean && reports[k] == clean[k]
  }

  ghost predicate HasAll(balances: map<string, int>, n: nat)
    requires n <= |NATIONS|
  {
    forall i :: 0 <= i < n ==> NATIONS[i] in balances
  }

  function Missing<K, V>(reports: map<K, V>, clean: map<K, V>): set<K> {
    set k | k in clean && k !in reports
  }

  function MissingReports(l: Ledger, clean: Ledger): nat {
    |Missing(l.reports, clean.reports)|
  }

  function Shortfall(l: Ledger, clean: Ledger): int {
    TotalBalance(clean) - TotalBalance(l)
  }

  function Distance(l: Ledger, clean: Ledger): int {
    Shortfall(l, clean) + MissingReports(l, clean)
  }

  lemma SameCode(node: Node, l: Ledger, clean: Ledger, txBytes: Bytes)
    requires l.processed == clean.processed
    ensures Code(node, l, txBytes) == Code(node, clean, txBytes)
    ensures Code(node, l, txBytes) != 0 ==> Apply(node, l, txBytes) == l && Apply(node, clean, txBytes) == clean
  {
  }

  lemma BothDebited(b: map<string, int>, clean: map<string, int>, tx: Transaction)
    requires b.Keys == clean.Keys && NoneAbove(b, clean) && HasAll(b, |NATIONS|) && tx.nationID in NATIONS
    ensures Debited(b, tx).Keys == Debited(clean, tx).Keys == b.Keys && HasAll(Debited(b, tx), |NATIONS|)
    ensures NoneAbove(Debited(b, tx), Debited(clean, tx)) && NoneAbove(Debited(b, tx), b)
    ensures TotalCredits(Debited(clean, tx)) - TotalCredits(Debited(b, tx)) == TotalCredits(clean) - TotalCredits(b)
  {
    hide TotalCredits;
    DebitedTotal(b, tx);
    DebitedTotal(clean, tx);
    var i :| 0 <= i < |NATIONS| && NATIONS[i] == tx.nationID;
    assert tx.nationID in b;
    forall n
      ensures Credits(Debited(b, tx), n) <= Credits(Debited(clean, tx), n)
    {
      assert Credits(b, n) <= Credits(clean, n);
    }
  }

  lemma BothReported<K, V>(r: map<K, V>, clean: map<K, V>, key: K, report: V)
    requires SomeOf(r, clean) && key !in clean
    ensures SomeOf(r[key := report], clean[key := report]) && SomeOf(r, clean[key := report])
    ensures Missing(r[key := report], clean[key := report]) == Missing(r, clean)
    ensures |Missing(r, clean[key := report])| == |Missing(r, clean)| + 1
  {
    assert Missing(r, clean[key := report]) == Missing(r, clean) + {key};
  }

  /** A transaction that both execute leaves the distance as it was. */
  lemma BothExecute(node: Node, l: Ledger, clean: Ledger, txBytes: Bytes)
    requires Lags(l, clean)
    ensures Lags(Apply(node, l, txBytes), Apply(node, clean, txBytes))
    ensures Distance(Apply(node, l, txBytes), Apply(node, clean, txBytes)) == Distance(l, clean)
  {
    hide Apply, Code, KeyOf, TotalCredits, Debited, DedupKey, NoneAbove, SomeOf, HasAll;
    SameCode(node, l, clean, txBytes);
    if Code(node, l, txBytes) == 0 {
      Accepted(node, l, txBytes);
      Accepted(node, clean, txBytes);
      var tx := node.decode(txBytes).value;
      BothDebited(l.balances, clean.balances, tx);
      BothReported(l.reports, clean.reports, DedupKey(tx), txBytes);
    }
  }

  /** Executing chain[from..until] from anywhere already passed catches up with the crash-free run of chain[..until]. */
  lemma {:induction false} CatchUp(node: Node, chain: seq<Bytes>, l: Ledger, at: nat, from: nat, until: nat)
    requires from <= at <= |chain| && from <= until <= |chain|
    requires Lags(l, Run(node, Genesis(), chain[..at]))
    ensures var end := if at > until then at else until;
            var clean := Run(node, Genesis(), chain[..end]);
            && Lags(Run(node, l, chain[from..until]), clean)
            && Distance(Run(node, l, chain[from..until]), clean) == Distance(l, Run(node, Genesis(), chain[..at]))
    decreases until
  {
    hide Lags, Apply, Code, Distance, Genesis;
    if until == from {
      assert chain[from..until] == [];
    } else {
      CatchUp(node, chain, l, at, from, until - 1);
      RunLast(node, l, chain, from, until);
      var mid := Run(node, l, chain[from..until - 1]);
      if until <= at {
        AlreadyPassed(node, chain[..at], mid, until - 1);
      } else {
        assert chain[0..until] == chain[..until] && chain[0..until - 1] == chain[..until - 1];
        RunLast(node, Genesis(), chain, 0, until);
        BothExecute(node, mid, Run(node, Genesis(), chain[..until - 1]), chain[until - 1]);
      }
    }
  }

  lemma AlreadyPassed(node: Node, passed: seq<Bytes>, l: Ledger, i: nat)
    requires i < |passed| && Lags(l, Run(node, Genesis(), passed))
    ensures Code(node, l, passed[i]) != 0 && Apply(node, l, passed[i]) == l
  {
    if Valid(node, passed[i]) {
      ProcessedAfter(node, Genesis(), passed, KeyOf(node, passed[i]));
      assert HasKey(node, passed[i], KeyOf(node, passed[i]));
    }
  }

  /** A torn transaction costs one: a credit if it was only debited, its report if it was already marked. */
  lemma TornCostsOne(node: Node, l: Ledger, clean: Ledger, txBytes: Bytes, cut: nat)
    requires Lags(l, clean) && 0 < cut < PutCount(node, l, txBytes)
    ensures var torn := Torn(node, l, txBytes, cut);
            if cut + 2 == PutCount(node, l, txBytes)
            then Lags(torn, clean) && Distance(torn, clean) == Distance(l, clean) + 1
            else Lags(torn, Apply(node, clean, txBytes))
                 && Distance(torn, Apply(node, clean, txBytes)) == Distance(l, clean) + 1
  {
    hide Apply, Code, KeyOf, TotalCredits, Debited, DedupKey, SomeOf, HasAll, Credits;
    SameCode(node, l, clean, txBytes);
    Accepted(node, l, txBytes);
    Accepted(node, clean, txBytes);
    var tx := node.decode(txBytes).value;
    DebitedTotal(l.balances, tx);
    BothDebited(l.balances, clean.balances, tx);
    BothReported(l.reports, clean.reports, DedupKey(tx), txBytes);
  }

  // ---------- any history ----------

  lemma {:induction false} SeedHasAll(l: Ledger, n: nat)
    requires n <= |NATIONS|
    ensures HasAll(SeedFirst(l, n).balances, n)
    ensures HasAll(l.balances, n) ==> SeedFirst(l, n) == l
  {
    if n > 0 {
      SeedHasAll(l, n - 1);
    }
  }

  /** Start-up completes what an interrupted start-up began. */
  lemma {:induction false} SeedAgain(l: Ledger, m: nat, n: nat)
    requires m <= n <= |NATIONS|
    ensures SeedFirst(SeedFirst(l, m), n) == SeedFirst(l, n)
    decreases n
  {
    if m == n {
      SeedHasAll(l, n);
      SeedHasAll(SeedFirst(l, n), n);
    } else {
      SeedAgain(l, m, n - 1);
    }
  }

  lemma {:induction false} SeedPrefix(db: Store, l: Ledger, n: nat, puts: nat)
    requires Represents(db, l) && n <= |NATIONS| && puts <= |SeedPutsFirst(db, n)|
    ensures exists m :: 0 <= m <= n && Represents(Write(db, SeedPutsFirst(db, n)[..puts]), SeedFirst(l, m))
  {
    var all := SeedPutsFirst(db, n);
    if puts == |all| {
      assert all[..puts] == all;
      SeedRefines(db, l, n);
    } else {
      var init := SeedPutsFirst(db, n - 1);
      assert all[..puts] == init[..puts];
      SeedPrefix(db, l, n - 1, puts);
    }
  }

  lemma GenesisLags()
    ensures Lags(Genesis(), Genesis()) && Distance(Genesis(), Genesis()) == 0
  {
    GenesisLedger();
  }

  /** After any history the disk, once started up again, lags behind a crash-free run by the number of torn deaths. */
  lemma {:induction false} HistoryLags(node: Node, chain: seq<Bytes>, lives: seq<Life>) returns (l: Ledger, at: nat)
    requires After(node, chain, lives).Some?
    ensures var h := After(node, chain, lives).value;
            && h.reached <= at <= |chain|
            && Represents(h.disk, l)
            && Lags(Seed(l), Run(node, Genesis(), chain[..at]))
            && Distance(Seed(l), Run(node, Genesis(), chain[..at])) == h.torn
  {
    if lives == [] {
      l, at := EMPTY, 0;
      assert chain[..0] == [];
      EmptyStore();
      GenesisLags();
    } else {
      var before, life := lives[..|lives| - 1], lives[|lives| - 1];
      var h := After(node, chain, before).value;
      l, at := HistoryLags(node, chain, before);
      match life {
        case DiedSeeding(puts) =>
          SeedPrefix(h.disk, l, |NATIONS|, puts);
          var m :| 0 <= m <= |NATIONS| && Represents(Write(h.disk, SeedPuts(h.disk)[..puts]), SeedFirst(l, m));
          SeedAgain(l, m, |NATIONS|);
          l := SeedFirst(l, m);
        case DiedExecuting(from, stop, cut) =>
          StartUpRefines(h.disk, l);
          l, at := LifeLags(node, chain, h.disk, life, Seed(l), at);
          SeedHasAll(l, |NATIONS|);
      }
    }
  }

  lemma LifeLags(node: Node, chain: seq<Bytes>, disk: Store, life: Life, l: Ledger, at: nat)
    returns (l': Ledger, at': nat)
    requires CanHappen(node, chain, disk, life) && life.DiedExecuting? && life.from <= at <= |chain|
    requires Represents(StartUp(disk), l) && Lags(l, Run(node, Genesis(), chain[..at]))
    ensures at' >= at && at' >= life.stop && at' <= |chain|
    ensures Represents(Disk(node, chain, disk, life), l')
    ensures Lags(l', Run(node, Genesis(), chain[..at']))
    ensures Distance(l', Run(node, Genesis(), chain[..at']))
            == Distance(l, Run(node, Genesis(), chain[..at])) + if IsTorn(node, chain, disk, life) then 1 else 0
  {
    hide Represents, Lags, Distance, Apply, Torn, TxPuts, StartUp, BlockPuts, Write, Genesis, Code;
    var from, stop, cut := life.from, life.stop, life.cut;
    var db := StartUp(disk);
    CatchUp(node, chain, l, at, from, stop);
    BlockRefines(node, db, l, chain[from..stop]);
    var mid, ledger := Execute(node, db, chain[from..stop]), Run(node, l, chain[from..stop]);
    at' := if at > stop then at else stop;
    l' := ledger;
    var puts := LastPuts(node, chain, disk, life);
    if cut == 0 {
      assert puts[..0] == [];
      WriteNone(mid);
    } else {
      var tx := chain[stop];
      TornWrites(node, mid, ledger, tx, 0);
      TornWrites(node, mid, ledger, tx, cut);
      l' := Torn(node, ledger, tx, cut);
      if stop < at {
        AlreadyPassed(node, chain[..at], ledger, stop);
        assert false;
      }
      assert chain[0..stop] == chain[..stop] && chain[0..stop + 1] == chain[..stop + 1];
      var clean := Run(node, Genesis(), chain[..stop]);
      RunLast(node, Genesis(), chain, 0, stop + 1);
      if cut < |puts| {
        TornCostsOne(node, ledger, clean, tx, cut);
        at' := if cut + 2 == |puts| then stop else stop + 1;
      } else {
        BothExecute(node, ledger, clean, tx);
        at' := stop + 1;
      }
    }
  }

  /**
   * However often processes die, the one that executes the chain to its end loses nothing from the processed set,
   * has no balance above the crash-free one and no wrong report, and its missing credits and missing reports
   * together are exactly the torn deaths.
   */
  lemma CrashesLoseOneEach(node: Node, chain: seq<Bytes>, lives: seq<Life>, from: nat) returns (l: Ledger)
    requires After(node, chain, lives).Some? && from <= |chain| && from <= After(node, chain, lives).value.reached
    ensures var h, clean := After(node, chain, lives).value, Run(node, Genesis(), chain);
            && Represents(Final(node, chain, h, from), l)
            && l.processed == clean.processed
            && l.balances.Keys == clean.balances.Keys
            && NoneAbove(l.balances, clean.balances)
            && SomeOf(l.reports, clean.reports)
            && Shortfall(l, clean) + MissingReports(l, clean) == h.torn <= |lives|
  {
    hide Represents, Apply, TotalCredits;
    var saved, at := HistoryLags(node, chain, lives);
    var disk := After(node, chain, lives).value.disk;
    StartUpRefines(disk, saved);
    CatchUp(node, chain, Seed(saved), at, from, |chain|);
    assert chain[from..|chain|] == chain[from..] && chain[..|chain|] == chain;
    BlockRefines(node, StartUp(disk), Seed(saved), chain[from..]);
    l := Run(node, Seed(saved), chain[from..]);
    TornAtMost(node, chain, lives);
  }

  lemma {:induction false} TornAtMost(node: Node, chain: seq<Bytes>, lives: seq<Life>)
    requires After(node, chain, lives).Some?
    ensures After(node, chain, lives).value.torn <= |lives|
  {
    if lives != [] {
      TornAtMost(node, chain, lives[..|lives| - 1]);
    }
  }

  /** The database is the crash-free one, key by key, exactly when every death fell between transactions. */
  lemma CleanCrashesLoseNothing(node: Node, chain: seq<Bytes>, lives: seq<Life>, from: nat)
    requires After(node, chain, lives).Some? && from <= |chain| && from <= After(node, chain, lives).value.reached
    ensures Final(node, chain, After(node, chain, lives).value, from) == Execute(node, StartUp(map[]), chain)
            <==> After(node, chain, lives).value.torn == 0
  {
    hide Represents, Apply, TotalCredits, After, Execute, Run, Genesis, Final;
    var h := After(node, chain, lives).value;
    var l := CrashesLoseOneEach(node, chain, lives, from);
    var clean := Run(node, Genesis(), chain);
    CrashFree(node, chain);
    RepresentsUnique(Final(node, chain, h, from), l, Execute(node, StartUp(map[]), chain), clean);
    OnlyNations(node, chain);
    EqualWhenNothingLost(l, clean);
  }

  lemma EqualWhenNothingLost(l: Ledger, clean: Ledger)
    requires l.processed == clean.processed && l.balances.Keys == clean.balances.Keys
    requires NoneAbove(l.balances, clean.balances)
    requires SomeOf(l.reports, clean.reports)
    requires forall n :: n in l.balances ==> n in NATIONS
    ensures l == clean <==> Shortfall(l, clean) + MissingReports(l, clean) == 0
  {
    NationNames();
    if Shortfall(l, clean) + MissingReports(l, clean) == 0 {
      NothingMissing(l, clean);
    } else {
      assert Missing(clean.reports, clean.reports) == {};
    }
  }

  lemma NothingMissing(l: Ledger, clean: Ledger)
    requires l.processed == clean.processed && l.balances.Keys == clean.balances.Keys
    requires NoneAbove(l.balances, clean.balances)
    requires SomeOf(l.reports, clean.reports)
    requires forall n :: n in l.balances ==> n in {"BR", "UK", "FR", "US"}
    requires Shortfall(l, clean) + MissingReports(l, clean) == 0
    ensures l == clean
  {
    assert Balance(l, "BR") <= Balance(clean, "BR") && Balance(l, "UK") <= Balance(clean, "UK");
    assert Balance(l, "FR") <= Balance(clean, "FR") && Balance(l, "US") <= Balance(clean, "US");
    forall n | n in l.balances
      ensures l.balances[n] == clean.balances[n]
    {
      assert Balance(l, n) == Balance(clean, n);
    }
    assert l.balances == clean.balances;
    forall k | k in clean.reports
      ensures k in l.reports
    {
      assert k !in Missing(l.reports, clean.reports);
    }
    assert l.reports == clean.reports;
  }
}
