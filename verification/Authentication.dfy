/** Who may write to the ledger, in terms of decoding and signature checking alone. */
module Authentication {
  import opened Text
  import opened LedgerState
  import opened LedgerTheorems
  import opened Overdraft

  /** One transaction's code, from what it decodes to: each refusal exactly, and acceptance or repetition otherwise. */
  lemma CodeInWords(node: Node, l: Ledger, txBytes: Bytes)
    ensures Code(node, l, txBytes) == 1 <==> node.decode(txBytes) == None
    ensures node.decode(txBytes).Some? ==>
              var tx := node.decode(txBytes).value;
              var isNation := tx.nationID in {"BR", "UK", "FR", "US"};
              var isHex := |tx.signature| == 128 && forall c :: c in tx.signature ==> c in "0123456789abcdefABCDEF";
              var isSigned := node.verify(tx.nationID, tx.kind + tx.nationID + tx.eventID, tx.signature);
              && (Code(node, l, txBytes) == 2 <==> !isNation)
              && (Code(node, l, txBytes) == 3 <==> isNation && !isHex)
              && (Code(node, l, txBytes) == 4 <==> isNation && isHex && !isSigned)
              && (Code(node, l, txBytes) == 5 <==>
                    isNation && isHex && isSigned && tx.kind + "_" + tx.eventID in l.processed)
              && (Code(node, l, txBytes) == 0 <==>
                    isNation && isHex && isSigned && tx.kind + "_" + tx.eventID !in l.processed)
  {
    NationNames();
    if node.decode(txBytes).Some? {
      HexDigits(node.decode(txBytes).value.signature);
    }
  }

  /** ... and so in a chain or block, whatever was executed before: only 0 and 5 depend on that. */
  lemma CodesInWords(node: Node, l: Ledger, chain: seq<Bytes>, i: nat)
    requires i < |chain|
    ensures Codes(node, l, chain)[i] == 1 <==> node.decode(chain[i]) == None
    ensures node.decode(chain[i]).Some? ==>
              var tx := node.decode(chain[i]).value;
              var isNation := tx.nationID in {"BR", "UK", "FR", "US"};
              var isHex := |tx.signature| == 128 && forall c :: c in tx.signature ==> c in "0123456789abcdefABCDEF";
              var isSigned := node.verify(tx.nationID, tx.kind + tx.nationID + tx.eventID, tx.signature);
              var isProcessed := tx.kind + "_" + tx.eventID in Run(node, l, chain[..i]).processed;
              && (Codes(node, l, chain)[i] == 2 <==> !isNation)
              && (Codes(node, l, chain)[i] == 3 <==> isNation && !isHex)
              && (Codes(node, l, chain)[i] == 4 <==> isNation && isHex && !isSigned)
              && (Codes(node, l, chain)[i] == 5 <==> isNation && isHex && isSigned && isProcessed)
              && (Codes(node, l, chain)[i] == 0 <==> isNation && isHex && isSigned && !isProcessed)
  {
    hide Run, Code, Codes;
    CodesAt(node, l, chain, i);
    CodeInWords(node, Run(node, l, chain[..i]), chain[i]);
  }

  lemma HexDigits(signature: string)
    ensures SignatureWellFormed(signature)
            <==> |signature| == 128 && forall c :: c in signature ==> c in "0123456789abcdefABCDEF"
  {
    forall c: char
      ensures IsHexDigit(c) <==> c in "0123456789abcdefABCDEF"
    {
      HexDigit(c);
    }
    assert forall i :: 0 <= i < |signature| ==> signature[i] in signature;
  }

  lemma HexDigit(c: char)
    ensures IsHexDigit(c) <==> c in "0123456789abcdefABCDEF"
  {
  }

  /** The mempool's code, from what the transaction decodes to and the balances. */
  lemma CheckInWords(node: Node, l: Ledger, txBytes: Bytes)
    ensures Check(node, l, txBytes) == 1 <==> node.decode(txBytes) == None
    ensures node.decode(txBytes).Some? ==>
              var tx := node.decode(txBytes).value;
              && (Check(node, l, txBytes) == 2 <==> tx.kind == "SPEND_CREDIT" && tx.nationID !in l.balances)
              && (Check(node, l, txBytes) == 3 <==>
                    tx.kind == "SPEND_CREDIT" && tx.nationID in l.balances && l.balances[tx.nationID] <= 0)
              && (Check(node, l, txBytes) == 0 <==>
                    tx.kind != "SPEND_CREDIT" || (tx.nationID in l.balances && l.balances[tx.nationID] > 0))
  {
  }

  // ---------- over any chain ----------

  lemma {:induction false} AddedReport(node: Node, l: Ledger, chain: seq<Bytes>, key: string) returns (i: nat)
    requires key in Run(node, l, chain).reports && key !in l.reports
    ensures i < |chain| && chain[i] == Run(node, l, chain).reports[key] && Codes(node, l, chain)[i] == 0
    ensures node.decode(chain[i]).Some? && DedupKey(node.decode(chain[i]).value) == key
    ensures key !in Run(node, l, chain[..i]).processed
  {
    hide Verdict;
    var n := |chain| - 1;
    var init, before, last := chain[..n], Run(node, l, chain[..n]), chain[n];
    if Code(node, before, last) == 0 && KeyOf(node, last) == key {
      i := n;
      ApplyFields(node, before, last);
      CodesAt(node, l, chain, n);
    } else {
      if Code(node, before, last) == 0 {
        ApplyFields(node, before, last);
      }
      i := AddedReport(node, l, init, key);
      assert init[i] == chain[i] && init[..i] == chain[..i];
      CodesAt(node, l, init, i);
      CodesAt(node, l, chain, i);
    }
  }

  /**
   * Nobody writes without a nation's signature: every report that a chain adds, and so every debit, is a transaction of
   * the chain that decodes to a known nation's operation under its key, with 128 hexadecimal digits that verify for
   * exactly its type, nation and event.
   */
  lemma {:induction false} ReportsAreAuthentic(node: Node, l: Ledger, chain: seq<Bytes>, key: string)
    requires key in Run(node, l, chain).reports && key !in l.reports
    ensures var report := Run(node, l, chain).reports[key];
            && report in chain && node.decode(report).Some?
            && var tx := node.decode(report).value;
               && tx.kind + "_" + tx.eventID == key
               && tx.nationID in {"BR", "UK", "FR", "US"}
               && |tx.signature| == 128 && (forall c :: c in tx.signature ==> c in "0123456789abcdefABCDEF")
               && node.verify(tx.nationID, tx.kind + tx.nationID + tx.eventID, tx.signature)
  {
    hide Run, Code, Codes;
    var i := AddedReport(node, l, chain, key);
    CodesInWords(node, l, chain, i);
  }

  /** ... and nobody who may write is refused: each such transaction whose key is new by then is accepted and kept. */
  lemma {:induction false} AuthenticIsAccepted(node: Node, l: Ledger, chain: seq<Bytes>, i: nat)
    requires i < |chain| && node.decode(chain[i]).Some?
    ensures var tx := node.decode(chain[i]).value;
            Codes(node, l, chain)[i] == 0 <==>
              && tx.nationID in {"BR", "UK", "FR", "US"}
              && |tx.signature| == 128 && (forall c :: c in tx.signature ==> c in "0123456789abcdefABCDEF")
              && node.verify(tx.nationID, tx.kind + tx.nationID + tx.eventID, tx.signature)
              && tx.kind + "_" + tx.eventID !in Run(node, l, chain[..i]).processed
    ensures Codes(node, l, chain)[i] == 0 ==>
              var tx := node.decode(chain[i]).value;
              var key := tx.kind + "_" + tx.eventID;
              key in Run(node, l, chain).reports && Run(node, l, chain).reports[key] == chain[i]
  {
    hide Run, Code, Codes, Verdict;
    CodesAt(node, l, chain, i);
    CodesInWords(node, l, chain, i);
    if Codes(node, l, chain)[i] == 0 {
      KeptAfter(node, l, chain, i);
    }
  }

  /** A nation pays one credit for each accepted transaction that decodes to a spend of its own, and nothing else. */
  lemma DebitsInWords(node: Node, l: Ledger, chain: seq<Bytes>, nation: string)
    ensures Balance(Run(node, l, chain), nation) == Balance(l, nation) -
              |set i: nat | i < |chain| && Codes(node, l, chain)[i] == 0
                            && node.decode(chain[i]).Some? && node.decode(chain[i]).value.kind == "SPEND_CREDIT"
                            && node.decode(chain[i]).value.nationID == nation|
  {
    hide Codes, Run, Costs, Balance;
    BalanceClosedForm(node, l, chain, nation);
    forall i: nat | i < |chain|
      ensures Costs(node, l, chain, i, nation)
              <==> Codes(node, l, chain)[i] == 0
                   && node.decode(chain[i]).Some? && node.decode(chain[i]).value.kind == "SPEND_CREDIT"
                   && node.decode(chain[i]).value.nationID == nation
    {
      CostsExactly(node, l, chain, i, nation);
    }
    assert Spent(node, l, chain, nation) ==
           set i: nat | i < |chain| && Codes(node, l, chain)[i] == 0
                        && node.decode(chain[i]).Some? && node.decode(chain[i]).value.kind == "SPEND_CREDIT"
                        && node.decode(chain[i]).value.nationID == nation;
  }

  lemma KeptAfter(node: Node, l: Ledger, chain: seq<Bytes>, i: nat)
    requires i < |chain| && Code(node, Run(node, l, chain[..i]), chain[i]) == 0
    ensures Valid(node, chain[i])
    ensures var key := KeyOf(node, chain[i]);
            key in Run(node, l, chain).reports && Run(node, l, chain).reports[key] == chain[i]
  {
    var key := KeyOf(node, chain[i]);
    var before, rest := Run(node, l, chain[..i]), chain[i + 1..];
    ApplyFields(node, before, chain[i]);
    var after := Apply(node, before, chain[i]);
    assert chain[..i + 1][..i] == chain[..i];
    assert chain == chain[..i + 1] + rest;
    RunConcat(node, l, chain[..i + 1], rest);
    FirstReportStays(node, after, rest, key);
  }
}
