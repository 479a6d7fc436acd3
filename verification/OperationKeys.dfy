/** Which operations the dedup key and the signed message tell apart: neither puts a separator it can rely on. */
module OperationKeys {
  import opened Text
  import opened LedgerState
  import opened LedgerTheorems

  const MIN_EVENT_LENGTH := 8

  // ---------- the dedup key ----------

  /** No operation of the one type shares its key with one of the other. */
  ghost predicate KeysApart(k1: string, k2: string) {
    forall a: Transaction, b: Transaction :: a.kind == k1 && b.kind == k2 ==> DedupKey(a) != DedupKey(b)
  }

  lemma KeyParts(a: Transaction)
    ensures DedupKey(a) == (a.kind + "_") + a.eventID
    ensures a.kind + "_" <= DedupKey(a) && DedupKey(a)[|a.kind| + 1..] == a.eventID
  {
  }

  lemma ShorterTypeIsPrefix(a: Transaction, b: Transaction)
    requires DedupKey(a) == DedupKey(b) && |a.kind| < |b.kind|
    ensures a.kind + "_" <= b.kind
  {
    KeyParts(a);
    KeyParts(b);
    var n := |a.kind| + 1;
    assert b.kind[..n] == DedupKey(b)[..n];
    assert DedupKey(a)[..n] == a.kind + "_";
  }

  lemma SameKindSameEvent(a: Transaction, b: Transaction)
    requires |a.kind| == |b.kind| && DedupKey(a) == DedupKey(b)
    ensures a.kind == b.kind && a.eventID == b.eventID
  {
    KeyParts(a);
    KeyParts(b);
    assert a.kind == DedupKey(a)[..|a.kind|] && b.kind == DedupKey(b)[..|b.kind|];
  }

  /** The longer type's remainder moves into the shorter type's event. */
  lemma PrefixCollides(k1: string, k2: string, event: string) returns (a: Transaction, b: Transaction)
    requires k1 + "_" <= k2 && |event| >= MIN_EVENT_LENGTH
    ensures a.kind == k1 && b.kind == k2 && b.eventID == event
    ensures a.eventID == k2[|k1| + 1..] + "_" + event
    ensures DedupKey(a) == DedupKey(b)
  {
    var rest := k2[|k1| + 1..];
    assert k2 == k1 + "_" + rest;
    a := TransactionFields(k1, "BR", rest + "_" + event, "", "");
    b := TransactionFields(k2, "BR", event, "", "");
    assert DedupKey(a) == k1 + "_" + rest + "_" + event;
  }

  /** The key tells two types apart if and only if neither starts with the other and an underscore. */
  lemma KeysApartExactly(k1: string, k2: string)
    requires k1 != k2
    ensures KeysApart(k1, k2) <==> !(k1 + "_" <= k2) && !(k2 + "_" <= k1)
  {
    if k1 + "_" <= k2 {
      var a, b := PrefixCollides(k1, k2, "--------");
    } else if k2 + "_" <= k1 {
      var b, a := PrefixCollides(k2, k1, "--------");
    } else {
      forall a: Transaction, b: Transaction | a.kind == k1 && b.kind == k2
        ensures DedupKey(a) != DedupKey(b)
      {
        if DedupKey(a) == DedupKey(b) {
          if |k1| < |k2| {
            ShorterTypeIsPrefix(a, b);
          } else if |k2| < |k1| {
            ShorterTypeIsPrefix(b, a);
          } else {
            SameKindSameEvent(a, b);
          }
        }
      }
    }
  }

  /** So on the two types the system uses, the key identifies type and event. */
  lemma DedupKeyInjective(a: Transaction, b: Transaction)
    requires a.kind in {SPEND_CREDIT, SAVE_REPORT} && b.kind in {SPEND_CREDIT, SAVE_REPORT}
    ensures DedupKey(a) == DedupKey(b) <==> a.kind == b.kind && a.eventID == b.eventID
  {
    if a.kind == b.kind {
      KeyParts(a);
      KeyParts(b);
    } else {
      assert SPEND_CREDIT[1] == 'P' && SAVE_REPORT[1] == 'A';
      KeysApartExactly(a.kind, b.kind);
    }
  }

  /** Of the valid transactions of a chain that share a key, only the first can be accepted. */
  lemma OneAcceptancePerKey(node: Node, l: Ledger, txs: seq<Bytes>, i: nat, j: nat)
    requires i < j < |txs| && Valid(node, txs[i]) && Valid(node, txs[j])
    requires KeyOf(node, txs[i]) == KeyOf(node, txs[j])
    ensures Codes(node, l, txs)[j] == 5
  {
    BlockClosedForm(node, l, txs, j);
    assert HasKey(node, txs[i], KeyOf(node, txs[j]));
  }

  /**
   * What colliding types cost: whenever valid transactions a of type k1 and b of type k2 = k1_rest carry the events
   * rest_e and e, in whichever order, the later one is refused as a repetition although it is another operation.
   */
  lemma OtherOperationRefused(node: Node, l: Ledger, txs: seq<Bytes>, i: nat, j: nat, a: Transaction, b: Transaction)
    requires i < j < |txs| && Valid(node, txs[i]) && Valid(node, txs[j])
    requires (node.decode(txs[i]) == Some(a) && node.decode(txs[j]) == Some(b))
             || (node.decode(txs[i]) == Some(b) && node.decode(txs[j]) == Some(a))
    requires a.kind + "_" <= b.kind && a.eventID == b.kind[|a.kind| + 1..] + "_" + b.eventID
    ensures a.kind != b.kind && a.eventID != b.eventID
    ensures Codes(node, l, txs)[j] == 5
  {
    var x, y := PrefixCollides(a.kind, b.kind, b.eventID);
    assert DedupKey(a) == DedupKey(x) && DedupKey(b) == DedupKey(y);
    OneAcceptancePerKey(node, l, txs, i, j);
  }

  // ---------- the signed message ----------

  /** No message that this nation signs for the one type can stand for an operation of the other. */
  ghost predicate MessagesApart(nation: string, k1: string, k2: string) {
    forall a: Transaction, b: Transaction ::
      a.kind == k1 && b.kind == k2 && a.nationID == b.nationID == nation ==> SignedMessage(a) != SignedMessage(b)
  }

  lemma MessageParts(a: Transaction)
    ensures SignedMessage(a)[..|a.kind|] == a.kind && SignedMessage(a)[|a.kind|..] == a.nationID + a.eventID
    ensures SignedMessage(a)[|a.kind|..][|a.nationID|..] == a.eventID
  {
    assert SignedMessage(a) == a.kind + (a.nationID + a.eventID);
  }

  lemma TwoDifferentLetters(nation: string)
    requires nation in NATIONS
    ensures |nation| == 2 && nation[0] != nation[1]
  {
    NationNames();
  }

  lemma ShorterTypeAndNation(a: Transaction, b: Transaction)
    requires a.nationID == b.nationID && a.nationID in NATIONS
    requires SignedMessage(a) == SignedMessage(b) && |a.kind| < |b.kind|
    ensures a.kind + a.nationID <= b.kind
  {
    TwoDifferentLetters(a.nationID);
    var n, k := a.nationID, |a.kind|;
    MessageParts(a);
    MessageParts(b);
    var msg := SignedMessage(a);
    assert b.kind[..k] == msg[..k];
    assert msg[k..][0] == n[0] && msg[k..][1] == n[1];
    assert msg[|b.kind|..][0] == n[0];
    assert msg[k] == n[0] && msg[k + 1] == n[1];
    assert b.kind[k] == msg[k];
    if |b.kind| >= k + 2 {
      assert b.kind[k + 1] == msg[k + 1];
    }
  }

  lemma NationInTypeCollides(nation: string, k1: string, k2: string) returns (a: Transaction, b: Transaction)
    requires nation in NATIONS && k1 + nation <= k2
    ensures a.kind == k1 && b.kind == k2 && a.nationID == b.nationID == nation
    ensures SignedMessage(a) == SignedMessage(b)
  {
    var rest := k2[|k1| + |nation|..];
    assert k2 == k1 + nation + rest;
    a := TransactionFields(k1, nation, rest + nation + "--------", "", "");
    b := TransactionFields(k2, nation, "--------", "", "");
    assert SignedMessage(a) == k1 + nation + rest + nation + "--------";
  }

  /** A signature cannot serve both types if and only if neither starts with the other and the nation's name. */
  lemma MessagesApartExactly(nation: string, k1: string, k2: string)
    requires nation in NATIONS && k1 != k2
    ensures MessagesApart(nation, k1, k2) <==> !(k1 + nation <= k2) && !(k2 + nation <= k1)
  {
    if k1 + nation <= k2 {
      var a, b := NationInTypeCollides(nation, k1, k2);
    } else if k2 + nation <= k1 {
      var b, a := NationInTypeCollides(nation, k2, k1);
    } else {
      forall a: Transaction, b: Transaction | a.kind == k1 && b.kind == k2 && a.nationID == b.nationID == nation
        ensures SignedMessage(a) != SignedMessage(b)
      {
        if SignedMessage(a) == SignedMessage(b) {
          MessageParts(a);
          MessageParts(b);
          if |k1| < |k2| {
            ShorterTypeAndNation(a, b);
          } else if |k2| < |k1| {
            ShorterTypeAndNation(b, a);
          }
        }
      }
    }
  }

  /** On the two known types and the known nations, the message identifies the operation. */
  lemma MessageInjective(a: Transaction, b: Transaction)
    requires a.kind in {SPEND_CREDIT, SAVE_REPORT} && b.kind in {SPEND_CREDIT, SAVE_REPORT}
    requires a.nationID in NATIONS && b.nationID in NATIONS
    ensures SignedMessage(a) == SignedMessage(b)
            <==> a.kind == b.kind && a.nationID == b.nationID && a.eventID == b.eventID
  {
    TwoDifferentLetters(a.nationID);
    TwoDifferentLetters(b.nationID);
    MessageParts(a);
    MessageParts(b);
    if SignedMessage(a) == SignedMessage(b) {
      assert SPEND_CREDIT[1] == 'P' && SAVE_REPORT[1] == 'A';
      assert SignedMessage(a)[1] == a.kind[1] && SignedMessage(b)[1] == b.kind[1];
      var rest := SignedMessage(a)[|a.kind|..];
      assert rest[..2] == a.nationID && rest[..2] == b.nationID;
    }
  }
}
