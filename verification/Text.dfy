/** The parts of Go's `strconv` and `strings` packages that the ledger relies on. */
module Text {

  datatype Option<+T> = None | Some(value: T)

  // ---------- strconv.Itoa and strconv.Atoi ----------

  function Digit(d: nat): (c: char)
    requires d < 10
    ensures IsDigit(c) && DigitValue(c) == d
  {
    '0' + d as char
  }

  predicate IsDigit(c: char) {
    '0' <= c <= '9'
  }

  function DigitValue(c: char): nat
    requires IsDigit(c)
  {
    (c - '0') as nat
  }

  predicate IsNumeral(s: string) {
    |s| > 0 && forall i :: 0 <= i < |s| ==> IsDigit(s[i])
  }

  /** The value of a decimal numeral, most significant digit first. */
  function Value(s: string): nat
    requires forall i :: 0 <= i < |s| ==> IsDigit(s[i])
  {
    if s == [] then 0 else 10 * Value(s[..|s| - 1]) + DigitValue(s[|s| - 1])
  }

  function Numeral(n: nat): (s: string)
    ensures IsNumeral(s) && Value(s) == n
  {
    if n < 10 then
      assert Value([]) == 0;
      [Digit(n)]
    else
      var s := Numeral(n / 10);
      assert (s + [Digit(n % 10)])[..|s|] == s;
      s + [Digit(n % 10)]
  }

  function Itoa(n: int): string {
    if n < 0 then "-" + Numeral(-n) else Numeral(n)
  }

  /** `strconv.Atoi` with its error discarded, as every caller in the ledger does: malformed text is 0. */
  function Atoi(s: string): int {
    if |s| > 0 && (s[0] == '-' || s[0] == '+') then
      if !IsNumeral(s[1..]) then 0
      else
        var magnitude: int := Value(s[1..]);
        if s[0] == '-' then -magnitude else magnitude
    else if IsNumeral(s) then Value(s)
    else 0
  }

  /** The printed text, digit by digit: the ten digits, one more digit on the right, and the sign in front. */
  lemma ItoaInWords(n: int, d: int)
    requires n >= 0 && 0 <= d < 10
    ensures Itoa(d) == ["0123456789"[d]]
    ensures n > 0 ==> Itoa(10 * n + d) == Itoa(n) + Itoa(d) && Itoa(-n) == "-" + Itoa(n)
  {
    assert (10 * n + d) / 10 == n && (10 * n + d) % 10 == d;
  }

  lemma AtoiItoa(n: int)
    ensures Atoi(Itoa(n)) == n
  {
    if n < 0 {
      assert Itoa(n)[1..] == Numeral(-n);
    } else {
      assert IsDigit(Numeral(n)[0]);
    }
  }

  // ---------- strings.HasPrefix and strings.Split ----------

  predicate HasPrefix(s: string, prefix: string) {
    prefix <= s
  }

  /** `strings.Split` on a one-character separator; an empty text has one empty field. */
  function Split(s: string, sep: char): (fields: seq<string>)
    ensures |fields| >= 1
    ensures forall f :: f in fields ==> sep !in f
    ensures Join(fields, sep) == s
  {
    if s == [] then [""]
    else
      var rest := Split(s[1..], sep);
      if s[0] == sep then [""] + rest
      else [[s[0]] + rest[0]] + rest[1..]
  }

  function Join(fields: seq<string>, sep: char): string
    requires |fields| >= 1
  {
    if |fields| == 1 then fields[0] else fields[0] + [sep] + Join(fields[1..], sep)
  }

  /** The fields of a text are the only separator-free ones that join back to it. */
  lemma {:induction false} SplitUnique(fields: seq<string>, sep: char)
    requires |fields| >= 1
    requires forall f :: f in fields ==> sep !in f
    ensures Split(Join(fields, sep), sep) == fields
    decreases |fields|, |fields[0]|
  {
    var s := Join(fields, sep);
    var f := fields[0];
    if f == "" {
      if |fields| == 1 {
        assert s == "";
      } else {
        assert s == [sep] + Join(fields[1..], sep);
        SplitUnique(fields[1..], sep);
      }
    } else {
      var shorter := [f[1..]] + fields[1..];
      assert f == [f[0]] + f[1..];
      assert f[0] in f;
      forall g | g in shorter
        ensures sep !in g
      {
        assert f in fields && forall c :: c in f[1..] ==> c in f;
        if g != f[1..] {
          assert g in fields;
        }
      }
      SplitUnique(shorter, sep);
      assert s[1..] == Join(shorter, sep) by {
        if |fields| > 1 { assert shorter[1..] == fields[1..]; }
      }
      assert Split(s, sep) == [[f[0]] + shorter[0]] + shorter[1..];
    }
  }

  // ---------- hex.DecodeString ----------

  predicate IsHexDigit(c: char) {
    IsDigit(c) || 'a' <= c <= 'f' || 'A' <= c <= 'F'
  }

  // ---------- string comparison ----------

  /** Go's `<` on strings: lexicographic on the characters, a proper prefix first. */
  predicate Before(a: string, b: string) {
    b != "" && (a == "" || a[0] < b[0] || (a[0] == b[0] && Before(a[1..], b[1..])))
  }

  /** In closed form: at the first difference the earlier text has ended or has the smaller character. */
  lemma {:induction false} BeforeIsLexicographic(a: string, b: string)
    ensures Before(a, b)
            <==> exists k :: 0 <= k <= |a| && k < |b| && a[..k] == b[..k] && (k == |a| || a[k] < b[k])
  {
    if a != "" && b != "" && a[0] == b[0] {
      BeforeIsLexicographic(a[1..], b[1..]);
      assert forall k :: 0 < k <= |a| && k < |b| ==>
               a[..k] == [a[0]] + a[1..][..k - 1] && b[..k] == [b[0]] + b[1..][..k - 1];
      if Before(a, b) {
        var k :| 0 <= k <= |a[1..]| && k < |b[1..]| && a[1..][..k] == b[1..][..k]
                 && (k == |a[1..]| || a[1..][k] < b[1..][k]);
        assert a[..k + 1] == b[..k + 1];
      }
      forall k | 0 <= k <= |a| && k < |b| && a[..k] == b[..k] && (k == |a| || a[k] < b[k])
        ensures Before(a[1..], b[1..])
      {
        assert k > 0;
        assert a[1..][..k - 1] == a[..k][1..] && b[1..][..k - 1] == b[..k][1..];
      }
    } else if a != "" && b != "" {
      assert a[..0] == b[..0];
      assert forall k :: 0 < k <= |a| && k < |b| ==> a[..k][0] == a[0] && b[..k][0] == b[0];
    } else if b != "" {
      assert a[..0] == b[..0];
    }
  }

  lemma {:induction false} BeforeTrichotomy(a: string, b: string)
    ensures a != b ==> Before(a, b) || Before(b, a)
    ensures !(Before(a, b) && Before(b, a))
    ensures !Before(a, a)
  {
    if a != "" {
      BeforeTrichotomy(a[1..], a[1..]);
      if b != "" && a[0] == b[0] {
        BeforeTrichotomy(a[1..], b[1..]);
        assert a == [a[0]] + a[1..] && b == [b[0]] + b[1..];
      }
    }
  }

  lemma {:induction false} BeforeTransitive(a: string, b: string, c: string)
    requires Before(a, b) && Before(b, c)
    ensures Before(a, c)
  {
    if a != "" && a[0] == b[0] == c[0] {
      BeforeTransitive(a[1..], b[1..], c[1..]);
    }
  }
}
