/** The default transaction id of config.rs: the text of the author followed by the sequence number
    in decimal, with nothing in between. */
module TransactionIds {
  import opened Types

  const ZERO: Byte := 48

  predicate IsDigit(b: Byte) { 48 <= b <= 57 }

  ghost predicate Digits(s: Bytes) {
    forall b :: b in s ==> IsDigit(b)
  }

  function Decimal(n: nat): (s: Bytes)
    ensures s != [] && Digits(s) && (n > 0 ==> s[0] != ZERO)
  {
    var last := [(48 + n % 10) as Byte];
    if n < 10 then last else Decimal(n / 10) + last
  }

  function Value(s: Bytes): nat
    requires Digits(s)
  {
    if s == [] then 0
    else
      assert s[|s| - 1] in s && forall b :: b in s[..|s| - 1] ==> b in s;
      10 * Value(s[..|s| - 1]) + (s[|s| - 1] as int - 48)
  }

  /** Reading back what was printed gives the number. */
  lemma {:induction false} ValueOfDecimal(n: nat)
    ensures Value(Decimal(n)) == n
  {
    var s := Decimal(n);
    if n < 10 {
      assert s[..0] == [];
    } else {
      ValueOfDecimal(n / 10);
      assert s[..|s| - 1] == Decimal(n / 10);
    }
  }

  lemma LastDigit(q: nat, d: nat)
    requires d < 10
    ensures (10 * q + d) / 10 == q && (10 * q + d) % 10 == d
  {}

  lemma DecimalOfMore(q: nat, d: nat)
    requires d < 10 && q > 0
    ensures Decimal(10 * q + d) == Decimal(q) + [(48 + d) as Byte]
  {
    LastDigit(q, d);
  }

  lemma DecimalOfDigit(d: nat)
    requires d < 10
    ensures Decimal(d) == [(48 + d) as Byte]
  {}

  lemma ValueOfMore(s: Bytes, b: Byte)
    requires Digits(s) && IsDigit(b)
    ensures Digits(s + [b]) && Value(s + [b]) == 10 * Value(s) + (b as int - 48)
  {
    assert (s + [b])[..|s|] == s;
  }

  /** Printing what was read gives the digits, unless they start with a zero. */
  lemma {:induction false} DecimalOfValue(s: Bytes)
    requires Digits(s) && s != [] && s[0] != ZERO
    ensures Decimal(Value(s)) == s && Value(s) > 0
  {
    hide Decimal, Value;
    var k := |s| - 1;
    assert s == s[..k] + [s[k]] && s[k] in s;
    assert forall b :: b in s[..k] ==> b in s;
    ValueOfMore(s[..k], s[k]);
    var q, d := Value(s[..k]), s[k] as int - 48;
    if k == 0 {
      assert s[..k] == [];
      NoDigits();
      DecimalOfDigit(d);
    } else {
      DecimalOfValue(s[..k]);
      DecimalOfMore(q, d);
    }
  }

  lemma NoDigits()
    ensures Value([]) == 0
  {}

  lemma DecimalIsInjective(m: nat, n: nat)
    requires Decimal(m) == Decimal(n)
    ensures m == n
  {
    ValueOfDecimal(m);
    ValueOfDecimal(n);
  }

  lemma {:induction false} LongerIsLarger(d: Bytes, e: Bytes)
    requires Digits(d) && Digits(e) && e != []
    ensures Digits(d + e) && Value(d + e) >= 10 * Value(d)
  {
    var k := |e| - 1;
    assert e == e[..k] + [e[k]] && e[k] in e;
    assert (d + e)[..|d + e| - 1] == d + e[..k];
    if k > 0 {
      LongerIsLarger(d, e[..k]);
    } else {
      assert d + e[..0] == d;
    }
  }

  /** The default id of a transaction by the author whose text is `author`. */
  function DefaultId(author: Bytes, seqno: nat): TxId {
    author + Decimal(seqno)
  }

  /** Among authors with texts of the same length the id is one-to-one. */
  lemma DefaultIdIsInjective(a: Bytes, b: Bytes, m: nat, n: nat)
    requires |a| == |b| && DefaultId(a, m) == DefaultId(b, n)
    ensures a == b && m == n
  {
    assert a == DefaultId(a, m)[..|a|] && b == DefaultId(b, n)[..|b|];
    assert Decimal(m) == DefaultId(a, m)[|a|..] && Decimal(n) == DefaultId(b, n)[|b|..];
    DecimalIsInjective(m, n);
  }

  /** The shorter text, some digits and room for one more digit make the longer text. */
  ghost predicate ExtendedByDigits(a: Bytes, b: Bytes) {
    && |a| < |b| && a == b[..|a|]
    && Digits(b[|a|..]) && b[|a|] != ZERO
    && 10 * Value(b[|a|..]) <= MAX_U64
  }

  ghost predicate Collide(a: Bytes, b: Bytes, m: nat, n: nat) {
    m <= MAX_U64 && n <= MAX_U64 && DefaultId(a, m) == DefaultId(b, n)
  }

  lemma CollisionExtends(a: Bytes, b: Bytes, m: nat, n: nat)
    requires |a| < |b| && Collide(a, b, m, n)
    ensures ExtendedByDigits(a, b)
  {
    hide Value;
    var d, x := b[|a|..], DefaultId(a, m);
    assert a == x[..|a|] == b[..|a|];
    assert Decimal(m) == x[|a|..] == d + Decimal(n);
    assert forall c :: c in d ==> c in Decimal(m);
    assert |Decimal(0)| == 1 && |Decimal(m)| > 1;
    assert Decimal(m)[0] == d[0];
    LongerIsLarger(d, Decimal(n));
    ValueOfDecimal(m);
  }

  lemma ExtensionCollides(a: Bytes, b: Bytes)
    requires ExtendedByDigits(a, b)
    ensures Collide(a, b, 10 * Value(b[|a|..]), 0)
  {
    hide Decimal;
    var d := b[|a|..];
    var s := d + [ZERO];
    assert Digits(s);
    assert s[..|s| - 1] == d;
    DecimalOfValue(s);
    assert Decimal(0) == [ZERO] by { DecimalZero(); }
    assert a + s == b + [ZERO];
  }

  lemma DecimalZero()
    ensures Decimal(0) == [ZERO]
  {}

  /** Texts of different lengths do share ids, exactly when the longer one is the shorter one followed
      by the decimal of a positive number that still fits a sequence number with one more digit. */
  lemma CollisionsExactly(a: Bytes, b: Bytes)
    requires |a| < |b|
    ensures (exists m, n :: Collide(a, b, m, n)) <==> ExtendedByDigits(a, b)
  {
    hide Collide, ExtendedByDigits;
    if m, n :| Collide(a, b, m, n) {
      CollisionExtends(a, b, m, n);
    }
    if ExtendedByDigits(a, b) {
      ExtensionDefined(a, b);
      ExtensionCollides(a, b);
    }
  }

  lemma ExtensionDefined(a: Bytes, b: Bytes)
    requires ExtendedByDigits(a, b)
    ensures |a| < |b| && Digits(b[|a|..])
  {}
}
