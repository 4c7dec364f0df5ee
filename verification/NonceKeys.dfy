/** The "target|nonce" strings that detect the re-use of a start request. */
module NonceKeys {
  import opened Protocol

  function Digit(d: nat): char
    requires d < 10
  {
    ['0', '1', '2', '3', '4', '5', '6', '7', '8', '9'][d]
  }

  /** The %d rendering of a number. */
  function Decimal(n: nat): string {
    if n < 10 then [Digit(n)] else Decimal(n / 10) + [Digit(n % 10)]
  }

  function Key(target: string, nonce: Nonce): string {
    target + "|" + Decimal(nonce)
  }

  lemma {:induction false} DigitsOnly(n: nat, c: char)
    requires !('0' <= c <= '9')
    ensures c !in Decimal(n)
  {
    if n >= 10 {
      DigitsOnly(n / 10, c);
    }
  }

  lemma {:induction false} DecimalInjective(m: nat, n: nat)
    requires Decimal(m) == Decimal(n)
    ensures m == n
  {
    var a, b := Decimal(m), Decimal(n);
    assert a[|a| - 1] == Digit(m % 10) && b[|b| - 1] == Digit(n % 10);
    if m >= 10 && n >= 10 {
      assert a[..|a| - 1] == Decimal(m / 10) && b[..|b| - 1] == Decimal(n / 10);
      DecimalInjective(m / 10, n / 10);
    }
  }

  /** No two (target, nonce) pairs share a key, whatever bars the targets hold. */
  lemma KeyInjective(t1: string, n1: Nonce, t2: string, n2: Nonce)
    requires Key(t1, n1) == Key(t2, n2)
    ensures t1 == t2 && n1 == n2
  {
    var k := Key(t1, n1);
    var d1, d2 := Decimal(n1), Decimal(n2);
    DigitsOnly(n1, '|');
    DigitsOnly(n2, '|');
    assert k[|t1|] == '|' && k[|t2|] == '|';
    assert k[|t1| + 1..] == d1 && k[|t2| + 1..] == d2;
    assert forall i :: |t1| < i < |k| ==> k[i] == d1[i - |t1| - 1];
    assert forall i :: |t2| < i < |k| ==> k[i] == d2[i - |t2| - 1];
    assert |t1| == |t2|;
    assert t1 == k[..|t1|] && t2 == k[..|t2|];
    DecimalInjective(n1, n2);
  }
}
