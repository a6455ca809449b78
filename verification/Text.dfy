/** Decimal printing and the lexicographic order in which Python sorts strings. */
module Text {

  predicate IsDigit(ch: char) {
    '0' <= ch <= '9'
  }

  function Digit(d: nat): (ch: char)
    requires d < 10
    ensures IsDigit(ch) && ch as int - '0' as int == d
  {
    '0' + d as char
  }

  function Print(n: nat): (s: string)
    ensures s != []
    ensures forall i :: 0 <= i < |s| ==> IsDigit(s[i])
    ensures n > 0 ==> s[0] != '0'
  {
    if n < 10 then [Digit(n)] else Print(n / 10) + [Digit(n % 10)]
  }

  predicate IsNumeral(s: string) {
    forall i :: 0 <= i < |s| ==> IsDigit(s[i])
  }

  function Read(s: string): (n: nat)
    requires IsNumeral(s)
  {
    if s == [] then 0 else 10 * Read(s[..|s| - 1]) + (s[|s| - 1] as int - '0' as int)
  }

  lemma {:induction false} ReadPrint(n: nat)
    ensures Read(Print(n)) == n
  {
    if n >= 10 {
      var s := Print(n);
      assert s[..|s| - 1] == Print(n / 10);
      ReadPrint(n / 10);
    }
  }

  function Zeros(k: nat): (s: string)
    ensures |s| == k && forall i :: 0 <= i < k ==> s[i] == '0'
  {
    if k == 0 then [] else Zeros(k - 1) + ['0']
  }

  lemma {:induction false} ReadZeros(k: nat, s: string)
    requires IsNumeral(s)
    ensures IsNumeral(Zeros(k) + s) && Read(Zeros(k) + s) == Read(s)
  {
    var t := Zeros(k) + s;
    if s != [] {
      assert t[..|t| - 1] == Zeros(k) + s[..|s| - 1];
      ReadZeros(k, s[..|s| - 1]);
    } else if k > 0 {
      assert t == Zeros(k);
      assert t[..|t| - 1] == Zeros(k - 1) + [];
      ReadZeros(k - 1, []);
    }
  }

  function Padded(n: nat, width: nat): string {
    var s := Print(n);
    if |s| < width then Zeros(width - |s|) + s else s
  }

  /** Python's format(n, "04d"). */
  function Format04(n: int): string {
    if n < 0 then "-" + Padded(-n, 3) else Padded(n, 4)
  }

  lemma ReadPadded(n: nat, width: nat)
    ensures IsNumeral(Padded(n, width)) && Padded(n, width) != [] && Read(Padded(n, width)) == n
  {
    ReadPrint(n);
    if |Print(n)| < width { ReadZeros(width - |Print(n)|, Print(n)); }
  }

  /** At least four characters, a minus sign counting as one; leading zeros only as far as they are needed for that. */
  lemma Format04Means(n: int)
    ensures var s := Format04(n); var digits := if n < 0 then s[1..] else s;
      && |s| >= 4 && (n < 0 ==> s[0] == '-')
      && IsNumeral(digits) && Read(digits) == (if n < 0 then -n else n)
      && (|s| > 4 ==> digits[0] != '0')
  {
    ReadPadded(if n < 0 then -n else n, if n < 0 then 3 else 4);
    if n < 0 { assert Format04(n)[1..] == Padded(-n, 3); }
  }

  lemma Format04Injective(m: int, n: int)
    requires Format04(m) == Format04(n)
    ensures m == n
  {
    ReadPadded(if m < 0 then -m else m, if m < 0 then 3 else 4);
    ReadPadded(if n < 0 then -n else n, if n < 0 then 3 else 4);
    assert m < 0 ==> Format04(m)[0] == '-' && Format04(m)[1..] == Padded(-m, 3);
    assert n < 0 ==> Format04(n)[0] == '-' && Format04(n)[1..] == Padded(-n, 3);
    assert m >= 0 ==> IsDigit(Format04(m)[0]);
    assert n >= 0 ==> IsDigit(Format04(n)[0]);
  }

  /** Python's <= on strings. */
  predicate Leq(a: string, b: string) {
    a == [] || (b != [] && (a[0] < b[0] || (a[0] == b[0] && Leq(a[1..], b[1..]))))
  }

  lemma {:induction false} LeqTotal(a: string, b: string)
    ensures Leq(a, b) || Leq(b, a)
  {
    if a != [] && b != [] { LeqTotal(a[1..], b[1..]); }
  }

  lemma {:induction false} LeqAntisymmetric(a: string, b: string)
    requires Leq(a, b) && Leq(b, a)
    ensures a == b
  {
    if a != [] && b != [] {
      LeqAntisymmetric(a[1..], b[1..]);
      assert a == [a[0]] + a[1..] && b == [b[0]] + b[1..];
    }
  }

  lemma {:induction false} LeqTransitive(a: string, b: string, c: string)
    requires Leq(a, b) && Leq(b, c)
    ensures Leq(a, c)
  {
    if a != [] && b != [] && c != [] && a[0] == b[0] == c[0] {
      LeqTransitive(a[1..], b[1..], c[1..]);
    }
  }

  /** One is the beginning of the other, or the first different character decides. */
  lemma {:induction false} LeqMeans(a: string, b: string)
    ensures Leq(a, b)
      <==> a <= b || exists k :: 0 <= k < |a| && k < |b| && a[..k] == b[..k] && a[k] < b[k]
  {
    if a != [] && b != [] {
      LeqMeans(a[1..], b[1..]);
      if a[0] == b[0] {
        Extended(a, b);
      } else if a[0] < b[0] {
        assert a[..0] == b[..0];
      }
    }
  }

  lemma Extended(a: string, b: string)
    requires a != [] && b != [] && a[0] == b[0]
    ensures a <= b <==> a[1..] <= b[1..]
    ensures (exists k :: 0 <= k < |a| && k < |b| && a[..k] == b[..k] && a[k] < b[k])
      <==> exists k :: 0 <= k < |a| - 1 && k < |b| - 1 && a[1..][..k] == b[1..][..k] && a[1..][k] < b[1..][k]
  {
    if a[1..] <= b[1..] { assert a == [a[0]] + a[1..] && b == [b[0]] + b[1..]; }
    if k :| 0 <= k < |a| && k < |b| && a[..k] == b[..k] && a[k] < b[k] {
      assert k > 0 && a[1..][..k - 1] == a[..k][1..] && b[1..][..k - 1] == b[..k][1..];
      assert a[1..][k - 1] < b[1..][k - 1];
    }
    if k :| 0 <= k < |a| - 1 && k < |b| - 1 && a[1..][..k] == b[1..][..k] && a[1..][k] < b[1..][k] {
      assert a[..k + 1] == [a[0]] + a[1..][..k] && b[..k + 1] == [b[0]] + b[1..][..k];
      assert a[k + 1] < b[k + 1];
    }
  }
}
