/** The string functions of Go's standard library that the entities and the payments use case rely on. */
module Text {

  // ---- strings.TrimSpace ----

  /** The characters with Unicode's White_Space property that fit Dafny's `char`. */
  predicate IsSpace(c: char) {
    || '\t' <= c <= '\r' || c == ' '
    || c as int in {0x85, 0xA0, 0x1680, 0x2028, 0x2029, 0x202F, 0x205F, 0x3000}
    || 0x2000 <= c as int <= 0x200A
  }

  /** The same, one character after the other. */
  lemma WhiteSpace(c: char)
    ensures IsSpace(c) <==> c as int in {9, 10, 11, 12, 13, 32, 133, 160, 5760,
                                         8192, 8193, 8194, 8195, 8196, 8197, 8198, 8199, 8200, 8201, 8202,
                                         8232, 8233, 8239, 8287, 12288}
  {
  }

  predicate Blank(s: string) {
    forall i :: 0 <= i < |s| ==> IsSpace(s[i])
  }

  function TrimLeft(s: string): string {
    if s != [] && IsSpace(s[0]) then TrimLeft(s[1..]) else s
  }

  function TrimRight(s: string): string {
    if s != [] && IsSpace(s[|s| - 1]) then TrimRight(s[..|s| - 1]) else s
  }

  function TrimSpace(s: string): string {
    TrimRight(TrimLeft(s))
  }

  /** Neither end is white space. */
  predicate Trimmed(s: string) {
    s == [] || (!IsSpace(s[0]) && !IsSpace(s[|s| - 1]))
  }

  lemma {:induction false} TrimLeftStarts(s: string)
    ensures TrimLeft(s) == [] || !IsSpace(TrimLeft(s)[0])
  {
    if s != [] && IsSpace(s[0]) {
      TrimLeftStarts(s[1..]);
    }
  }

  lemma {:induction false} TrimRightEnds(s: string)
    ensures TrimRight(s) <= s
    ensures TrimRight(s) == [] || !IsSpace(TrimRight(s)[|TrimRight(s)| - 1])
  {
    if s != [] && IsSpace(s[|s| - 1]) {
      TrimRightEnds(s[..|s| - 1]);
    }
  }

  /** `t` is what is left of `s` when white space is taken off both its ends. */
  predicate Strips(s: string, t: string, i: nat, j: nat) {
    i <= j <= |s| && t == s[i..j] && Blank(s[..i]) && Blank(s[j..])
  }

  lemma {:induction false} TrimLeftStrips(s: string) returns (i: nat)
    ensures Strips(s, TrimLeft(s), i, |s|)
  {
    i := 0;
    if s != [] && IsSpace(s[0]) {
      var k := TrimLeftStrips(s[1..]);
      i := k + 1;
      assert s[..i] == [s[0]] + s[1..][..k];
    }
  }

  lemma {:induction false} TrimRightStrips(s: string) returns (j: nat)
    ensures Strips(s, TrimRight(s), 0, j)
  {
    j := |s|;
    if s != [] && IsSpace(s[|s| - 1]) {
      j := TrimRightStrips(s[..|s| - 1]);
      assert s[j..] == s[..|s| - 1][j..] + [s[|s| - 1]];
    }
  }

  /** Trimming takes white space off both ends, all of it and nothing else. */
  lemma TrimStrips(s: string)
    ensures exists i: nat, j: nat :: Strips(s, TrimSpace(s), i, j)
    ensures Trimmed(TrimSpace(s))
    ensures TrimSpace(s) == "" <==> Blank(s)
  {
    TrimIsIdempotent(s);
    var i := TrimLeftStrips(s);
    assert TrimLeft(s) == s[i..];
    var j := TrimRightStrips(s[i..]);
    assert s[i..][..j] == s[i..i + j] && s[i + j..] == s[i..][j..];
    assert Strips(s, TrimSpace(s), i, i + j);
    if TrimSpace(s) == "" {
      assert s == s[..i] + s[i..];
    }
  }

  /** Trimming reaches a fixed point in one go, which is why a stored value reads back unchanged. */
  lemma TrimIsIdempotent(s: string)
    ensures Trimmed(TrimSpace(s))
    ensures TrimSpace(TrimSpace(s)) == TrimSpace(s)
  {
    TrimLeftStarts(s);
    TrimRightEnds(TrimLeft(s));
    TrimKeepsTrimmed(TrimSpace(s));
  }

  lemma TrimKeepsTrimmed(s: string)
    requires Trimmed(s)
    ensures TrimSpace(s) == s
  {
  }

  // ---- fmt's %d ----

  function Digit(d: nat): (c: char)
    requires d < 10
    ensures '0' <= c <= '9'
  {
    '0' + d as char
  }

  function FormatNat(n: nat): string {
    if n < 10 then [Digit(n)] else FormatNat(n / 10) + [Digit(n % 10)]
  }

  function FormatInt(n: int): string {
    if n < 0 then "-" + FormatNat(-n) else FormatNat(n)
  }

  /** The number that digits stand for, and a sign in front of them. */
  function ParseNat(s: string): int {
    if s == [] then 0 else 10 * ParseNat(s[..|s| - 1]) + (s[|s| - 1] as int - '0' as int)
  }

  function ParseInt(s: string): int {
    if s != [] && s[0] == '-' then -ParseNat(s[1..]) else ParseNat(s)
  }

  lemma {:induction false} FormatNatReads(n: nat)
    ensures ParseNat(FormatNat(n)) == n
    ensures FormatNat(n) != [] && (n > 0 ==> '1' <= FormatNat(n)[0] <= '9')
  {
    var s := FormatNat(n);
    if n >= 10 {
      FormatNatReads(n / 10);
      assert s[..|s| - 1] == FormatNat(n / 10);
    } else {
      assert s[..|s| - 1] == [];
    }
  }

  /** What is printed is read back, has a minus sign exactly if it is negative, and no leading zero. */
  lemma FormatIntReads(n: int)
    ensures ParseInt(FormatInt(n)) == n
    ensures FormatInt(n) != [] && (FormatInt(n)[0] == '-' <==> n < 0) && (FormatInt(n)[0] == '0' <==> n == 0)
    ensures n < 0 ==> FormatInt(n)[1..] != [] && FormatInt(n)[1] != '0'
  {
    var m := if n < 0 then -n else n;
    FormatNatReads(m);
    FormatNatDigits(m);
    if n < 0 {
      assert FormatInt(n)[1..] == FormatNat(-n);
    }
  }

  lemma {:induction false} FormatNatDigits(n: nat)
    ensures FormatNat(n) != []
    ensures forall i :: 0 <= i < |FormatNat(n)| ==> '0' <= FormatNat(n)[i] <= '9'
  {
    if n >= 10 {
      FormatNatDigits(n / 10);
    }
  }

  lemma {:induction false} FormatNatInjective(m: nat, n: nat)
    requires FormatNat(m) == FormatNat(n)
    ensures m == n
  {
    FormatNatDigits(m / 10);
    FormatNatDigits(n / 10);
    var s, t := FormatNat(m), FormatNat(n);
    assert s[|s| - 1] == t[|t| - 1];
    if m >= 10 && n >= 10 {
      assert s[..|s| - 1] == FormatNat(m / 10) && t[..|t| - 1] == FormatNat(n / 10);
      FormatNatInjective(m / 10, n / 10);
      assert Digit(m % 10) == Digit(n % 10);
    }
  }

  /** Decimal printing of integers, signs included, loses nothing and never prints a colon. */
  lemma FormatIntInjective(m: int, n: int)
    requires FormatInt(m) == FormatInt(n)
    ensures m == n
  {
    FormatNatDigits(if m < 0 then -m else m);
    FormatNatDigits(if n < 0 then -n else n);
    assert FormatInt(m)[0] == FormatInt(n)[0];
    assert (m < 0) == (n < 0);
    if m < 0 {
      assert FormatInt(m)[1..] == FormatNat(-m) && FormatInt(n)[1..] == FormatNat(-n);
      FormatNatInjective(-m, -n);
    } else {
      FormatNatInjective(m, n);
    }
  }

  lemma FormatIntHasNoColon(n: int)
    ensures ':' !in FormatInt(n)
  {
    FormatNatDigits(if n < 0 then -n else n);
  }
}
