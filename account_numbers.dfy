/**
  `generate_account_number`: "ACC" followed by the first 12 characters of a
  random UUID's text with its dashes removed, upper-cased; and the loop of
  the sign-in handler that draws again while the number is taken.
*/
module AccountNumbers {

  type Nibble = x: int | 0 <= x < 16

  /** The 128 bits of a UUID as 32 hexadecimal digits, most significant first. */
  type Uuid = s: seq<Nibble> | |s| == 32
    witness [0, 0, 0, 0, 0, 0, 0, 0, 0, 0, 0, 0, 0, 0, 0, 0,
             0, 0, 0, 0, 0, 0, 0, 0, 0, 0, 0, 0, 0, 0, 0, 0]

  /** The digit `str(uuid)` writes for a nibble: 0-9, then a-f. */
  function LowerDigit(n: Nibble): char {
    if n < 10 then ('0' as int + n) as char else ('a' as int + n - 10) as char
  }

  /** An upper-case hexadecimal digit: 0-9, then A-F. */
  function UpperDigit(n: Nibble): char {
    if n < 10 then ('0' as int + n) as char else ('A' as int + n - 10) as char
  }

  function Hex(s: seq<Nibble>): (r: string)
    ensures |r| == |s| && forall i :: 0 <= i < |s| ==> r[i] == LowerDigit(s[i])
  {
    seq(|s|, i requires 0 <= i < |s| => LowerDigit(s[i]))
  }

  function HexUpper(s: seq<Nibble>): (r: string)
    ensures |r| == |s| && forall i :: 0 <= i < |s| ==> r[i] == UpperDigit(s[i])
  {
    seq(|s|, i requires 0 <= i < |s| => UpperDigit(s[i]))
  }

  /** `str(uuid)`: the canonical 8-4-4-4-12 lower-case form. */
  function Text(u: Uuid): string {
    Hex(u[..8]) + "-" + (Hex(u[8..12]) + "-" + (Hex(u[12..16]) + "-" + (Hex(u[16..20]) + "-" + Hex(u[20..]))))
  }

  /** `s.replace(c, '')`. */
  function Without(s: string, c: char): string {
    if s == [] then [] else (if s[0] == c then [] else [s[0]]) + Without(s[1..], c)
  }

  /** `s[:n]`. */
  function Prefix(s: string, n: nat): string {
    if |s| <= n then s else s[..n]
  }

  function UpperChar(c: char): char {
    if 'a' <= c <= 'z' then (c as int - 32) as char else c
  }

  /** `s.upper()` on ASCII text. */
  function Upper(s: string): string {
    seq(|s|, i requires 0 <= i < |s| => UpperChar(s[i]))
  }

  function GenerateAccountNumber(u: Uuid): string {
    "ACC" + Upper(Prefix(Without(Text(u), '-'), 12))
  }

  lemma {:induction false} WithoutConcat(a: string, b: string, c: char)
    ensures Without(a + b, c) == Without(a, c) + Without(b, c)
    decreases |a|
  {
    if a != [] {
      assert (a + b)[1..] == a[1..] + b;
      WithoutConcat(a[1..], b, c);
    } else {
      assert a + b == b;
    }
  }

  lemma {:induction false} WithoutAbsent(s: string, c: char)
    requires forall i :: 0 <= i < |s| ==> s[i] != c
    ensures Without(s, c) == s
    decreases |s|
  {
    if s != [] {
      WithoutAbsent(s[1..], c);
    }
  }

  lemma HexHasNoDash(s: seq<Nibble>)
    ensures Without(Hex(s), '-') == Hex(s)
  {
    WithoutAbsent(Hex(s), '-');
  }

  /** Dropping the dash after a block of digits. */
  lemma DropDash(s: seq<Nibble>, r: string)
    ensures Without(Hex(s) + "-" + r, '-') == Hex(s) + Without(r, '-')
  {
    assert Hex(s) + "-" + r == Hex(s) + ("-" + r);
    WithoutConcat(Hex(s), "-" + r, '-');
    HexHasNoDash(s);
    assert ("-" + r)[1..] == r;
  }

  /** Removing the dashes from the canonical text leaves the 32 digits. */
  lemma DashesRemoved(u: Uuid)
    ensures Without(Text(u), '-') == Hex(u)
  {
    var p1, p2, p3, p4, p5 := u[..8], u[8..12], u[12..16], u[16..20], u[20..];
    var t4 := Hex(p4) + "-" + Hex(p5);
    var t3 := Hex(p3) + "-" + t4;
    var t2 := Hex(p2) + "-" + t3;
    assert Text(u) == Hex(p1) + "-" + t2;
    DropDash(p1, t2);
    DropDash(p2, t3);
    DropDash(p3, t4);
    DropDash(p4, Hex(p5));
    HexHasNoDash(p5);
    var w := Hex(p1) + (Hex(p2) + (Hex(p3) + (Hex(p4) + Hex(p5))));
    assert Without(Text(u), '-') == w;
    assert |w| == 32;
    forall i | 0 <= i < 32 ensures w[i] == Hex(u)[i] {
      if i < 8 { assert w[i] == Hex(p1)[i]; }
      else if i < 12 { assert w[i] == Hex(p2)[i - 8]; }
      else if i < 16 { assert w[i] == Hex(p3)[i - 12]; }
      else if i < 20 { assert w[i] == Hex(p4)[i - 16]; }
      else { assert w[i] == Hex(p5)[i - 20]; }
    }
  }

  /**
    The generated number is "ACC" and the first 12 digits of the UUID in
    upper case: 15 characters, each after the prefix an upper-case
    hexadecimal digit.
  */
  lemma AccountNumberShape(u: Uuid)
    ensures GenerateAccountNumber(u) == "ACC" + HexUpper(u[..12])
    ensures |GenerateAccountNumber(u)| == 15
    ensures GenerateAccountNumber(u)[..3] == "ACC"
    ensures forall i :: 3 <= i < 15 ==>
      '0' <= GenerateAccountNumber(u)[i] <= '9' || 'A' <= GenerateAccountNumber(u)[i] <= 'F'
  {
    DashesRemoved(u);
    var digits := Upper(Prefix(Hex(u), 12));
    assert |digits| == 12;
    forall i | 0 <= i < 12 ensures digits[i] == HexUpper(u[..12])[i] {
      assert digits[i] == UpperChar(LowerDigit(u[i]));
    }
    assert digits == HexUpper(u[..12]);
  }

  lemma UpperDigitInjective(a: Nibble, b: Nibble)
    requires UpperDigit(a) == UpperDigit(b)
    ensures a == b
  {
  }

  /**
    Two draws give the same number exactly when their first 12 digits (48
    bits) agree; that is why the sign-in handler checks for collisions.
  */
  lemma SameNumberIffSamePrefix(u: Uuid, v: Uuid)
    ensures GenerateAccountNumber(u) == GenerateAccountNumber(v) <==> u[..12] == v[..12]
  {
    AccountNumberShape(u);
    AccountNumberShape(v);
    var hu, hv := HexUpper(u[..12]), HexUpper(v[..12]);
    if GenerateAccountNumber(u) == GenerateAccountNumber(v) {
      assert hu == ("ACC" + hu)[3..] == ("ACC" + hv)[3..] == hv;
      forall i | 0 <= i < 12 ensures u[i] == v[i] {
        assert hu[i] == hv[i];
        UpperDigitInjective(u[i], v[i]);
      }
      assert u[..12] == v[..12];
    }
  }

  /** Some draw of the sequence gives a number that is not taken. */
  predicate SomeDrawFree(taken: set<string>, draws: seq<Uuid>) {
    exists i :: 0 <= i < |draws| && GenerateAccountNumber(draws[i]) !in taken
  }

  /** Which draw the collision loop stops at: the first whose number is free. */
  function FirstFree(taken: set<string>, draws: seq<Uuid>): (k: nat)
    requires SomeDrawFree(taken, draws)
    ensures k < |draws| && GenerateAccountNumber(draws[k]) !in taken
    ensures forall i :: 0 <= i < k ==> GenerateAccountNumber(draws[i]) in taken
    decreases |draws|
  {
    if GenerateAccountNumber(draws[0]) !in taken then 0
    else
      assert SomeDrawFree(taken, draws[1..]) by {
        var i :| 0 <= i < |draws| && GenerateAccountNumber(draws[i]) !in taken;
        assert i > 0 && draws[1..][i - 1] == draws[i];
      }
      var k := FirstFree(taken, draws[1..]);
      assert forall i :: 1 <= i < k + 1 ==> draws[i] == draws[1..][i - 1];
      k + 1
  }

  /**
    `new_account_number = generate_account_number()` followed by
    `while AccountDetails.query.get(new_account_number): …`, drawing the
    UUIDs of `draws` in turn.
  */
  method FreshAccountNumber(taken: set<string>, draws: seq<Uuid>) returns (number: string, used: nat)
    requires SomeDrawFree(taken, draws)
    ensures used < |draws| && number == GenerateAccountNumber(draws[used])
    ensures number !in taken
    ensures forall i :: 0 <= i < used ==> GenerateAccountNumber(draws[i]) in taken
    ensures used == FirstFree(taken, draws)
  {
    used := 0;
    number := GenerateAccountNumber(draws[0]);
    while number in taken
      invariant used < |draws| && number == GenerateAccountNumber(draws[used])
      invariant forall i :: 0 <= i < used ==> GenerateAccountNumber(draws[i]) in taken
      invariant exists i :: used <= i < |draws| && GenerateAccountNumber(draws[i]) !in taken
      decreases |draws| - used
    {
      used := used + 1;
      number := GenerateAccountNumber(draws[used]);
    }
    var k := FirstFree(taken, draws);
    assert !(k < used) && !(used < k);
  }
}
