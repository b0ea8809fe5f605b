/** The two short-id encoders of the generation scripts. The SHA-256 digest
    and the base64 text they start from are library results, so they are
    inputs here: `short_hash_case_insensitive` is modelled from the digest
    integer on, `short_hash` from the URL-safe base64 text on. */
module Identity {

  /** The symbols of base 36, most significant value last. */
  const Alphabet: string := "0123456789ABCDEFGHIJKLMNOPQRSTUVWXYZ"

  /** Number of characters of an id. */
  const IdLength: nat := 6

  /** 36^6, the number of distinct ids. */
  const IdSpace: nat := 2176782336

  /** What the scripts hash: a card's `[health, primary_attack, seed]` list in
      card_gen.py, the `(power, health, attack, seed)` tuple in rand.py. The
      `str()` serialisation and SHA-256 are folded into one digest function of
      this value, which callers pass in. */
  datatype HashInput =
    | CardKey(health: int, attack: int, seed: int)
    | StatKey(power: real, health: int, attack: int, seed: int)

  predicate IsSymbol(c: char)
  {
    '0' <= c <= '9' || 'A' <= c <= 'Z'
  }

  predicate IsBase36(s: string)
  {
    forall i :: 0 <= i < |s| ==> IsSymbol(s[i])
  }

  /** The value of one symbol: its position in the alphabet. */
  function DigitOf(c: char): (d: nat)
    requires IsSymbol(c)
    ensures d < 36 && Alphabet[d] == c
  {
    if c <= '9' then c as int - '0' as int else c as int - 'A' as int + 10
  }

  lemma SymbolAt(d: nat)
    requires d < 36
    ensures IsSymbol(Alphabet[d]) && DigitOf(Alphabet[d]) == d
  {
  }

  function Pow36(n: nat): (p: nat)
    ensures p >= 1
  {
    if n == 0 then 1 else 36 * Pow36(n - 1)
  }

  /** Reading a string of symbols as a base-36 numeral, most significant first. */
  function Value(s: string): (v: nat)
    requires IsBase36(s)
    ensures v < Pow36(|s|)
  {
    if s == [] then 0 else Value(s[..|s| - 1]) * 36 + DigitOf(s[|s| - 1])
  }

  /** The w lowest base-36 digits of n, most significant first, zero-padded. */
  function Digits(n: nat, w: nat): (s: string)
    ensures |s| == w && IsBase36(s)
  {
    if w == 0 then [] else
      SymbolAt(n % 36);
      Digits(n / 36, w - 1) + [Alphabet[n % 36]]
  }

  /** A string of k fill characters, as `str.rjust(width, '0')` prepends. */
  function Zeros(k: nat): (s: string)
    ensures |s| == k && forall i :: 0 <= i < k ==> s[i] == '0'
  {
    if k == 0 then [] else Zeros(k - 1) + ['0']
  }

  /** The id a digest integer yields: six symbols whose base-36 value is the
      digest reduced modulo 36^6; a zero digest gives "000000". */
  function ShortId(digest: nat): (id: string)
    ensures |id| == IdLength && IsBase36(id)
    ensures Value(id) == digest % IdSpace
    ensures digest == 0 ==> id == "000000"
  {
    ValueOfDigits(digest, 6);
    assert Pow36(6) == IdSpace;
    if digest == 0 then
      DigitsPad(digest, 0, 6);
      Digits(digest, 6)
    else
      Digits(digest, 6)
  }

  /** `short_hash_case_insensitive` from the digest integer on: the
      digit-extraction loop followed by left padding with '0'. */
  method ShortHashCaseInsensitive(digest: nat) returns (id: string)
    ensures id == ShortId(digest)
    ensures |id| == IdLength && IsBase36(id) && Value(id) == digest % IdSpace
  {
    var hashInt := digest;
    var acc := "";
    while hashInt != 0 && |acc| < 6
      invariant |acc| <= 6
      invariant acc == Digits(digest, |acc|)
      invariant hashInt == digest / Pow36(|acc|)
      decreases 6 - |acc|
    {
      DigitsPrepend(digest, |acc|);
      DivDiv(digest, Pow36(|acc|), 36);
      acc := [Alphabet[hashInt % 36]] + acc;
      hashInt := hashInt / 36;
    }
    if hashInt == 0 {
      DigitsPad(digest, |acc|, 6 - |acc|);
    }
    id := Zeros(6 - |acc|) + acc;
  }

  // ----- arithmetic facts -----

  lemma MulAtLeast(d: int, k: int)
    requires d > 0 && k >= 1
    ensures d * k >= d
  {
    assert d * k == d * (k - 1) + d;
    assert d * (k - 1) >= 0;
  }

  lemma DivModUnique(n: nat, d: nat, a: nat, t: nat)
    requires d > 0 && t < d && n == d * a + t
    ensures n / d == a && n % d == t
  {
    var q, r := n / d, n % d;
    assert n == d * q + r;
    assert d * q - d * a == d * (q - a);
    if q > a {
      MulAtLeast(d, q - a);
    } else if q < a {
      MulAtLeast(d, a - q);
    }
  }

  lemma MulDistributes(a: int, x: int, y: int)
    ensures a * (x + y) == a * x + a * y
  {
  }

  lemma MulAssociates(a: int, b: int, c: int)
    ensures a * (b * c) == (a * b) * c
  {
  }

  lemma MulCommutes(a: int, b: int)
    ensures a * b == b * a
  {
  }

  lemma MulNonNegative(a: int, b: int)
    requires a >= 0 && b >= 0
    ensures a * b >= 0
  {
  }

  lemma DivDiv(n: nat, a: nat, b: nat)
    requires a > 0 && b > 0
    ensures n / a / b == n / (a * b) == n / (b * a)
  {
    var q, r := n / a, n % a;
    var q2, r2 := q / b, q % b;
    assert n == a * q + r;
    assert q == b * q2 + r2;
    MulDistributes(a, b * q2, r2);
    MulAssociates(a, b, q2);
    MulNonNegative(a, b - 1 - r2);
    MulDistributes(a, b - 1, -r2);
    MulDistributes(a, b, -1);
    assert a * r2 + r < a * b;
    DivModUnique(n, a * b, q2, a * r2 + r);
    MulCommutes(a, b);
  }

  lemma DivMulMod(n: nat, p: nat)
    requires p > 0
    ensures (n / 36 % p) * 36 + n % 36 == n % (36 * p)
  {
    var q, r := n / 36, n % 36;
    var q2, r2 := q / p, q % p;
    assert q == p * q2 + r2;
    assert n == 36 * q + r;
    assert n == (36 * p) * q2 + (r2 * 36 + r) by {
      assert 36 * q == 36 * (p * q2) + 36 * r2;
      assert 36 * (p * q2) == (36 * p) * q2;
    }
    assert r2 * 36 + r < 36 * p;
    DivModUnique(n, 36 * p, q2, r2 * 36 + r);
  }

  lemma Pow36Monotone(a: nat, b: nat)
    requires a <= b
    ensures Pow36(a) <= Pow36(b)
    decreases b
  {
    if a < b {
      Pow36Monotone(a, b - 1);
    }
  }

  // ----- lemmas about Digits and Value -----

  /** Reading the digits of n back gives n modulo 36^w. */
  lemma {:induction false} ValueOfDigits(n: nat, w: nat)
    ensures Value(Digits(n, w)) == n % Pow36(w)
  {
    if w > 0 {
      var d := Digits(n, w);
      assert d[..w - 1] == Digits(n / 36, w - 1);
      ValueOfDigits(n / 36, w - 1);
      SymbolAt(n % 36);
      DivMulMod(n, Pow36(w - 1));
    }
  }

  /** Writing the value of a base-36 string back out in as many digits gives
      the string itself: Digits and Value are inverse on base-36 strings. */
  lemma {:induction false} DigitsOfValue(s: string)
    requires IsBase36(s)
    ensures Digits(Value(s), |s|) == s
  {
    if s != [] {
      var p, c := s[..|s| - 1], s[|s| - 1];
      assert IsBase36(p);
      var v := Value(s);
      assert v == Value(p) * 36 + DigitOf(c);
      assert v / 36 == Value(p) && v % 36 == DigitOf(c);
      DigitsOfValue(p);
      assert s == p + [c];
    }
  }

  /** One more digit of n is the next one up, put in front. */
  lemma {:induction false} DigitsPrepend(n: nat, w: nat)
    ensures Digits(n, w + 1) == [Alphabet[n / Pow36(w) % 36]] + Digits(n, w)
  {
    if w > 0 {
      DigitsPrepend(n / 36, w - 1);
      DivDiv(n, 36, Pow36(w - 1));
    }
  }

  /** Once n is below 36^w, every further digit is '0'. */
  lemma {:induction false} DigitsPad(n: nat, w: nat, j: nat)
    requires n / Pow36(w) == 0
    ensures Digits(n, w + j) == Zeros(j) + Digits(n, w)
  {
    if j > 0 {
      DigitsPad(n, w, j - 1);
      DigitsPrepend(n, w + j - 1);
      Pow36Monotone(w, w + j - 1);
      assert n < Pow36(w + j - 1) by {
        if n >= Pow36(w) {
          DivModUnique(n, Pow36(w), n / Pow36(w), n % Pow36(w));
        }
      }
      DivModUnique(n, Pow36(w + j - 1), 0, n);
      assert Zeros(j) == ['0'] + Zeros(j - 1) by {
        assert forall i :: 0 <= i < j ==> Zeros(j)[i] == (['0'] + Zeros(j - 1))[i];
      }
    }
  }

  // ----- short_hash -----

  predicate IsAlnum(c: char)
  {
    'a' <= c <= 'z' || 'A' <= c <= 'Z' || '0' <= c <= '9'
  }

  /** The text `base64.urlsafe_b64encode` produces (section 5 of RFC 4648):
      letters, digits, '-', '_' and the '=' padding. */
  predicate IsUrlSafeBase64(s: string)
  {
    forall i :: 0 <= i < |s| ==> IsAlnum(s[i]) || s[i] in {'-', '_', '='}
  }

  /** `''.join(filter(str.isalnum, text))`. */
  function KeepAlnum(s: string): (r: string)
    ensures |r| <= |s|
    ensures forall i :: 0 <= i < |r| ==> IsAlnum(r[i])
  {
    if s == [] then []
    else KeepAlnum(s[..|s| - 1]) + (if IsAlnum(s[|s| - 1]) then [s[|s| - 1]] else [])
  }

  /** `short_hash` from the base64 text on: drop the non-alphanumerics, keep
      at most the first six characters. */
  function ShortHash(encoded: string): (r: string)
    requires IsUrlSafeBase64(encoded)
    ensures |r| == if |KeepAlnum(encoded)| < 6 then |KeepAlnum(encoded)| else 6
    ensures forall i :: 0 <= i < |r| ==> IsAlnum(r[i])
    ensures r <= KeepAlnum(encoded)
  {
    var kept := KeepAlnum(encoded);
    if |kept| <= 6 then kept else kept[..6]
  }

  /** The filter works piecewise: filtering a concatenation concatenates the
      filtered pieces, so the kept characters stay in their order. */
  lemma {:induction false} KeepAlnumConcat(a: string, b: string)
    ensures KeepAlnum(a + b) == KeepAlnum(a) + KeepAlnum(b)
  {
    if b != [] {
      var ab := a + b;
      assert ab[..|ab| - 1] == a + b[..|b| - 1];
      KeepAlnumConcat(a, b[..|b| - 1]);
    } else {
      assert a + b == a;
    }
  }

  /** Every alphanumeric character of the text is kept as often as it occurs,
      and nothing else is. */
  lemma {:induction false} KeepAlnumCounts(s: string, c: char)
    ensures multiset(KeepAlnum(s))[c] == if IsAlnum(c) then multiset(s)[c] else 0
  {
    if s != [] {
      KeepAlnumCounts(s[..|s| - 1], c);
      assert s == s[..|s| - 1] + [s[|s| - 1]];
    }
  }

  /** Text that is already alphanumeric passes the filter unchanged. */
  lemma {:induction false} KeepAlnumIdentity(s: string)
    requires forall i :: 0 <= i < |s| ==> IsAlnum(s[i])
    ensures KeepAlnum(s) == s
  {
    if s != [] {
      KeepAlnumIdentity(s[..|s| - 1]);
      assert s == s[..|s| - 1] + [s[|s| - 1]];
    }
  }
}
