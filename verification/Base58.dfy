// Positional numbers with leading zeros kept, and the Bitcoin base58 form of
// byte strings in which did:key writes a public key.
module Base58 {
  import opened Wrappers
  import opened Table

  // ---- Digits, most significant first ----

  ghost predicate IsBase(ds: seq<nat>, base: nat) {
    forall i | 0 <= i < |ds| :: ds[i] < base
  }

  function Value(ds: seq<nat>, base: nat): nat {
    if ds == [] then 0 else Value(ds[..|ds| - 1], base) * base + ds[|ds| - 1]
  }

  function Digits(n: nat, base: nat): (ds: seq<nat>)
    requires base >= 2
    ensures IsBase(ds, base) && (ds != [] ==> ds[0] > 0) && (ds == [] <==> n == 0)
  {
    if n == 0 then [] else Digits(n / base, base) + [n % base]
  }

  function Zeros(n: nat): (zs: seq<nat>)
    ensures |zs| == n
  {
    seq(n, i => 0)
  }

  function LeadingZeros(ds: seq<nat>): (n: nat)
    ensures n <= |ds| && (forall i | 0 <= i < n :: ds[i] == 0) && (n < |ds| ==> ds[n] != 0)
  {
    if ds == [] || ds[0] != 0 then 0 else 1 + LeadingZeros(ds[1..])
  }

  // The same number in another base, with as many leading zeros as before.
  function Rebase(ds: seq<nat>, from: nat, to: nat): (r: seq<nat>)
    requires to >= 2
    ensures IsBase(r, to)
  {
    Zeros(LeadingZeros(ds)) + Digits(Value(ds, from), to)
  }

  lemma ValueOn(ds: seq<nat>, d: nat, base: nat)
    ensures Value(ds + [d], base) == Value(ds, base) * base + d
  {
    assert (ds + [d])[..|ds|] == ds;
  }

  lemma DivisionIdentity(n: nat, base: nat)
    requires base >= 2
    ensures n / base * base + n % base == n
  {}

  lemma {:induction false} ValueOfDigits(n: nat, base: nat)
    requires base >= 2
    ensures Value(Digits(n, base), base) == n
  {
    if n == 0 {
    } else {
      SmallerQuotient(n, base);
      ValueOfDigits(n / base, base);
      ValueOn(Digits(n / base, base), n % base, base);
      DivisionIdentity(n, base);
    }
  }

  lemma {:induction false} DigitsOfValue(ds: seq<nat>, base: nat)
    requires base >= 2 && IsBase(ds, base) && (ds != [] ==> ds[0] > 0)
    ensures Digits(Value(ds, base), base) == ds
  {
    if ds == [] {
    } else {
      var init, last := ds[..|ds| - 1], ds[|ds| - 1];
      DigitsOfValue(init, base);
      DivMod(Value(init, base), last, base);
      if init == [] {
        assert Value(ds, base) == last && last == ds[0] > 0;
      }
      assert ds == init + [last];
    }
  }

  lemma MultipleOf(x: int, base: nat)
    ensures x >= 1 ==> x * base >= base
    ensures x <= -1 ==> x * base + base <= 0
  {}

  lemma DivMod(q: nat, r: nat, base: nat)
    requires r < base
    ensures (q * base + r) / base == q && (q * base + r) % base == r
  {
    var n := q * base + r;
    var q', r' := n / base, n % base;
    assert n == q' * base + r';
    assert (q - q') * base == r' - r;
    MultipleOf(q - q', base);
  }

  lemma {:induction false} ValueAfterZeros(n: nat, ds: seq<nat>, base: nat)
    ensures Value(Zeros(n) + ds, base) == Value(ds, base)
    decreases n + |ds|
  {
    if ds != [] {
      assert (Zeros(n) + ds)[..n + |ds| - 1] == Zeros(n) + ds[..|ds| - 1];
      ValueAfterZeros(n, ds[..|ds| - 1], base);
    } else if n > 0 {
      assert (Zeros(n) + ds)[..n - 1] == Zeros(n - 1) + ds;
      ValueAfterZeros(n - 1, ds, base);
    }
  }

  lemma {:induction false} LeadingZerosOf(n: nat, ds: seq<nat>)
    requires ds != [] ==> ds[0] != 0
    ensures LeadingZeros(Zeros(n) + ds) == n
  {
    var all := Zeros(n) + ds;
    if ds == [] {
    } else {
      assert all[n] == ds[0];
    }
  }

  // Leading zeros and the number together determine the digits.
  lemma RebaseBack(ds: seq<nat>, from: nat, to: nat)
    requires from >= 2 && to >= 2 && IsBase(ds, from)
    ensures Rebase(Rebase(ds, from, to), to, from) == ds
  {
    var k := LeadingZeros(ds);
    var core := ds[k..];
    assert ds == Zeros(k) + core;
    ValueAfterZeros(k, core, from);
    var n := Value(core, from);
    var out := Digits(n, to);
    LeadingZerosOf(k, out);
    ValueAfterZeros(k, out, to);
    ValueOfDigits(n, to);
    DigitsOfValue(core, from);
  }

  // ---- One pass of the carry loops ----

  // The digits of `ds` times `m` plus `carry`, from the last digit up.
  function Scaled(ds: seq<nat>, base: nat, m: nat, carry: nat): seq<nat>
    requires base >= 2
  {
    if ds == [] then Digits(carry, base)
    else
      var t := ds[|ds| - 1] * m + carry;
      Scaled(ds[..|ds| - 1], base, m, t / base) + [t % base]
  }

  lemma {:induction false} ScaledDigits(n: nat, base: nat, m: nat, carry: nat)
    requires base >= 2 && m > 0
    ensures Scaled(Digits(n, base), base, m, carry) == Digits(n * m + carry, base)
  {
    if n == 0 {
      assert n * m == 0;
    } else {
      SmallerQuotient(n, base);
      var q, d := n / base, n % base;
      var c := Quotient(d * m + carry, base);
      ScaledDigits(q, base, m, c);
      ScaledStep(n, q, d, base, m, carry, c);
    }
  }

  function Quotient(n: nat, base: nat): nat
    requires base >= 2
  {
    n / base
  }

  lemma SmallerQuotient(n: nat, base: nat)
    requires base >= 2 && n > 0
    ensures n / base < n
  {}

  lemma ScaledStep(n: nat, q: nat, d: nat, base: nat, m: nat, carry: nat, c: nat)
    requires base >= 2 && m > 0 && n > 0
    requires q == n / base && d == n % base && c == Quotient(d * m + carry, base)
    requires Scaled(Digits(q, base), base, m, c) == Digits(q * m + c, base)
    ensures Scaled(Digits(n, base), base, m, carry) == Digits(n * m + carry, base)
  {
    ScaledOne(Digits(q, base), d, base, m, carry);
    SplitProduct(n, base, m, carry);
    DigitsLast(n * m + carry, q * m + c, (d * m + carry) % base, base);
  }

  lemma ScaledOne(ds: seq<nat>, d: nat, base: nat, m: nat, carry: nat)
    requires base >= 2
    ensures var t := d * m + carry;
            Scaled(ds + [d], base, m, carry) == Scaled(ds, base, m, t / base) + [t % base]
  {
    assert (ds + [d])[..|ds|] == ds;
  }

  lemma DigitsLast(n: nat, q: nat, r: nat, base: nat)
    requires base >= 2 && n > 0 && n == q * base + r && r < base
    ensures Digits(n, base) == Digits(q, base) + [r]
  {
    DivMod(q, r, base);
  }

  lemma SplitProduct(n: nat, base: nat, m: nat, carry: nat)
    requires base >= 2 && m > 0 && n > 0
    ensures var t := n % base * m + carry;
            && n * m + carry > 0
            && n * m + carry == (n / base * m + t / base) * base + t % base
  {
    var q, d := n / base, n % base;
    var t := d * m + carry;
    assert n == q * base + d;
    assert n * m == q * m * base + d * m;
    assert t == t / base * base + t % base;
  }

  // ---- The text form ----

  // The letters from `a` to `b`.
  function Span(a: char, b: char): string
    requires a <= b <= 'z'
  {
    seq(b as int - a as int + 1, i requires 0 <= i < b as int - a as int + 1 => (a as int + i) as char)
  }

  // 123456789 ABCDEFGH JKLMN PQRSTUVWXYZ abcdefghijk mnopqrstuvwxyz: no 0, I, O and l.
  const ALPHABET: string :=
    Span('1', '9') + Span('A', 'H') + Span('J', 'N') + Span('P', 'Z') + Span('a', 'k') + Span('m', 'z')

  ghost predicate Ascends(alphabet: string) {
    forall i, j | 0 <= i < j < |alphabet| :: alphabet[i] < alphabet[j]
  }

  lemma AlphabetAscends()
    ensures |ALPHABET| == 58 && Ascends(ALPHABET) && ALPHABET[0] == '1'
  {}

  lemma AlphabetCapitals()
    ensures Span('1', '9') + Span('A', 'H') + Span('J', 'N') + Span('P', 'Z') == "123456789ABCDEFGHJKLMNPQRSTUVWXYZ"
  {
    assert Span('1', '9') == "123456789" && Span('A', 'H') == "ABCDEFGH";
    assert Span('J', 'N') == "JKLMN" && Span('P', 'Z') == "PQRSTUVWXYZ";
  }

  lemma AlphabetSmall()
    ensures Span('a', 'k') + Span('m', 'z') == "abcdefghijkmnopqrstuvwxyz"
  {
    assert Span('a', 'k') == "abcdefghijk" && Span('m', 'z') == "mnopqrstuvwxyz";
  }

  lemma Regroup(a: string, b: string, c: string)
    ensures a + b + c == a + (b + c)
  {}

  lemma AlphabetText()
    ensures ALPHABET == "123456789ABCDEFGHJKLMNPQRSTUVWXYZabcdefghijkmnopqrstuvwxyz"
  {
    AlphabetCapitals();
    AlphabetSmall();
    Regroup(Span('1', '9') + Span('A', 'H') + Span('J', 'N') + Span('P', 'Z'), Span('a', 'k'), Span('m', 'z'));
    assert "123456789ABCDEFGHJKLMNPQRSTUVWXYZ" + "abcdefghijkmnopqrstuvwxyz"
        == "123456789ABCDEFGHJKLMNPQRSTUVWXYZabcdefghijkmnopqrstuvwxyz";
  }

  // The first place of `c` in `s`.
  function IndexByte(s: string, c: char): (r: Option<nat>)
    ensures r.Some? ==> r.value < |s| && s[r.value] == c
    ensures r.None? <==> c !in s
  {
    if s == [] then None
    else if s[0] == c then Some(0)
    else
      match IndexByte(s[1..], c)
      case None => None
      case Some(i) => Some(i + 1)
  }

  function Letters(ds: seq<nat>, alphabet: string): (s: string)
    requires IsBase(ds, |alphabet|)
    ensures |s| == |ds|
  {
    seq(|ds|, i requires 0 <= i < |ds| => alphabet[ds[i]])
  }

  function Places(s: string, alphabet: string): (r: Option<seq<nat>>)
    ensures r.None? <==> exists i :: 0 <= i < |s| && s[i] !in alphabet
    ensures r.Some? ==> IsBase(r.value, |alphabet|) && Letters(r.value, alphabet) == s
  {
    if s == [] then Some([])
    else
      match (Places(s[..|s| - 1], alphabet), IndexByte(alphabet, s[|s| - 1]))
      case (Some(ds), Some(d)) =>
        assert s == s[..|s| - 1] + [s[|s| - 1]];
        Some(ds + [d])
      case _ => None
  }

  lemma PlacesOfLetters(ds: seq<nat>, alphabet: string)
    requires IsBase(ds, |alphabet|)
    requires Ascends(alphabet)
    ensures Places(Letters(ds, alphabet), alphabet) == Some(ds)
  {
    var s := Letters(ds, alphabet);
    forall i | 0 <= i < |s| ensures s[i] in alphabet {
      assert s[i] == alphabet[ds[i]];
    }
    var ds' := Places(s, alphabet).value;
    forall i | 0 <= i < |ds| ensures ds'[i] == ds[i] {
      assert alphabet[ds'[i]] == Letters(ds', alphabet)[i] == s[i] == alphabet[ds[i]];
      assert ds'[i] < |alphabet| && ds[i] < |alphabet|;
    }
    assert ds' == ds;
  }

  function Encoded(data: seq<Byte>): string {
    Letters(Rebase(data, 256, 58), ALPHABET)
  }

  function Decoded(s: string): Option<seq<Byte>> {
    match Places(s, ALPHABET)
    case None => None
    case Some(ds) => Some(Rebase(ds, 58, 256))
  }

  lemma DecodeEncoded(data: seq<Byte>)
    ensures Decoded(Encoded(data)) == Some(data)
  {
    RebaseBack(data, 256, 58);
    PlacesOfLetters(Rebase(data, 256, 58), ALPHABET);
  }

  // Every string over the alphabet is the encoding of exactly one byte string;
  // no other string is decoded.
  lemma EncodeDecoded(s: string)
    ensures Decoded(s).None? <==> exists i :: 0 <= i < |s| && s[i] !in ALPHABET
    ensures Decoded(s).Some? ==> Encoded(Decoded(s).value) == s
  {
    if Decoded(s).Some? {
      RebaseBack(Places(s, ALPHABET).value, 58, 256);
    }
  }

  lemma SampleDigits()
    ensures Digits(97, 58) == [1, 39]
  {
    assert Digits(0, 58) == [] && Digits(1, 58) == [1];
  }

  lemma SampleValues()
    ensures Value([97], 256) == 97 && Value([0, 97], 256) == 97
  {
    ValueOn([], 97, 256);
    ValueOn([], 0, 256);
    ValueOn([0], 97, 256);
    assert [] + [97] == [97] && [] + [0] == [0] && [0] + [97] == [0, 97];
  }

  lemma SampleRebases()
    ensures Rebase([97], 256, 58) == [1, 39] && Rebase([0, 97], 256, 58) == [0, 1, 39]
  {
    SampleDigits();
    SampleValues();
    assert LeadingZeros([97]) == 0 && LeadingZeros([0, 97]) == 1;
  }

  // Known encodings: one byte, and the same after a zero.
  lemma SampleEncodings()
    ensures Encoded([0x61]) == "2g" && Encoded([0x00, 0x61]) == "12g"
  {
    SampleRebases();
    SampleLetters();
  }

  lemma SampleLetters()
    ensures |ALPHABET| == 58
    ensures Letters([1, 39], ALPHABET) == "2g" && Letters([0, 1, 39], ALPHABET) == "12g"
  {
    assert ALPHABET[0] == '1' && ALPHABET[1] == '2' && ALPHABET[39] == 'g';
  }

  // ---- The loops ----

  method Base58Encode(data: seq<Byte>) returns (out: string)
    ensures out == Encoded(data)
  {
    var result: seq<nat> := [];
    for k := 0 to |data|
      invariant result == Digits(Value(data[..k], 256), 58)
    {
      assert data[..k + 1][..k] == data[..k];
      ScaledDigits(Value(data[..k], 256), 58, 256, data[k]);
      result := TakeByte(result, data[k]);
    }
    assert data[..|data|] == data;
    result := WithZeros(data, result);
    out := ToText(result, ALPHABET);
  }

  method WithZeros(data: seq<Byte>, digits: seq<nat>) returns (result: seq<nat>)
    ensures result == Zeros(LeadingZeros(data)) + digits
  {
    result := digits;
    var z := 0;
    while z < |data| && data[z] == 0
      invariant z <= |data| && result == Zeros(z) + digits
      invariant forall i | 0 <= i < z :: data[i] == 0
    {
      result := [0] + result;
      z := z + 1;
    }
    assert z == LeadingZeros(data);
  }

  // One turn of the carry loop: the digits from `i` on are final.
  lemma ByteTurn(digits: seq<nat>, i: nat, result: seq<nat>, carry: nat, b: nat)
    requires i < |digits| == |result| && result[..i + 1] == digits[..i + 1]
    requires Scaled(digits, 58, 256, b) == Scaled(digits[..i + 1], 58, 256, carry) + result[i + 1..]
    ensures var t := result[i] * 256 + carry;
            var result' := result[i := t % 58];
            && result'[..i] == digits[..i]
            && Scaled(digits, 58, 256, b) == Scaled(digits[..i], 58, 256, t / 58) + result'[i..]
  {
    assert result[i] == result[..i + 1][i] == digits[i];
    assert digits[..i] + [digits[i]] == digits[..i + 1];
    ScaledOne(digits[..i], digits[i], 58, 256, carry);
    var t := result[i] * 256 + carry;
    assert result[i := t % 58][i..] == [t % 58] + result[i + 1..];
  }

  // One byte more: base-58 digits times 256 plus the byte.
  method TakeByte(digits: seq<nat>, b: Byte) returns (result: seq<nat>)
    requires IsBase(digits, 58)
    ensures result == Scaled(digits, 58, 256, b)
  {
    result := digits;
    var carry: nat := b;
    var i := |digits| - 1;
    assert digits[..i + 1] == digits;
    while i >= 0
      invariant -1 <= i < |result| == |digits|
      invariant carry < 256
      invariant result[..i + 1] == digits[..i + 1]
      invariant Scaled(digits, 58, 256, b) == Scaled(digits[..i + 1], 58, 256, carry) + result[i + 1..]
    {
      ByteTurn(digits, i, result, carry, b);
      assert result[i] == result[..i + 1][i] == digits[i];
      carry := carry + result[i] * 256;
      result := result[i := carry % 58];
      carry := carry / 58;
      i := i - 1;
    }
    result := CarryOut(carry, result);
  }

  // What is left of the carry goes in front.
  method CarryOut(carry: nat, low: seq<nat>) returns (result: seq<nat>)
    ensures result == Digits(carry, 58) + low
  {
    result := low;
    var left := carry;
    while left > 0
      invariant Digits(left, 58) + result == Digits(carry, 58) + low
    {
      result := [left % 58] + result;
      left := left / 58;
    }
  }

  method ToText(ds: seq<nat>, alphabet: string) returns (out: string)
    requires IsBase(ds, |alphabet|)
    ensures out == Letters(ds, alphabet)
  {
    out := "";
    for j := 0 to |ds|
      invariant out == Letters(ds, alphabet)[..j]
    {
      out := out + [alphabet[ds[j]]];
    }
  }

  // base58Decode keeps its digits least significant first until the end.
  function Reversed(ds: seq<nat>): (r: seq<nat>)
    ensures |r| == |ds|
  {
    seq(|ds|, i requires 0 <= i < |ds| => ds[|ds| - 1 - i])
  }

  function ScaledUp(low: seq<nat>, base: nat, m: nat, carry: nat): seq<nat>
    requires base >= 2
  {
    if low == [] then Reversed(Digits(carry, base))
    else
      var t := low[0] * m + carry;
      [t % base] + ScaledUp(low[1..], base, m, t / base)
  }

  lemma {:induction false} ScaledUpReversed(ds: seq<nat>, base: nat, m: nat, carry: nat)
    requires base >= 2
    ensures ScaledUp(Reversed(ds), base, m, carry) == Reversed(Scaled(ds, base, m, carry))
  {
    if ds == [] {
    } else {
      var init, last := ds[..|ds| - 1], ds[|ds| - 1];
      var t := last * m + carry;
      ScaledUpReversed(init, base, m, t / base);
      assert Reversed(ds)[1..] == Reversed(init);
      var high := Scaled(init, base, m, t / base);
      assert Reversed(high + [t % base]) == [t % base] + Reversed(high);
    }
  }

  lemma ScaledUpOne(low: seq<nat>, i: nat, base: nat, m: nat, carry: nat)
    requires base >= 2 && i < |low|
    ensures var t := low[i] * m + carry;
            ScaledUp(low[i..], base, m, carry) == [t % base] + ScaledUp(low[i + 1..], base, m, t / base)
  {
    assert low[i..][1..] == low[i + 1..];
  }

  method Base58Decode(s: string) returns (r: Option<seq<Byte>>)
    ensures r == Decoded(s)
  {
    AlphabetAscends();
    r := FromText(s, ALPHABET);
  }

  method FromText(s: string, alphabet: string) returns (r: Option<seq<Byte>>)
    requires |alphabet| == 58 && Ascends(alphabet) && alphabet[0] == '1'
    ensures r == match Places(s, alphabet) case None => None case Some(ds) => Some(Rebase(ds, 58, 256))
  {
    var result: seq<nat> := [];
    ghost var places: seq<nat> := [];
    assert Digits(0, 256) == [];
    for k := 0 to |s|
      invariant Places(s[..k], alphabet) == Some(places)
      invariant result == Reversed(Digits(Value(places, 58), 256))
    {
      var place := IndexByte(alphabet, s[k]);
      if place.None? {
        return None;
      }
      NextPlace(s, k, alphabet, places, place.value);
      NextValue(places, place.value);
      result := TakePlace(result, place.value);
      places := places + [place.value];
    }
    assert s[..|s|] == s;
    result := WithOnes(s, result, alphabet, places);
    ReversedZeros(Digits(Value(places, 58), 256), LeadingZeros(places));
    result := ReverseInPlace(result);
    return Some(result);
  }

  lemma NextPlace(s: string, k: nat, alphabet: string, places: seq<nat>, place: nat)
    requires k < |s| && Places(s[..k], alphabet) == Some(places) && IndexByte(alphabet, s[k]) == Some(place)
    ensures Places(s[..k + 1], alphabet) == Some(places + [place])
  {
    assert s[..k + 1][..k] == s[..k];
  }

  lemma NextValue(places: seq<nat>, place: nat)
    ensures ScaledUp(Reversed(Digits(Value(places, 58), 256)), 256, 58, place)
            == Reversed(Digits(Value(places + [place], 58), 256))
  {
    assert (places + [place])[..|places|] == places;
    ScaledDigits(Value(places, 58), 256, 58, place);
    ScaledUpReversed(Digits(Value(places, 58), 256), 256, 58, place);
  }

  lemma ReversedZeros(ds: seq<nat>, n: nat)
    ensures Reversed(Reversed(ds) + Zeros(n)) == Zeros(n) + ds
  {}

  lemma LetterTurn(low: seq<nat>, i: nat, result: seq<nat>, carry: nat, place: nat)
    requires i < |low| == |result| && result[i..] == low[i..]
    requires ScaledUp(low, 256, 58, place) == result[..i] + ScaledUp(low[i..], 256, 58, carry)
    ensures var t := result[i] * 58 + carry;
            var result' := result[i := t % 256];
            && result'[i + 1..] == low[i + 1..]
            && ScaledUp(low, 256, 58, place) == result'[..i + 1] + ScaledUp(low[i + 1..], 256, 58, t / 256)
  {
    assert result[i] == result[i..][0] == low[i];
    assert result[i + 1..] == result[i..][1..];
    ScaledUpOne(low, i, 256, 58, carry);
    var t := result[i] * 58 + carry;
    assert result[i := t % 256][..i + 1] == result[..i] + [t % 256];
  }

  // One letter more: base-256 digits times 58 plus its place.
  method TakePlace(low: seq<nat>, place: nat) returns (result: seq<nat>)
    requires place < 58 && IsBase(low, 256)
    ensures result == ScaledUp(low, 256, 58, place)
  {
    result := low;
    var carry := place;
    assert low[0..] == low;
    for i := 0 to |low|
      invariant |result| == |low| && carry < 58
      invariant result[i..] == low[i..]
      invariant ScaledUp(low, 256, 58, place) == result[..i] + ScaledUp(low[i..], 256, 58, carry)
    {
      LetterTurn(low, i, result, carry, place);
      assert result[i] == result[i..][0] == low[i];
      carry := carry + result[i] * 58;
      result := result[i := carry % 256];
      carry := carry / 256;
    }
    assert result[..|low|] == result;
    var rest := Rest(carry);
    result := result + rest;
  }

  method Rest(carry: nat) returns (low: seq<nat>)
    ensures low == Reversed(Digits(carry, 256))
  {
    var left := carry;
    low := [];
    while left > 0
      invariant low + Reversed(Digits(left, 256)) == Reversed(Digits(carry, 256))
    {
      ReversedLast(Digits(left / 256, 256), left % 256);
      low := low + [left % 256];
      left := left / 256;
    }
  }

  lemma ReversedLast(high: seq<nat>, d: nat)
    ensures Reversed(high + [d]) == [d] + Reversed(high)
  {}

  method WithOnes(s: string, low: seq<nat>, alphabet: string, ghost places: seq<nat>) returns (result: seq<nat>)
    requires alphabet != "" && Ascends(alphabet) && alphabet[0] == '1'
    requires Places(s, alphabet) == Some(places)
    ensures result == low + Zeros(LeadingZeros(places))
  {
    OnesAreZeros(places, s, alphabet);
    result := low;
    var z := 0;
    while z < |s| && s[z] == '1'
      invariant z <= |s| && result == low + Zeros(z)
      invariant forall i | 0 <= i < z :: places[i] == 0
    {
      result := result + [0];
      z := z + 1;
    }
    assert z == LeadingZeros(places);
  }

  lemma OnesAreZeros(places: seq<nat>, s: string, alphabet: string)
    requires alphabet != "" && Ascends(alphabet) && alphabet[0] == '1'
    requires Places(s, alphabet) == Some(places)
    ensures |places| == |s| && forall i | 0 <= i < |s| :: s[i] == '1' <==> places[i] == 0
  {
    forall i | 0 <= i < |s| ensures s[i] == '1' <==> places[i] == 0 {
      assert Letters(places, alphabet)[i] == alphabet[places[i]];
    }
  }

  method ReverseInPlace(ds: seq<nat>) returns (result: seq<nat>)
    ensures result == Reversed(ds)
  {
    result := ds;
    var i, j := 0, |ds| - 1;
    while i < j
      invariant 0 <= i && i + j == |ds| - 1 && |result| == |ds|
      invariant forall k | 0 <= k < |ds| && (k < i || k > j) :: result[k] == ds[|ds| - 1 - k]
      invariant forall k | i <= k <= j :: result[k] == ds[k]
    {
      result := result[i := result[j]][j := result[i]];
      i, j := i + 1, j - 1;
    }
  }
}
