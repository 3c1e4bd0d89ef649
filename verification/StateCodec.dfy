/**
 The signed, self-expiring value of the login cookie: three fields and an expiry, joined by
 NUL bytes, in unpadded base64url as section 5 of RFC 4648 defines it, with a signature.

 Strings are bytes. The signature is an arbitrary function of the payload.
 */
module StateCodec {
  import opened Options

  type byte = x: int | 0 <= x < 256

  type bytes = seq<byte>

  datatype Fields = Fields(state: bytes, verifier: bytes, returnTo: bytes)

  const NUL: byte := 0
  const DOT: byte := 46
  const NS := 1_000_000_000
  const TTL_SECONDS := 300

  // ---------------------------------------------------------------- base64url

  type sextet = x: int | 0 <= x < 64

  /** The alphabet of table 2 of RFC 4648. */
  function Symbol(v: sextet): byte {
    if v < 26 then 65 + v else if v < 52 then 97 + v - 26 else if v < 62 then 48 + v - 52 else if v == 62 then 45 else 95
  }

  function ValueOf(c: byte): Option<sextet> {
    if 65 <= c <= 90 then Some(c - 65)
    else if 97 <= c <= 122 then Some(c - 97 + 26)
    else if 48 <= c <= 57 then Some(c - 48 + 52)
    else if c == 45 then Some(62)
    else if c == 95 then Some(63)
    else None
  }

  function Sextets(b: bytes): seq<sextet> {
    if |b| == 0 then []
    else if |b| == 1 then [b[0] / 4, b[0] % 4 * 16]
    else if |b| == 2 then [b[0] / 4, b[0] % 4 * 16 + b[1] / 16, b[1] % 16 * 4]
    else [b[0] / 4, b[0] % 4 * 16 + b[1] / 16, b[1] % 16 * 4 + b[2] / 64, b[2] % 64] + Sextets(b[3..])
  }

  function Byte0(v0: sextet, v1: sextet): byte {
    v0 as int * 4 + v1 as int / 16
  }

  function Byte1(v1: sextet, v2: sextet): byte {
    v1 as int % 16 * 16 + v2 as int / 4
  }

  function Byte2(v2: sextet, v3: sextet): byte {
    v2 as int % 4 * 64 + v3 as int
  }

  /** Left-over bits are dropped; a single left-over symbol is an error. */
  function Unpack(v: seq<sextet>): Option<bytes> {
    if |v| == 0 then Some([])
    else if |v| == 1 then None
    else if |v| == 2 then Some([Byte0(v[0], v[1])])
    else if |v| == 3 then Some([Byte0(v[0], v[1]), Byte1(v[1], v[2])])
    else
      var rest := Unpack(v[4..]);
      if rest.None? then None
      else Some([Byte0(v[0], v[1]), Byte1(v[1], v[2]), Byte2(v[2], v[3])] + rest.value)
  }

  function Spell(v: seq<sextet>): (s: bytes)
    ensures |s| == |v| && forall i :: 0 <= i < |s| ==> s[i] == Symbol(v[i])
  {
    if v == [] then [] else [Symbol(v[0])] + Spell(v[1..])
  }

  /** The decoder passes over line breaks, and refuses anything else outside the alphabet. */
  function Read(s: bytes): Option<seq<sextet>> {
    if s == [] then Some([])
    else
      var rest := Read(s[1..]);
      if rest.None? || s[0] == 10 || s[0] == 13 then rest
      else if ValueOf(s[0]).None? then None
      else Some([ValueOf(s[0]).value] + rest.value)
  }

  function Encode64(b: bytes): bytes {
    Spell(Sextets(b))
  }

  function Decode64(s: bytes): Option<bytes> {
    var v := Read(s);
    if v.None? then None else Unpack(v.value)
  }

  lemma SymbolRoundTrip(v: sextet)
    ensures ValueOf(Symbol(v)) == Some(v) && Symbol(v) != 10 && Symbol(v) != 13 && Symbol(v) != DOT
  {
  }

  lemma {:induction false} ReadSpelled(v: seq<sextet>)
    ensures Read(Spell(v)) == Some(v)
    decreases |v|
  {
    hide Symbol, ValueOf;
    if v != [] {
      var c, rest := Symbol(v[0]), Spell(v[1..]);
      assert Spell(v) == [c] + rest;
      SymbolRoundTrip(v[0]);
      ReadSpelled(v[1..]);
      ReadOne(c, rest, v[0], v[1..]);
      assert v == [v[0]] + v[1..];
    }
  }

  lemma ReadOne(c: byte, rest: bytes, x: sextet, xs: seq<sextet>)
    requires ValueOf(c) == Some(x) && c != 10 && c != 13 && Read(rest) == Some(xs)
    ensures Read([c] + rest) == Some([x] + xs)
  {
    hide ValueOf;
    assert ([c] + rest)[1..] == rest;
  }

  lemma Group(a: byte, b: byte, c: byte)
    ensures Byte0(a / 4, a % 4 * 16 + b / 16) == a
    ensures Byte1(a % 4 * 16 + b / 16, b % 16 * 4 + c / 64) == b
    ensures Byte2(b % 16 * 4 + c / 64, c % 64) == c
  {
  }

  lemma UnpackGroup(v: seq<sextet>, rest: seq<sextet>, b: bytes)
    requires |v| == 4 && Unpack(rest) == Some(b)
    ensures Unpack(v + rest) == Some([Byte0(v[0], v[1]), Byte1(v[1], v[2]), Byte2(v[2], v[3])] + b)
  {
    hide Byte0, Byte1, Byte2;
    assert (v + rest)[4..] == rest;
  }

  lemma {:induction false} Unpacked(b: bytes)
    ensures Unpack(Sextets(b)) == Some(b)
    decreases |b|
  {
    hide Byte0, Byte1, Byte2;
    if |b| == 1 {
      Group(b[0], 0, 0);
      assert b == [b[0]];
    } else if |b| == 2 {
      Group(b[0], b[1], 0);
      assert b == [b[0], b[1]];
    } else if |b| >= 3 {
      Group(b[0], b[1], b[2]);
      Unpacked(b[3..]);
      hide Unpack;
      UnpackGroup([b[0] / 4, b[0] % 4 * 16 + b[1] / 16, b[1] % 16 * 4 + b[2] / 64, b[2] % 64], Sextets(b[3..]), b[3..]);
      assert b == [b[0], b[1], b[2]] + b[3..];
    }
  }

  lemma Base64RoundTrip(b: bytes)
    ensures Decode64(Encode64(b)) == Some(b) && DOT !in Encode64(b)
  {
    ReadSpelled(Sextets(b));
    Unpacked(b);
    forall i | 0 <= i < |Encode64(b)| ensures Encode64(b)[i] != DOT {
      SymbolRoundTrip(Sextets(b)[i]);
    }
  }

  /** The k-th bit of a string of bytes, the first being the highest of the first byte; past the end there are zeros. */
  function Bit(b: bytes, k: nat): (r: int)
    ensures 0 <= r <= 1
  {
    if k / 8 >= |b| then 0 else BitOf(b[k / 8], k % 8)
  }

  function Halves(x: nat, n: nat): (h: nat)
    ensures h <= x
  {
    if n == 0 then x else Halves(x / 2, n - 1)
  }

  function BitOf(x: byte, k: nat): (r: int)
    requires k < 8
    ensures 0 <= r <= 1
  {
    Halves(x, 7 - k) % 2
  }

  lemma {:induction false} HalvesStep(x: nat, n: nat)
    ensures Halves(x, n) == 2 * Halves(x, n + 1) + Halves(x, n) % 2
    decreases n
  {
    if n > 0 {
      HalvesStep(x / 2, n - 1);
    }
  }

  lemma HalfTwice(x: nat)
    ensures Halves(x, 2) == x / 4
  {
    assert Halves(x, 2) == Halves(x / 2, 1) == Halves(x / 2 / 2, 0);
  }

  lemma {:induction false} HalvesAdd(x: nat, m: nat, n: nat)
    ensures Halves(x, m + n) == Halves(Halves(x, m), n)
    decreases m
  {
    if m > 0 {
      HalvesAdd(x / 2, m - 1, n);
    }
  }

  lemma HalvesAre(x: byte)
    ensures Halves(x, 2) == x as int / 4 && Halves(x, 4) == x as int / 16 && Halves(x, 6) == x as int / 64 && Halves(x, 8) == 0
  {
    HalvesAdd(x, 2, 2);
    HalvesAdd(x, 4, 2);
    HalvesAdd(x, 6, 2);
    HalfTwice(x);
    HalfTwice(x / 4);
    HalfTwice(x / 16);
    HalfTwice(x / 64);
    hide Halves;
    assert x as int / 4 / 4 == x as int / 16 && x as int / 16 / 4 == x as int / 64;
  }

  /** A byte cut after two, four or six bits, from the bits. */
  lemma ByteBits(x: byte)
    ensures x as int / 64 == 2 * BitOf(x, 0) + BitOf(x, 1)
    ensures x as int / 16 == 4 * (x as int / 64) + 2 * BitOf(x, 2) + BitOf(x, 3)
    ensures x as int / 4 == 4 * (x as int / 16) + 2 * BitOf(x, 4) + BitOf(x, 5)
    ensures x as int == 4 * (x as int / 4) + 2 * BitOf(x, 6) + BitOf(x, 7)
  {
    HalvesAre(x);
    HalvesStep(x, 0);
    HalvesStep(x, 1);
    HalvesStep(x, 2);
    HalvesStep(x, 3);
    HalvesStep(x, 4);
    HalvesStep(x, 5);
    HalvesStep(x, 6);
    HalvesStep(x, 7);
    assert Halves(x, 0) == x;
    hide Halves;
  }

  /** The six bits from k on, as a number. */
  function SixBits(b: bytes, k: nat): int {
    32 * Bit(b, k) + 16 * Bit(b, k + 1) + 8 * Bit(b, k + 2) + 4 * Bit(b, k + 3) + 2 * Bit(b, k + 4) + Bit(b, k + 5)
  }

  lemma BitsAfter(b: bytes, k: nat)
    requires |b| >= 3
    ensures Bit(b, k + 24) == Bit(b[3..], k)
  {
    assert (k + 24) / 8 == k / 8 + 3 && (k + 24) % 8 == k % 8;
    hide BitOf;
  }

  /** The bits of byte j. */
  lemma BitsOfByte(b: bytes, j: nat)
    requires j < |b|
    ensures forall m :: 0 <= m < 8 ==> Bit(b, 8 * j + m) == BitOf(b[j], m)
  {
    hide BitOf;
  }

  lemma NoMoreBits(b: bytes, k: nat)
    requires k >= 8 * |b|
    ensures Bit(b, k) == 0
  {
  }

  lemma FirstSix(b: bytes)
    requires b != []
    ensures SixBits(b, 0) == b[0] as int / 4
    ensures SixBits(b, 6) == b[0] as int % 4 * 16 + if |b| > 1 then b[1] as int / 16 else 0
  {
    BitsOfByte(b, 0);
    ByteBits(b[0]);
    if |b| > 1 {
      BitsOfByte(b, 1);
      ByteBits(b[1]);
    } else {
      NoMoreBits(b, 8);
      NoMoreBits(b, 9);
      NoMoreBits(b, 10);
      NoMoreBits(b, 11);
    }
    hide Bit, BitOf;
    assert Bit(b, 8 * 0 + 0) == BitOf(b[0], 0) && Bit(b, 8 * 0 + 1) == BitOf(b[0], 1) && Bit(b, 8 * 0 + 2) == BitOf(b[0], 2);
    assert Bit(b, 8 * 0 + 3) == BitOf(b[0], 3) && Bit(b, 8 * 0 + 4) == BitOf(b[0], 4) && Bit(b, 8 * 0 + 5) == BitOf(b[0], 5);
    assert Bit(b, 8 * 0 + 6) == BitOf(b[0], 6) && Bit(b, 8 * 0 + 7) == BitOf(b[0], 7);
    if |b| > 1 {
      assert Bit(b, 8 * 1 + 0) == BitOf(b[1], 0) && Bit(b, 8 * 1 + 1) == BitOf(b[1], 1);
      assert Bit(b, 8 * 1 + 2) == BitOf(b[1], 2) && Bit(b, 8 * 1 + 3) == BitOf(b[1], 3);
    }
  }

  lemma NextSix(b: bytes)
    requires |b| > 1
    ensures SixBits(b, 12) == b[1] as int % 16 * 4 + if |b| > 2 then b[2] as int / 64 else 0
    ensures |b| > 2 ==> SixBits(b, 18) == b[2] as int % 64
  {
    BitsOfByte(b, 1);
    ByteBits(b[1]);
    if |b| > 2 {
      BitsOfByte(b, 2);
      ByteBits(b[2]);
    } else {
      NoMoreBits(b, 16);
      NoMoreBits(b, 17);
    }
    hide Bit, BitOf;
    assert Bit(b, 8 * 1 + 4) == BitOf(b[1], 4) && Bit(b, 8 * 1 + 5) == BitOf(b[1], 5);
    assert Bit(b, 8 * 1 + 6) == BitOf(b[1], 6) && Bit(b, 8 * 1 + 7) == BitOf(b[1], 7);
    if |b| > 2 {
      assert Bit(b, 8 * 2 + 0) == BitOf(b[2], 0) && Bit(b, 8 * 2 + 1) == BitOf(b[2], 1) && Bit(b, 8 * 2 + 2) == BitOf(b[2], 2);
      assert Bit(b, 8 * 2 + 3) == BitOf(b[2], 3) && Bit(b, 8 * 2 + 4) == BitOf(b[2], 4) && Bit(b, 8 * 2 + 5) == BitOf(b[2], 5);
      assert Bit(b, 8 * 2 + 6) == BitOf(b[2], 6) && Bit(b, 8 * 2 + 7) == BitOf(b[2], 7);
    }
  }

  /** Each sextet holds the next six bits, and there are as many as it takes. */
  lemma {:induction false} SextetsAreBits(b: bytes, i: nat)
    ensures |Sextets(b)| == (8 * |b| + 5) / 6
    ensures i < |Sextets(b)| ==> Sextets(b)[i] as int == SixBits(b, 6 * i)
    decreases |b|
  {
    hide SixBits;
    if b != [] {
      FirstSix(b);
    }
    if |b| > 1 {
      NextSix(b);
    }
    if |b| >= 3 {
      SextetsAreBits(b[3..], if i >= 4 then i - 4 else 0);
      if i >= 4 {
        SixAfter(b, 6 * (i - 4));
        assert 6 * (i - 4) + 24 == 6 * i;
      }
    }
  }

  lemma SixAfter(b: bytes, k: nat)
    requires |b| >= 3
    ensures SixBits(b, k + 24) == SixBits(b[3..], k)
  {
    hide Bit;
    BitsAfter(b, k);
    BitsAfter(b, k + 1);
    BitsAfter(b, k + 2);
    BitsAfter(b, k + 3);
    BitsAfter(b, k + 4);
    BitsAfter(b, k + 5);
  }

  /** What is written is the bits of the input, six by six, as A to Z, a to z, 0 to 9, - and _, without padding. */
  lemma Base64SpellsBits(b: bytes, i: nat)
    requires i < |Encode64(b)|
    ensures |Encode64(b)| == (8 * |b| + 5) / 6
    ensures var v := SixBits(b, 6 * i);
            && 0 <= v < 64
            && Encode64(b)[i] as int == if v < 26 then 'A' as int + v
                                        else if v < 52 then 'a' as int + (v - 26)
                                        else if v < 62 then '0' as int + (v - 52)
                                        else if v == 62 then '-' as int else '_' as int
  {
    SextetsAreBits(b, i);
    hide SixBits, Sextets;
  }

  predicate LineBreak(c: byte) {
    c == 10 || c == 13
  }

  function Unbroken(s: bytes): bytes {
    if s == [] then [] else (if LineBreak(s[0]) then [] else [s[0]]) + Unbroken(s[1..])
  }

  /** A letter, a digit, - or _. */
  predicate UrlSafe(c: byte) {
    'A' as int <= c <= 'Z' as int || 'a' as int <= c <= 'z' as int || '0' as int <= c <= '9' as int || c == '-' as int || c == '_' as int
  }

  lemma {:induction false} ReadsExactlyWhen(s: bytes)
    ensures Read(s).Some? <==> forall i :: 0 <= i < |s| ==> LineBreak(s[i]) || UrlSafe(s[i])
    ensures Read(s).Some? ==> |Read(s).value| == |Unbroken(s)|
    decreases |s|
  {
    if s != [] {
      ReadsExactlyWhen(s[1..]);
      assert forall i :: 1 <= i < |s| ==> s[1..][i - 1] == s[i];
    }
  }

  lemma {:induction false} UnpacksExactlyWhen(v: seq<sextet>)
    ensures Unpack(v).Some? <==> |v| % 4 != 1
    ensures Unpack(v).Some? ==> |Unpack(v).value| == |v| * 6 / 8
    decreases |v|
  {
    if |v| >= 4 {
      UnpacksExactlyWhen(v[4..]);
      assert |v| == |v[4..]| + 4;
    }
  }

  /** What can be decoded: symbols of the alphabet, line breaks anywhere among them, and not one symbol left over. */
  lemma Base64DecodesExactlyWhen(s: bytes)
    ensures Decode64(s).Some? <==> (forall i :: 0 <= i < |s| ==> LineBreak(s[i]) || UrlSafe(s[i])) && |Unbroken(s)| % 4 != 1
    ensures Decode64(s).Some? ==> |Decode64(s).value| == |Unbroken(s)| * 6 / 8
  {
    ReadsExactlyWhen(s);
    if Read(s).Some? {
      UnpacksExactlyWhen(Read(s).value);
    }
  }

  // ---------------------------------------------------------------- decimal numbers

  const MIN := -0x8000_0000_0000_0000
  const MAX := 0x7fff_ffff_ffff_ffff

  function PrintNat(n: nat): (s: bytes)
    ensures |s| > 0 && forall i :: 0 <= i < |s| ==> 48 <= s[i] <= 57
  {
    if n < 10 then [48 + n] else PrintNat(n / 10) + [48 + n % 10]
  }

  /** strconv.FormatInt, base 10. */
  function Print(n: int): bytes {
    if n < 0 then [45] + PrintNat(-n) else PrintNat(n)
  }

  function ParseNat(s: bytes): Option<nat> {
    if s == [] then Some(0)
    else
      var init := ParseNat(s[..|s| - 1]);
      var d := s[|s| - 1];
      if init.None? || d < 48 || d > 57 then None else Some(init.value * 10 + (d - 48))
  }

  /** strconv.ParseInt, base 10 and 64 bits: a sign, at least one digit, and in range. */
  function Parse(s: bytes): Option<int> {
    var signed := s != [] && (s[0] == 45 || s[0] == 43);
    var digits := if signed then s[1..] else s;
    if digits == [] || ParseNat(digits).None? then None
    else
      var v: int := ParseNat(digits).value;
      var n := if signed && s[0] == 45 then -v else v;
      if MIN <= n <= MAX then Some(n) else None
  }

  lemma {:induction false} NatRoundTrip(n: nat)
    ensures ParseNat(PrintNat(n)) == Some(n)
  {
    if n >= 10 {
      NatRoundTrip(n / 10);
      var s := PrintNat(n);
      assert s[..|s| - 1] == PrintNat(n / 10);
    } else {
      assert PrintNat(n)[..0] == [];
    }
  }

  /** Digits are read in base ten, and a number is written without leading zeros. */
  lemma {:induction false} NumbersAreDecimal(s: bytes, d: nat, n: nat)
    requires d < 10 && ParseNat(s).Some?
    ensures ParseNat(s + [48 + d]) == Some(ParseNat(s).value * 10 + d) && ParseNat([]) == Some(0)
    ensures PrintNat(n)[0] == 48 ==> n == 0
    ensures n > 0 ==> Print(0 - n) == [45] + PrintNat(n)
  {
    assert (s + [48 + d])[..|s|] == s;
    if n >= 10 {
      NumbersAreDecimal(s, d, n / 10);
    }
  }

  lemma DigitsAreUnsigned(s: bytes)
    requires s != [] && 48 <= s[0] <= 57 && ParseNat(s).Some?
    ensures Parse(s) == if ParseNat(s).value <= MAX then Some(ParseNat(s).value) else None
    ensures Parse([45] + s) == if ParseNat(s).value <= MAX + 1 then Some(0 - ParseNat(s).value) else None
  {
    hide ParseNat;
    assert ([45] + s)[1..] == s;
  }

  lemma NumberRoundTrip(n: int)
    requires MIN <= n <= MAX
    ensures Parse(Print(n)) == Some(n)
    ensures NUL !in Print(n)
  {
    hide Parse, ParseNat, PrintNat;
    var m := if n < 0 then -n else n;
    NatRoundTrip(m);
    DigitsAreUnsigned(PrintNat(m));
    assert NUL !in PrintNat(m);
  }

  // ---------------------------------------------------------------- joining and splitting

  /** The first place of c, or |s|. */
  function Index(s: bytes, c: byte): (k: nat)
    ensures k <= |s| && (k < |s| ==> s[k] == c) && forall i :: 0 <= i < k ==> s[i] != c
  {
    if s == [] || s[0] == c then 0 else 1 + Index(s[1..], c)
  }

  lemma IndexIs(s: bytes, c: byte, k: nat)
    requires k < |s| && s[k] == c && forall i :: 0 <= i < k ==> s[i] != c
    ensures Index(s, c) == k
  {
    hide Index;
    var j := Index(s, c);
  }

  function Join(fields: seq<bytes>): bytes
    requires fields != []
  {
    if |fields| == 1 then fields[0] else fields[0] + [NUL] + Join(fields[1..])
  }

  function Split(s: bytes): (fields: seq<bytes>)
    ensures fields != []
    decreases |s|
  {
    var k := Index(s, NUL);
    if k == |s| then [s] else [s[..k]] + Split(s[k + 1..])
  }

  function Nuls(s: bytes): nat {
    if s == [] then 0 else Nuls(s[1..]) + if s[0] == NUL then 1 else 0
  }

  lemma {:induction false} NulsAdd(a: bytes, b: bytes)
    ensures Nuls(a + b) == Nuls(a) + Nuls(b)
    decreases |a|
  {
    if a == [] {
      assert a + b == b;
    } else {
      NulsAdd(a[1..], b);
      assert (a + b)[1..] == a[1..] + b;
    }
  }

  lemma {:induction false} NulsZero(s: bytes)
    ensures Nuls(s) == 0 <==> NUL !in s
    decreases |s|
  {
    if s != [] {
      NulsZero(s[1..]);
      assert s == [s[0]] + s[1..];
    }
  }

  lemma {:induction false} SplitCount(s: bytes)
    ensures |Split(s)| == Nuls(s) + 1
    decreases |s|
  {
    var k := Index(s, NUL);
    NulsZero(s[..k]);
    NulsAdd(s[..k], s[k..]);
    assert s == s[..k] + s[k..];
    if k == |s| {
      assert s[k..] == [];
    } else {
      SplitCount(s[k + 1..]);
      assert s[k..][1..] == s[k + 1..];
    }
  }

  lemma {:induction false} SplitJoined(fields: seq<bytes>)
    requires fields != [] && forall i :: 0 <= i < |fields| ==> NUL !in fields[i]
    ensures Split(Join(fields)) == fields
    decreases |fields|
  {
    hide Split;
    if |fields| == 1 {
      SplitWhole(fields[0]);
    } else {
      SplitFirst(fields[0], Join(fields[1..]));
      SplitJoined(fields[1..]);
      assert fields == [fields[0]] + fields[1..];
    }
  }

  lemma SplitWhole(a: bytes)
    requires NUL !in a
    ensures Split(a) == [a]
  {
    hide Index;
    assert Index(a, NUL) == |a|;
  }

  lemma SplitFirst(a: bytes, b: bytes)
    requires NUL !in a
    ensures Split(a + [NUL] + b) == [a] + Split(b)
  {
    hide Index;
    var s := a + [NUL] + b;
    IndexIs(s, NUL, |a|);
    assert s[..|a|] == a && s[|a| + 1..] == b;
  }

  lemma {:induction false} JoinSplit(s: bytes)
    ensures Join(Split(s)) == s
    decreases |s|
  {
    hide Index;
    var k := Index(s, NUL);
    if k < |s| {
      JoinSplit(s[k + 1..]);
      JoinFirst(s[..k], Split(s[k + 1..]));
      assert s == s[..k] + [NUL] + s[k + 1..];
    }
  }

  lemma JoinFirst(a: bytes, fields: seq<bytes>)
    requires fields != []
    ensures Join([a] + fields) == a + [NUL] + Join(fields)
  {
    assert ([a] + fields)[1..] == fields;
  }

  // ---------------------------------------------------------------- the codec

  type Sign = bytes -> bytes

  /** The expiry, in whole seconds, of a value made at a time in nanoseconds. */
  function Expiry(nowNs: int): int {
    (nowNs + TTL_SECONDS * NS) / NS
  }

  function Payload(f: Fields, expiry: int): bytes {
    Join([f.state, f.verifier, f.returnTo, Print(expiry)])
  }

  function Encode(sign: Sign, f: Fields, nowNs: int): bytes {
    var payload := Payload(f, Expiry(nowNs));
    Encode64(payload) + [DOT] + Encode64(sign(payload))
  }

  function DecodePayload(payload: bytes, nowNs: int): Option<Fields> {
    var fields := Split(payload);
    if |fields| != 4 then None
    else
      var expiry := Parse(fields[3]);
      if expiry.None? || nowNs >= expiry.value * NS then None
      else Some(Fields(fields[0], fields[1], fields[2]))
  }

  /** Decode; None is ErrStateInvalid. */
  function Decode(sign: Sign, s: bytes, nowNs: int): Option<Fields> {
    var dot := Index(s, DOT);
    if dot == |s| then None
    else
      var payload := Decode64(s[..dot]);
      var sig := Decode64(s[dot + 1..]);
      if payload.None? || sig.None? || sig.value != sign(payload.value) then None
      else DecodePayload(payload.value, nowNs)
  }

  ghost predicate NoNul(f: Fields) {
    NUL !in f.state && NUL !in f.verifier && NUL !in f.returnTo
  }

  lemma JoinFour(a: bytes, b: bytes, c: bytes, d: bytes)
    ensures Join([a, b, c, d]) == a + [NUL] + (b + [NUL] + (c + [NUL] + d))
  {
    var l := [a, b, c, d];
    assert l[1..] == [b, c, d] && [b, c, d][1..] == [c, d] && [c, d][1..] == [d];
    assert Join([d]) == d && Join([c, d]) == c + [NUL] + Join([d]);
    assert Join([b, c, d]) == b + [NUL] + Join([c, d]);
  }

  lemma FourNuls(a: bytes, b: bytes, c: bytes, d: bytes)
    ensures Nuls(Join([a, b, c, d])) == Nuls(a) + Nuls(b) + Nuls(c) + Nuls(d) + 3
  {
    JoinFour(a, b, c, d);
    var cd := c + [NUL] + d;
    var bcd := b + [NUL] + cd;
    NulsAdd(c + [NUL], d);
    NulsAdd(c, [NUL]);
    NulsAdd(b + [NUL], cd);
    NulsAdd(b, [NUL]);
    NulsAdd(a + [NUL], bcd);
    NulsAdd(a, [NUL]);
    assert Nuls([NUL]) == 1;
  }

  lemma PayloadRoundTrip(f: Fields, expiry: int, nowNs: int)
    requires MIN <= expiry <= MAX
    ensures DecodePayload(Payload(f, expiry), nowNs) == if NoNul(f) && nowNs < expiry * NS then Some(f) else None
  {
    hide Parse, Print, Join, Split, Index;
    var d := Print(expiry);
    NumberRoundTrip(expiry);
    var fields := [f.state, f.verifier, f.returnTo, d];
    if NoNul(f) {
      SplitJoined(fields);
    } else {
      FourNuls(f.state, f.verifier, f.returnTo, d);
      SplitCount(Join(fields));
      NulsZero(f.state);
      NulsZero(f.verifier);
      NulsZero(f.returnTo);
    }
  }

  /** What the dot separates is what was put on its two sides. */
  lemma CutAtDot(a: bytes, b: bytes)
    requires DOT !in a
    ensures var s := a + [DOT] + b; Index(s, DOT) == |a| && s[..|a|] == a && s[|a| + 1..] == b && |a| < |s|
  {
    IndexIs(a + [DOT] + b, DOT, |a|);
  }

  /**
   Decoding an encoded value gives the same three fields back if none holds a NUL and the
   expiry, five minutes on in whole seconds, has not been reached; otherwise it fails.
   */
  lemma RoundTripExactlyWhen(sign: Sign, f: Fields, madeNs: int, nowNs: int)
    requires MIN <= Expiry(madeNs) <= MAX
    ensures Decode(sign, Encode(sign, f, madeNs), nowNs) == if NoNul(f) && nowNs < Expiry(madeNs) * NS then Some(f) else None
  {
    hide Encode64, Decode64, Index, Payload, DecodePayload;
    var payload := Payload(f, Expiry(madeNs));
    Base64RoundTrip(payload);
    Base64RoundTrip(sign(payload));
    CutAtDot(Encode64(payload), Encode64(sign(payload)));
    PayloadRoundTrip(f, Expiry(madeNs), nowNs);
  }

  /** The form of an encoded value: the payload, a dot, and the payload's signature. */
  lemma EncodedForm(sign: Sign, f: Fields, madeNs: int)
    ensures var payload := f.state + [0] + (f.verifier + [0] + (f.returnTo + [0] + Print(Expiry(madeNs))));
            Encode(sign, f, madeNs) == Encode64(payload) + [46] + Encode64(sign(payload))
  {
    JoinFour(f.state, f.verifier, f.returnTo, Print(Expiry(madeNs)));
    hide Encode64, Print, Join;
  }

  /** A value lives for at most five minutes, and for more than five minutes less a second. */
  lemma LivesFiveMinutes(madeNs: int)
    ensures madeNs + 299 * 1_000_000_000 < Expiry(madeNs) * 1_000_000_000 <= madeNs + 300 * 1_000_000_000
  {
  }

  /** What is accepted was signed: a payload of exactly these fields and an expiry still ahead. */
  lemma AcceptedIsSigned(sign: Sign, s: bytes, nowNs: int)
    requires Decode(sign, s, nowNs).Some?
    ensures var dot := Index(s, DOT); var f := Decode(sign, s, nowNs).value;
            && dot < |s| && NoNul(f)
            && exists payload, expiry: bytes ::
                 && Decode64(s[..dot]) == Some(payload) && Decode64(s[dot + 1..]) == Some(sign(payload))
                 && payload == f.state + [0] + (f.verifier + [0] + (f.returnTo + [0] + expiry))
                 && Parse(expiry).Some? && nowNs < Parse(expiry).value * 1_000_000_000
  {
    hide Decode64, DecodePayload, Index, Join, Parse;
    var dot := Index(s, DOT);
    var payload := Decode64(s[..dot]).value;
    var expiry := PayloadIsFields(payload, nowNs);
    var f := Decode(sign, s, nowNs).value;
    assert Decode64(s[..dot]) == Some(payload) && Decode64(s[dot + 1..]) == Some(sign(payload));
  }

  lemma PayloadIsFields(payload: bytes, nowNs: int) returns (expiry: bytes)
    requires DecodePayload(payload, nowNs).Some?
    ensures var f := DecodePayload(payload, nowNs).value;
            && NoNul(f) && payload == f.state + [0] + (f.verifier + [0] + (f.returnTo + [0] + expiry))
            && Parse(expiry).Some? && nowNs < Parse(expiry).value * 1_000_000_000
  {
    hide Join, Split, Parse;
    var fields := Split(payload);
    JoinSplit(payload);
    SplitHasNoNul(payload);
    assert fields == [fields[0], fields[1], fields[2], fields[3]];
    expiry := fields[3];
    JoinFour(fields[0], fields[1], fields[2], expiry);
  }

  lemma {:induction false} SplitHasNoNul(s: bytes)
    ensures forall i :: 0 <= i < |Split(s)| ==> NUL !in Split(s)[i]
    decreases |s|
  {
    var k := Index(s, NUL);
    if k < |s| {
      SplitHasNoNul(s[k + 1..]);
    }
  }
}
