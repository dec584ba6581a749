/**
 * Strict base64: base64url without padding, and the padded standard form older records carry. The
 * alphabets are those of RFC 4648 sections 4 and 5; the stray-bit rule is that of its section 3.5.
 */
module Base64 {
  import opened Events

  type byte = x: int | 0 <= x < 256

  type sextet = x: int | 0 <= x < 64

  datatype Alphabet = Url | Standard

  // ----- characters -----

  /** The alphabet, each character at the place of the value it stands for. */
  ghost function Letters(a: Alphabet): string {
    "ABCDEFGHIJKLMNOPQRSTUVWXYZ" + "abcdefghijklmnopqrstuvwxyz" + "0123456789" + if a == Url then "-_" else "+/"
  }

  function CharOf(v: sextet, a: Alphabet): char {
    if v < 26 then (65 + v) as char
    else if v < 52 then (97 + v - 26) as char
    else if v < 62 then (48 + v - 52) as char
    else if v == 62 then (if a == Url then '-' else '+')
    else (if a == Url then '_' else '/')
  }

  function ValueOf(c: char, a: Alphabet): Option<sextet> {
    if 'A' <= c <= 'Z' then Some(c as int - 65)
    else if 'a' <= c <= 'z' then Some(c as int - 97 + 26)
    else if '0' <= c <= '9' then Some(c as int - 48 + 52)
    else if c == (if a == Url then '-' else '+') then Some(62)
    else if c == (if a == Url then '_' else '/') then Some(63)
    else None
  }

  lemma CharsInverse(a: Alphabet)
    ensures forall v: sextet :: ValueOf(CharOf(v, a), a) == Some(v)
    ensures forall c :: ValueOf(c, a).Some? ==> CharOf(ValueOf(c, a).value, a) == c && c != '='
  {
  }

  /** Each value has the character at its place of the alphabet, and no other character has a value. */
  lemma PlaceInAlphabet(a: Alphabet)
    ensures |Letters(a)| == 64
    ensures forall v: sextet :: CharOf(v, a) == Letters(a)[v]
    ensures forall c, v: sextet :: ValueOf(c, a) == Some(v) <==> c == Letters(a)[v]
    ensures forall c :: ValueOf(c, a).None? <==> c !in Letters(a)
  {
    forall v: sextet
      ensures CharOf(v, a) == Letters(a)[v]
    {
      CharAtPlace(v, a);
    }
    CharsInverse(a);
    hide CharOf, ValueOf, Letters;
    forall c
      ensures ValueOf(c, a).None? <==> c !in Letters(a)
    {
      if c in Letters(a) {
        var v :| 0 <= v < 64 && Letters(a)[v] == c;
        assert ValueOf(CharOf(v, a), a) == Some(v);
      }
      if ValueOf(c, a).Some? {
        assert c == Letters(a)[ValueOf(c, a).value];
      }
    }
  }

  lemma CharAtPlace(v: sextet, a: Alphabet)
    ensures |Letters(a)| == 64 && CharOf(v, a) == Letters(a)[v]
  {
    var upper, lower, digits := "ABCDEFGHIJKLMNOPQRSTUVWXYZ", "abcdefghijklmnopqrstuvwxyz", "0123456789";
    if v < 26 {
      assert Letters(a)[v] == upper[v];
    } else if v < 52 {
      assert Letters(a)[v] == lower[v - 26];
    } else if v < 62 {
      assert Letters(a)[v] == digits[v - 52];
    }
  }

  predicate InAlphabet(s: string, a: Alphabet) {
    forall i :: 0 <= i < |s| ==> ValueOf(s[i], a).Some?
  }

  function Chars(q: seq<sextet>, a: Alphabet): (s: string)
    ensures |s| == |q|
  {
    seq(|q|, i requires 0 <= i < |q| => CharOf(q[i], a))
  }

  function Values(s: string, a: Alphabet): (q: seq<sextet>)
    requires InAlphabet(s, a)
    ensures |q| == |s|
  {
    seq(|s|, i requires 0 <= i < |s| => ValueOf(s[i], a).value)
  }

  lemma CharsOfValues(s: string, a: Alphabet)
    requires InAlphabet(s, a)
    ensures Chars(Values(s, a), a) == s
    ensures forall i :: 0 <= i < |s| ==> s[i] != '='
  {
    CharsInverse(a);
  }

  lemma ValuesOfChars(q: seq<sextet>, a: Alphabet)
    ensures InAlphabet(Chars(q, a), a) && Values(Chars(q, a), a) == q
  {
    CharsInverse(a);
  }

  // ----- octets and sextets -----

  /** Three octets to four sextets; one or two octets left over to two or three. */
  function Sextets(raw: seq<byte>): seq<sextet> {
    if |raw| == 0 then
      []
    else if |raw| == 1 then
      [raw[0] / 4, raw[0] % 4 * 16]
    else if |raw| == 2 then
      [raw[0] / 4, raw[0] % 4 * 16 + raw[1] / 16, raw[1] % 16 * 4]
    else
      Group(raw[0], raw[1], raw[2]) + Sextets(raw[3..])
  }

  function Group(b0: byte, b1: byte, b2: byte): (g: seq<sextet>)
    ensures |g| == 4
  {
    [b0 / 4, b0 % 4 * 16 + b1 / 16, b1 % 16 * 4 + b2 / 64, b2 % 64]
  }

  /** The octets of a run of sextets; the bits of a last one that fill no octet are dropped. */
  function Octets(q: seq<sextet>): seq<byte> {
    if |q| < 2 then
      []
    else if |q| == 2 then
      [First(q[0], q[1])]
    else if |q| == 3 then
      [First(q[0], q[1]), Second(q[1], q[2])]
    else
      Ungroup(q[0], q[1], q[2], q[3]) + Octets(q[4..])
  }

  function Ungroup(s0: sextet, s1: sextet, s2: sextet, s3: sextet): (u: seq<byte>)
    ensures |u| == 3
  {
    [First(s0, s1), Second(s1, s2), Third(s2, s3)]
  }

  function First(s0: sextet, s1: sextet): byte {
    var high: int := s0;
    high * 4 + s1 / 16
  }

  function Second(s1: sextet, s2: sextet): byte {
    var high: int := s1;
    high % 16 * 16 + s2 / 4
  }

  function Third(s2: sextet, s3: sextet): byte {
    var high: int := s2;
    high % 4 * 64 + s3
  }

  lemma Shares(s0: sextet, s1: sextet, s2: sextet, s3: sextet)
    ensures First(s0, s1) / 4 == s0 && First(s0, s1) % 4 == s1 / 16
    ensures Second(s1, s2) / 16 == s1 % 16 && Second(s1, s2) % 16 == s2 / 4
    ensures Third(s2, s3) / 64 == s2 % 4 && Third(s2, s3) % 64 == s3
  {
  }

  lemma GroupInverts(b0: byte, b1: byte, b2: byte)
    ensures var g := Group(b0, b1, b2); |g| == 4 && Ungroup(g[0], g[1], g[2], g[3]) == [b0, b1, b2]
  {
    assert First(b0 / 4, b0 % 4 * 16 + b1 / 16) == b0;
    assert Second(b0 % 4 * 16 + b1 / 16, b1 % 16 * 4 + b2 / 64) == b1;
    assert Third(b1 % 16 * 4 + b2 / 64, b2 % 64) == b2;
    hide First, Second, Third;
  }

  lemma UngroupInverts(s0: sextet, s1: sextet, s2: sextet, s3: sextet)
    ensures var u := Ungroup(s0, s1, s2, s3); |u| == 3 && Group(u[0], u[1], u[2]) == [s0, s1, s2, s3]
  {
    Shares(s0, s1, s2, s3);
    hide First, Second, Third;
  }

  lemma {:induction false} OctetsOfSextets(raw: seq<byte>)
    ensures Octets(Sextets(raw)) == raw
  {
    if |raw| >= 3 {
      hide Group, Ungroup;
      var g, rest := Group(raw[0], raw[1], raw[2]), Sextets(raw[3..]);
      GroupInverts(raw[0], raw[1], raw[2]);
      OctetsOfSextets(raw[3..]);
      assert (g + rest)[4..] == rest;
      assert raw == [raw[0], raw[1], raw[2]] + raw[3..];
    }
  }

  /** The last sextet has no bit that fills no octet. */
  predicate NoStrayBits(q: seq<sextet>) {
    && (|q| % 4 == 2 ==> q[|q| - 1] % 16 == 0)
    && (|q| % 4 == 3 ==> q[|q| - 1] % 4 == 0)
  }

  /** A run of a possible length comes back exactly when it has no stray bits. */
  lemma {:induction false} SextetsOfOctets(q: seq<sextet>)
    requires |q| % 4 != 1
    ensures Sextets(Octets(q)) == q <==> NoStrayBits(q)
  {
    hide Octets, Sextets, NoStrayBits;
    if |q| >= 4 {
      MoreComeBack(q);
      TailBits(q);
      SextetsOfOctets(q[4..]);
      SameTail(q[..4], Sextets(Octets(q[4..])), q[4..]);
      assert q == q[..4] + q[4..];
    } else if |q| == 3 {
      ThreeComeBack(q);
    } else if |q| == 2 {
      TwoComeBack(q);
    } else {
      NoneComeBack(q);
    }
  }

  lemma NoneComeBack(q: seq<sextet>)
    requires |q| == 0
    ensures Sextets(Octets(q)) == q <==> NoStrayBits(q)
  {
    assert q == [];
  }

  lemma TailBits(q: seq<sextet>)
    requires |q| >= 4 && |q| % 4 != 1
    ensures NoStrayBits(q) <==> NoStrayBits(q[4..])
  {
    assert |q[4..]| % 4 == |q| % 4;
  }

  lemma MoreComeBack(q: seq<sextet>)
    requires |q| >= 4
    ensures Sextets(Octets(q)) == q[..4] + Sextets(Octets(q[4..]))
  {
    hide Group, Ungroup, Sextets, First, Second, Third;
    var u, rest := Ungroup(q[0], q[1], q[2], q[3]), Octets(q[4..]);
    assert Octets(q) == u + rest;
    hide Octets;
    UngroupInverts(q[0], q[1], q[2], q[3]);
    LeadingGroup(u, rest);
    assert q[..4] == [q[0], q[1], q[2], q[3]];
  }

  lemma LeadingGroup(u: seq<byte>, rest: seq<byte>)
    requires |u| == 3
    ensures Sextets(u + rest) == Group(u[0], u[1], u[2]) + Sextets(rest)
  {
    hide Group;
    assert (u + rest)[3..] == rest;
  }

  lemma SameTail(a: seq<sextet>, b: seq<sextet>, c: seq<sextet>)
    ensures a + b == a + c <==> b == c
  {
    assert (a + b)[|a|..] == b && (a + c)[|a|..] == c;
  }

  lemma Floor(x: sextet)
    ensures x / 16 * 16 == x <==> x % 16 == 0
    ensures x / 4 * 4 == x <==> x % 4 == 0
  {
  }

  lemma OneOctet(b: byte)
    ensures Sextets([b]) == [b / 4, b % 4 * 16]
  {
  }

  lemma TwoOctets(b: byte, c: byte)
    ensures Sextets([b, c]) == [b / 4, b % 4 * 16 + c / 16, c % 16 * 4]
  {
  }

  lemma TwoComeBack(q: seq<sextet>)
    requires |q| == 2
    ensures Sextets(Octets(q)) == q <==> NoStrayBits(q)
  {
    assert Octets(q) == [First(q[0], q[1])];
    hide Octets, First, Sextets;
    Shares(q[0], q[1], 0, 0);
    OneOctet(First(q[0], q[1]));
    Floor(q[1]);
    var x := q[1] / 16 * 16;
    assert Sextets(Octets(q)) == [q[0], x];
    assert q == [q[0], q[1]];
  }

  lemma ThreeComeBack(q: seq<sextet>)
    requires |q| == 3
    ensures Sextets(Octets(q)) == q <==> NoStrayBits(q)
  {
    assert Octets(q) == [First(q[0], q[1]), Second(q[1], q[2])];
    hide Octets, First, Second, Sextets;
    ThreeSextets(q[0], q[1], q[2]);
    Floor(q[2]);
    assert q == [q[0], q[1], q[2]];
  }

  lemma ThreeSextets(s0: sextet, s1: sextet, s2: sextet)
    ensures Sextets([First(s0, s1), Second(s1, s2)]) == [s0, s1, s2 / 4 * 4]
  {
    var b, c := First(s0, s1), Second(s1, s2);
    Shares(s0, s1, s2, 0);
    hide First, Second;
    TwoOctets(b, c);
    hide Sextets;
    Joins(b, c, s1);
  }

  lemma Joins(b: byte, c: byte, s1: sextet)
    requires b % 4 == s1 / 16 && c / 16 == s1 % 16
    ensures b % 4 * 16 + c / 16 == s1
  {
  }

  // ----- the bits -----

  /** The octets at `3i`, read as one number of 24 bits, most significant first, and zero past the end. */
  function OctetBits(raw: seq<byte>, i: nat): int {
    OfOctets(OctetAt(raw, 3 * i), OctetAt(raw, 3 * i + 1), OctetAt(raw, 3 * i + 2))
  }

  function OfOctets(b0: int, b1: int, b2: int): int {
    (b0 * 256 + b1) * 256 + b2
  }

  function OctetAt(raw: seq<byte>, k: nat): byte {
    if k < |raw| then raw[k] else 0
  }

  /** The sextets at `4i`, read the same way. */
  function SextetBits(q: seq<sextet>, i: nat): int {
    OfSextets(SextetAt(q, 4 * i), SextetAt(q, 4 * i + 1), SextetAt(q, 4 * i + 2), SextetAt(q, 4 * i + 3))
  }

  function OfSextets(s0: int, s1: int, s2: int, s3: int): int {
    ((s0 * 64 + s1) * 64 + s2) * 64 + s3
  }

  function SextetAt(q: seq<sextet>, k: nat): sextet {
    if k < |q| then q[k] else 0
  }

  /** The sextets are the octets' own bits in their order, as many as it takes, filled up with zeros. */
  ghost predicate SameBits(raw: seq<byte>, q: seq<sextet>) {
    && |q| == (4 * |raw| + 2) / 3
    && forall i: nat :: SextetBits(q, i) == OctetBits(raw, i)
  }

  lemma GroupBits(b0: byte, b1: byte, b2: byte)
    ensures var g := Group(b0, b1, b2);
            OfSextets(g[0], g[1], g[2], g[3]) == OfOctets(b0, b1, b2)
  {
  }

  lemma {:induction false} SextetsKeepBits(raw: seq<byte>)
    ensures SameBits(raw, Sextets(raw))
  {
    if |raw| >= 3 {
      SextetsKeepBits(raw[3..]);
      assert Sextets(raw) == Group(raw[0], raw[1], raw[2]) + Sextets(raw[3..]);
      GroupBits(raw[0], raw[1], raw[2]);
      MoreBits(raw, Sextets(raw), Sextets(raw[3..]));
    } else {
      FewSextets(raw);
      forall i: nat
        ensures SextetBits(Sextets(raw), i) == OctetBits(raw, i)
      {
        FewBits(raw, i);
      }
    }
  }

  /** One or two octets at the end: their bits with zeros after them. */
  lemma LastBits(b0: byte, b1: byte)
    ensures OfSextets(b0 / 4, b0 % 4 * 16, 0, 0) == OfOctets(b0, 0, 0)
    ensures OfSextets(b0 / 4, b0 % 4 * 16 + b1 / 16, b1 % 16 * 4, 0) == OfOctets(b0, b1, 0)
  {
  }

  lemma FewBits(raw: seq<byte>, i: nat)
    requires |raw| < 3
    ensures SextetBits(Sextets(raw), i) == OctetBits(raw, i)
  {
    hide SextetBits, OctetBits, Sextets;
    if i > 0 || |raw| == 0 {
      FewSextets(raw);
      PastTheEnd(raw, Sextets(raw), i);
    } else if |raw| == 2 {
      TwoOctetBits(raw[0], raw[1]);
      assert raw == [raw[0], raw[1]];
    } else {
      OneOctetBits(raw[0]);
      assert raw == [raw[0]];
    }
  }

  lemma OneOctetBits(b: byte)
    ensures SextetBits(Sextets([b]), 0) == OctetBits([b], 0)
  {
    OneOctet(b);
    hide Sextets, OfSextets, OfOctets;
    LastBits(b, 0);
  }

  lemma TwoOctetBits(b: byte, c: byte)
    ensures SextetBits(Sextets([b, c]), 0) == OctetBits([b, c], 0)
  {
    TwoOctets(b, c);
    hide Sextets, OfSextets, OfOctets;
    LastBits(b, c);
  }

  lemma FewSextets(raw: seq<byte>)
    requires |raw| < 3
    ensures |Sextets(raw)| == (4 * |raw| + 2) / 3
  {
  }

  lemma PastTheEnd(raw: seq<byte>, q: seq<sextet>, i: nat)
    requires |raw| <= 3 * i && |q| <= 4 * i
    ensures SextetBits(q, i) == OctetBits(raw, i)
  {
  }

  lemma MoreBits(raw: seq<byte>, q: seq<sextet>, rest: seq<sextet>)
    requires |raw| >= 3 && |q| == 4 + |rest| && q[4..] == rest
    requires OfSextets(q[0], q[1], q[2], q[3]) == OfOctets(raw[0], raw[1], raw[2])
    requires SameBits(raw[3..], rest)
    ensures SameBits(raw, q)
  {
    hide OfSextets, OfOctets;
    forall i: nat
      ensures SextetBits(q, i) == OctetBits(raw, i)
    {
      if i > 0 {
        OctetsFurther(raw, i);
        SextetsFurther(q, i);
      }
    }
  }

  lemma OctetsFurther(raw: seq<byte>, i: nat)
    requires |raw| >= 3 && i > 0
    ensures OctetBits(raw, i) == OctetBits(raw[3..], i - 1)
  {
    hide OfOctets, OctetAt;
    OctetFurther(raw, 3 * i);
    OctetFurther(raw, 3 * i + 1);
    OctetFurther(raw, 3 * i + 2);
  }

  lemma OctetFurther(raw: seq<byte>, k: nat)
    requires 3 <= k && 3 <= |raw|
    ensures OctetAt(raw, k) == OctetAt(raw[3..], k - 3)
  {
  }

  lemma SextetsFurther(q: seq<sextet>, i: nat)
    requires |q| >= 4 && i > 0
    ensures SextetBits(q, i) == SextetBits(q[4..], i - 1)
  {
    hide OfSextets, SextetAt;
    SextetFurther(q, 4 * i);
    SextetFurther(q, 4 * i + 1);
    SextetFurther(q, 4 * i + 2);
    SextetFurther(q, 4 * i + 3);
  }

  lemma SextetFurther(q: seq<sextet>, k: nat)
    requires 4 <= k && 4 <= |q|
    ensures SextetAt(q, k) == SextetAt(q[4..], k - 4)
  {
  }

  /** The sextets of these bits are the only ones. */
  lemma BitsGiveSextets(raw: seq<byte>, q: seq<sextet>)
    ensures SameBits(raw, q) <==> q == Sextets(raw)
  {
    SextetsKeepBits(raw);
    var p := Sextets(raw);
    hide Sextets;
    if SameBits(raw, q) {
      forall k | 0 <= k < |q|
        ensures q[k] == p[k]
      {
        var i := k / 4;
        assert SextetBits(q, i) == OctetBits(raw, i) == SextetBits(p, i);
        SameDigits(q, p, i);
        assert k == 4 * i || k == 4 * i + 1 || k == 4 * i + 2 || k == 4 * i + 3;
      }
    }
  }

  lemma SameDigits(q: seq<sextet>, p: seq<sextet>, i: nat)
    requires SextetBits(q, i) == SextetBits(p, i)
    ensures SextetAt(q, 4 * i) == SextetAt(p, 4 * i) && SextetAt(q, 4 * i + 1) == SextetAt(p, 4 * i + 1)
    ensures SextetAt(q, 4 * i + 2) == SextetAt(p, 4 * i + 2) && SextetAt(q, 4 * i + 3) == SextetAt(p, 4 * i + 3)
  {
  }

  /** How many octets, how many sextets: the remainders that decide the padding. */
  lemma {:induction false} Lengths(raw: seq<byte>)
    ensures |Sextets(raw)| % 4 == (if |raw| % 3 == 0 then 0 else |raw| % 3 + 1)
    ensures Sextets(raw) == [] <==> raw == []
  {
    hide Sextets;
    if |raw| >= 3 {
      GroupLength(raw);
      Lengths(raw[3..]);
    } else {
      FewSextets(raw);
    }
  }

  lemma GroupLength(raw: seq<byte>)
    requires |raw| >= 3
    ensures |Sextets(raw)| == 4 + |Sextets(raw[3..])|
  {
    hide Group;
  }

  lemma {:induction false} OctetCount(q: seq<sextet>)
    requires |q| % 4 != 1
    ensures |Octets(q)| % 3 == (if |q| % 4 == 0 then 0 else |q| % 4 - 1)
  {
    hide First, Second, Third;
    if |q| >= 4 {
      UngroupLength(q);
      hide Octets;
      OctetCount(q[4..]);
    }
  }

  lemma UngroupLength(q: seq<sextet>)
    requires |q| >= 4
    ensures |Octets(q)| == 3 + |Octets(q[4..])|
  {
    hide Ungroup;
  }

  // ----- encoding and decoding -----

  function Pads(n: nat): string {
    if n % 3 == 1 then "==" else if n % 3 == 2 then "=" else ""
  }

  function Padded(raw: seq<byte>, a: Alphabet): string {
    Chars(Sextets(raw), a) + Pads(|raw|)
  }

  function Stripped(s: string): (r: string)
    ensures |r| <= |s|
  {
    if s != "" && s[|s| - 1] == '=' then Stripped(s[..|s| - 1]) else s
  }

  function EncodeUrl(raw: seq<byte>): string {
    Stripped(Padded(raw, Url))
  }

  /** Strict: in the alphabet, of a possible length, and equal to the encoding of what it decodes to. */
  function DecodeUrl(s: string): Option<seq<byte>> {
    if !InAlphabet(s, Url) || |s| % 4 == 1 then
      None
    else
      var raw := Octets(Values(s, Url));
      if EncodeUrl(raw) == s then Some(raw) else None
  }

  /** The padded standard form: at least one character, at most two of padding, a multiple of four in all. */
  function DecodeStandard(s: string): Option<seq<byte>> {
    var body := Stripped(s);
    if body == "" || !InAlphabet(body, Standard) || |s| - |body| > 2 || |s| % 4 != 0 then
      None
    else
      var raw := Octets(Values(body, Standard));
      if Padded(raw, Standard) == s then Some(raw) else None
  }

  lemma {:induction false} StripsPadding(s: string, pads: string)
    requires forall i :: 0 <= i < |s| ==> s[i] != '='
    requires pads == "" || pads == "=" || pads == "=="
    ensures Stripped(s + pads) == s
  {
    if pads == "" {
      assert s + pads == s;
    } else {
      assert (s + pads)[..|s + pads| - 1] == s + pads[..|pads| - 1];
      StripsPadding(s, pads[..|pads| - 1]);
    }
  }

  lemma StrippedPadded(raw: seq<byte>, a: Alphabet)
    ensures Stripped(Padded(raw, a)) == Chars(Sextets(raw), a)
  {
    ValuesOfChars(Sextets(raw), a);
    CharsOfValues(Chars(Sextets(raw), a), a);
    StripsPadding(Chars(Sextets(raw), a), Pads(|raw|));
  }

  /** An encoding writes the octets' bits, six by six, in the characters at their places of the alphabet. */
  lemma UrlWritesBits(raw: seq<byte>, s: string)
    ensures EncodeUrl(raw) == s <==> exists q :: SameBits(raw, q) && Written(q, Url, s)
  {
    WritesSextets(raw, Url, s);
    StrippedPadded(raw, Url);
  }

  /** The same characters, and as many `=` as make the length a multiple of four. */
  ghost predicate WrittenPadded(q: seq<sextet>, a: Alphabet, s: string) {
    && |q| <= |s| < |q| + 4 && |s| % 4 == 0
    && Written(q, a, s[..|q|])
    && forall i :: |q| <= i < |s| ==> s[i] == '='
  }

  lemma StandardWritesBits(raw: seq<byte>, s: string)
    ensures Padded(raw, Standard) == s <==> exists q :: SameBits(raw, q) && WrittenPadded(q, Standard, s)
  {
    var q := Sextets(raw);
    SextetsKeepBits(raw);
    PadsFill(raw);
    hide Sextets, Pads, SameBits, Written;
    if Padded(raw, Standard) == s {
      assert s[..|q|] == Chars(q, Standard);
      WrittenIsChars(q, Standard, s[..|q|]);
    }
    if p :| SameBits(raw, p) && WrittenPadded(p, Standard, s) {
      BitsGiveSextets(raw, p);
      WrittenIsChars(q, Standard, s[..|q|]);
      assert s == s[..|q|] + s[|q|..];
      assert s[|q|..] == Pads(|raw|);
    }
  }

  lemma WrittenIsChars(q: seq<sextet>, a: Alphabet, s: string)
    ensures Written(q, a, s) <==> s == Chars(q, a)
  {
    PlaceInAlphabet(a);
    hide Letters, CharOf;
  }

  lemma PadsFill(raw: seq<byte>)
    ensures |Pads(|raw|)| < 4 && (|Sextets(raw)| + |Pads(|raw|)|) % 4 == 0
    ensures forall i :: 0 <= i < |Pads(|raw|)| ==> Pads(|raw|)[i] == '='
  {
    Lengths(raw);
    hide Sextets;
  }

  /** Each sextet is written as the character at its place. */
  ghost predicate Written(q: seq<sextet>, a: Alphabet, s: string) {
    |Letters(a)| == 64 && |s| == |q| && forall k :: 0 <= k < |q| ==> s[k] == Letters(a)[q[k]]
  }

  lemma WritesSextets(raw: seq<byte>, a: Alphabet, s: string)
    ensures Chars(Sextets(raw), a) == s <==> exists q :: SameBits(raw, q) && Written(q, a, s)
  {
    SextetsKeepBits(raw);
    WrittenIsChars(Sextets(raw), a, s);
    hide Sextets, Chars, SameBits, Written;
    if p :| SameBits(raw, p) && Written(p, a, s) {
      BitsGiveSextets(raw, p);
    }
  }

  // ----- base64url -----

  /** Decoding any encoding gives the octets back. */
  lemma UrlRoundTrip(raw: seq<byte>)
    ensures DecodeUrl(EncodeUrl(raw)) == Some(raw)
  {
    hide Chars, Values, Sextets, Octets, Padded;
    StrippedPadded(raw, Url);
    ValuesOfChars(Sextets(raw), Url);
    OctetsOfSextets(raw);
    Lengths(raw);
  }

  /** Exactly the unpadded strings of the alphabet with no stray bits decode. */
  lemma UrlAccepts(s: string)
    ensures DecodeUrl(s).Some? <==> InAlphabet(s, Url) && |s| % 4 != 1 && NoStrayBits(Values(s, Url))
  {
    hide Chars, Values, Sextets, Octets, Padded, NoStrayBits;
    if InAlphabet(s, Url) && |s| % 4 != 1 {
      var q := Values(s, Url);
      StrippedPadded(Octets(q), Url);
      SextetsOfOctets(q);
      CharsOfValues(s, Url);
      ValuesOfChars(Sextets(Octets(q)), Url);
    }
  }

  /** Decoding is a bijection between the accepted strings and the octet strings, with encoding its inverse:
      what decodes encodes back to itself, so no two accepted strings share their octets. */
  lemma UrlBijection(s: string, t: string, raw: seq<byte>)
    ensures DecodeUrl(s) == Some(raw) <==> EncodeUrl(raw) == s
    ensures DecodeUrl(s).Some? && DecodeUrl(s) == DecodeUrl(t) ==> s == t
  {
    UrlRoundTrip(raw);
  }

  // ----- the padded standard form -----

  lemma {:induction false} StrippedIsPrefix(s: string)
    ensures s == Stripped(s) + s[|Stripped(s)|..]
    ensures forall i :: |Stripped(s)| <= i < |s| ==> s[i] == '='
  {
    if s != "" && s[|s| - 1] == '=' {
      StrippedIsPrefix(s[..|s| - 1]);
    }
  }

  lemma StandardRoundTrip(raw: seq<byte>)
    ensures DecodeStandard(Padded(raw, Standard)) == if raw == [] then None else Some(raw)
  {
    hide Chars, Values, Sextets, Octets;
    StrippedPadded(raw, Standard);
    ValuesOfChars(Sextets(raw), Standard);
    OctetsOfSextets(raw);
    Lengths(raw);
  }

  /** Exactly the padded strings with no stray bits decode; the empty string does not. */
  lemma StandardAccepts(s: string)
    ensures var body := Stripped(s);
            DecodeStandard(s).Some? <==>
              body != "" && InAlphabet(body, Standard) && |s| - |body| <= 2 && |s| % 4 == 0
              && NoStrayBits(Values(body, Standard))
  {
    hide Chars, Values, Sextets, Octets, NoStrayBits, Stripped;
    var body := Stripped(s);
    if body != "" && InAlphabet(body, Standard) && |s| - |body| <= 2 && |s| % 4 == 0 {
      var q := Values(body, Standard);
      StrippedIsPrefix(s);
      SextetsOfOctets(q);
      OctetCount(q);
      CharsOfValues(body, Standard);
      ValuesOfChars(Sextets(Octets(q)), Standard);
      StrippedPadded(Octets(q), Standard);
      assert s[|body|..] == Pads(|Octets(q)|);
    }
  }

  /** The padded form, for octets that are not none, is a bijection as well. */
  lemma StandardBijection(s: string, t: string, raw: seq<byte>)
    ensures raw != [] ==> (DecodeStandard(s) == Some(raw) <==> Padded(raw, Standard) == s)
    ensures DecodeStandard(s).Some? && DecodeStandard(s) == DecodeStandard(t) ==> s == t
  {
    StandardRoundTrip(raw);
  }
}
