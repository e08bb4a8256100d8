/**
 Base64url (section 5 of RFC 4648): the console's encoder and the server's
 hand-written decoder undo each other, and what 32 bytes encode to passes every
 PKCE format check. Strings are taken byte by byte. The decoder's shifts and ors
 combine disjoint bits, so they are written as sums.
 */
module Base64Url {
  import opened Wrappers
  import Pkce

  type Byte = x: int | 0 <= x < 256
  type Sextet = x: int | 0 <= x < 64

  // ── Alphabets ────────────────────────────────────────────────────────────

  /** The standard alphabet. */
  function Symbol(v: Sextet): char {
    if v < 26 then 'A' + v as char
    else if v < 52 then 'a' + (v - 26) as char
    else if v < 62 then '0' + (v - 52) as char
    else if v == 62 then '+' else '/'
  }

  function ToUrl(c: char): char { if c == '+' then '-' else if c == '/' then '_' else c }

  function ToStandard(c: char): char { if c == '-' then '+' else if c == '_' then '/' else c }

  /** The decode table; padding counts as zero. */
  function Value(c: char): Option<Sextet> {
    if 'A' <= c <= 'Z' then Some(c as int - 'A' as int)
    else if 'a' <= c <= 'z' then Some(c as int - 'a' as int + 26)
    else if '0' <= c <= '9' then Some(c as int - '0' as int + 52)
    else if c == '+' then Some(62)
    else if c == '/' then Some(63)
    else if c == '=' then Some(0)
    else None
  }

  lemma SymbolValue(v: Sextet)
    ensures Value(Symbol(v)) == Some(v) && Symbol(v) != '=' && ToStandard(ToUrl(Symbol(v))) == Symbol(v)
    ensures ToUrl(Symbol(v)) != '=' && Pkce.IsUrlSafe(ToUrl(Symbol(v)))
  {
  }

  // ── Encoding ─────────────────────────────────────────────────────────────

  /** One to three bytes as two to four sextets. */
  function Group(b: seq<Byte>): (r: seq<Sextet>)
    requires 1 <= |b| <= 3
    ensures |r| == |b| + 1
  {
    if |b| == 1 then [b[0] / 4, b[0] % 4 * 16]
    else if |b| == 2 then [b[0] / 4, b[0] % 4 * 16 + b[1] / 16, b[1] % 16 * 4]
    else [b[0] / 4, b[0] % 4 * 16 + b[1] / 16, b[1] % 16 * 4 + b[2] / 64, b[2] % 64]
  }

  function Sextets(bytes: seq<Byte>): seq<Sextet> {
    if bytes == [] then []
    else if |bytes| <= 3 then Group(bytes)
    else Group(bytes[..3]) + Sextets(bytes[3..])
  }

  function Symbols(s: seq<Sextet>): string { seq(|s|, i requires 0 <= i < |s| => Symbol(s[i])) }

  function Padding(n: nat): (r: string)
    ensures n % 4 != 1 ==> (n + |r|) % 4 == 0
  {
    if n % 4 == 2 then "==" else if n % 4 == 3 then "=" else ""
  }

  /** `btoa`: the standard alphabet, padded. */
  function Btoa(bytes: seq<Byte>): string {
    Symbols(Sextets(bytes)) + Padding(|Sextets(bytes)|)
  }

  function Replaced(s: string): string { seq(|s|, i requires 0 <= i < |s| => ToUrl(s[i])) }

  function WithoutPadding(s: string): string {
    if s == [] then [] else (if s[0] == '=' then [] else [s[0]]) + WithoutPadding(s[1..])
  }

  /** `base64urlEncode`: encode, swap two symbols, drop the padding. */
  function Encode(bytes: seq<Byte>): string { WithoutPadding(Replaced(Btoa(bytes))) }

  /** The same, without the detour. */
  function UrlSymbols(s: seq<Sextet>): string { seq(|s|, i requires 0 <= i < |s| => ToUrl(Symbol(s[i]))) }

  lemma {:induction false} PaddingDropped(s: seq<Sextet>, pad: string)
    requires forall i :: 0 <= i < |pad| ==> pad[i] == '='
    ensures WithoutPadding(UrlSymbols(s) + pad) == UrlSymbols(s)
    decreases |s|, |pad|
  {
    var all := UrlSymbols(s) + pad;
    if s != [] {
      SymbolValue(s[0]);
      assert all[1..] == UrlSymbols(s[1..]) + pad;
      PaddingDropped(s[1..], pad);
      assert UrlSymbols(s) == [ToUrl(Symbol(s[0]))] + UrlSymbols(s[1..]);
    } else if pad != [] {
      assert UrlSymbols(s) == "" && all == pad;
      assert all[1..] == UrlSymbols(s) + pad[1..];
      PaddingDropped(s, pad[1..]);
    }
  }

  lemma EncodeDirectly(bytes: seq<Byte>)
    ensures Encode(bytes) == UrlSymbols(Sextets(bytes))
  {
    var s := Sextets(bytes);
    var pad := Padding(|s|);
    assert Replaced(Btoa(bytes)) == UrlSymbols(s) + pad;
    PaddingDropped(s, pad);
  }

  /** The bytes of a string of characters below 256. */
  function Ascii(s: string): seq<Byte> {
    seq(|s|, i requires 0 <= i < |s| => s[i] as int % 256)
  }

  /** The encoder's loop: a binary string, then `btoa` and the three replacements. */
  method Base64UrlEncode(bytes: seq<Byte>) returns (r: string)
    ensures r == Encode(bytes)
  {
    var str := "";
    for i := 0 to |bytes|
      invariant |str| == i
      invariant forall j :: 0 <= j < i ==> str[j] as int == bytes[j]
    {
      str := str + [bytes[i] as char];
    }
    assert Ascii(str) == bytes;
    r := WithoutPadding(Replaced(Btoa(Ascii(str))));
  }

  // ── Decoding ─────────────────────────────────────────────────────────────

  function FirstByte(s0: Sextet, s1: Sextet): Byte { s0 * 4 + s1 / 16 }

  function SecondByte(s1: Sextet, s2: Sextet): Byte { s1 * 16 % 256 + s2 / 4 }

  function ThirdByte(s2: Sextet, s3: Sextet): Byte { s2 * 64 % 256 + s3 }

  /** Four characters: one byte always, two more unless padded. */
  function DecodeChunk(c: string): Option<seq<Byte>>
    requires |c| == 4
  {
    if Value(c[0]).None? || Value(c[1]).None? || Value(c[2]).None? || Value(c[3]).None? then None
    else
      var s0, s1, s2, s3 := Value(c[0]).value, Value(c[1]).value, Value(c[2]).value, Value(c[3]).value;
      Some([FirstByte(s0, s1)]
           + (if c[2] != '=' then [SecondByte(s1, s2)] else [])
           + (if c[3] != '=' then [ThirdByte(s2, s3)] else []))
  }

  function DecodeChunks(s: string): Option<seq<Byte>>
    requires |s| % 4 == 0
  {
    if s == [] then Some([])
    else if DecodeChunk(s[..4]).None? || DecodeChunks(s[4..]).None? then None
    else Some(DecodeChunk(s[..4]).value + DecodeChunks(s[4..]).value)
  }

  function Standard(s: string): string { seq(|s|, i requires 0 <= i < |s| => ToStandard(s[i])) }

  function Decode(input: string): Option<seq<Byte>> {
    if |input| % 4 == 1 then None else DecodeChunks(Standard(input) + Padding(|input|))
  }

  /** The body of the decoder's loop: table lookup, then up to three bytes. */
  method DecodeOne(chunk: string) returns (r: Option<seq<Byte>>)
    requires |chunk| == 4
    ensures r == DecodeChunk(chunk)
  {
    hide Value, FirstByte, SecondByte, ThirdByte;
    var sextet := new Sextet[4](_ => 0);
    for k := 0 to 4
      invariant forall j :: 0 <= j < k ==> Value(chunk[j]).Some? && Value(chunk[j]).value == sextet[j]
    {
      var v := Value(chunk[k]);
      if v.None? {
        return None;
      }
      sextet[k] := v.value;
    }
    var buf: seq<Byte> := [FirstByte(sextet[0], sextet[1])];
    if chunk[2] != '=' {
      buf := buf + [SecondByte(sextet[1], sextet[2])];
    }
    if chunk[3] != '=' {
      buf := buf + [ThirdByte(sextet[2], sextet[3])];
    }
    assert DecodeChunk(chunk).Some?;
    assert buf == DecodeChunk(chunk).value;
    return Some(buf);
  }

  /** One round of the decoder's loop. */
  lemma DecodeStep(s: string, i: nat)
    requires |s| % 4 == 0 && i % 4 == 0 && i + 4 <= |s|
    ensures (|s| - i) % 4 == 0
    ensures var head, tail := DecodeChunk(s[i..i + 4]), DecodeChunks(s[i + 4..]);
            DecodeChunks(s[i..]) == if head.None? || tail.None? then None else Some(head.value + tail.value)
  {
    hide DecodeChunk;
    assert s[i..][..4] == s[i..i + 4] && s[i..][4..] == s[i + 4..];
  }

  /** The decoder: restore the standard alphabet and padding, then go chunk by chunk. */
  method Base64UrlDecode(input: string) returns (r: Option<seq<Byte>>)
    ensures r == Decode(input)
  {
    hide DecodeChunk, DecodeChunks, ToStandard;
    var b64 := Standard(input);
    match |b64| % 4 {
      case 2 => b64 := b64 + "==";
      case 3 => b64 := b64 + "=";
      case 0 =>
      case _ => return None;
    }
    assert b64 == Standard(input) + Padding(|input|);
    var buf: seq<Byte> := [];
    var i := 0;
    assert b64[0..] == b64;
    while i < |b64|
      invariant 0 <= i <= |b64| && i % 4 == 0 && |b64| % 4 == 0
      invariant DecodeChunks(b64).Some? <==> DecodeChunks(b64[i..]).Some?
      invariant DecodeChunks(b64).Some? ==> DecodeChunks(b64).value == buf + DecodeChunks(b64[i..]).value
    {
      DecodeStep(b64, i);
      var bytes := DecodeOne(b64[i..i + 4]);
      if bytes.None? {
        return None;
      }
      buf := buf + bytes.value;
      i := i + 4;
    }
    NothingDecodes();
    assert b64[i..] == "" && buf + [] == buf;
    return Some(buf);
  }

  // ── Round trip ───────────────────────────────────────────────────────────

  /** A group, spelled and padded to four symbols, decodes to its bytes. */
  lemma GroupRoundTrip(b: seq<Byte>)
    requires 1 <= |b| <= 3
    ensures DecodeChunk(Symbols(Group(b)) + Padding(|Group(b)|)) == Some(b)
  {
    var g := Group(b);
    SymbolValue(g[0]);
    SymbolValue(g[1]);
    if |b| > 1 {
      SymbolValue(g[2]);
    }
    if |b| > 2 {
      SymbolValue(g[3]);
    }
    BitsBack(b);
    var c := Symbols(g) + Padding(|g|);
    assert |c| == 4 && c[0] == Symbol(g[0]) && c[1] == Symbol(g[1]);
    assert c[2] == (if |b| > 1 then Symbol(g[2]) else '=') && c[3] == (if |b| > 2 then Symbol(g[3]) else '=');
    assert DecodeChunk(c).Some?;
    assert DecodeChunk(c).value == b;
  }

  /** The arithmetic of the three cases. */
  lemma BitsBack(b: seq<Byte>)
    requires 1 <= |b| <= 3
    ensures var g := Group(b);
            && FirstByte(g[0], g[1]) == b[0]
            && (|b| > 1 ==> SecondByte(g[1], g[2]) == b[1])
            && (|b| > 2 ==> ThirdByte(g[2], g[3]) == b[2])
  {
    FirstBack(b[0], if |b| == 1 then 0 else b[1] / 16);
    if |b| > 1 {
      SecondBack(b[0] % 4, b[1], if |b| == 2 then 0 else b[2] / 64);
    }
    if |b| > 2 {
      ThirdBack(b[1] % 16, b[2]);
    }
  }

  lemma FirstBack(b0: Byte, x: int)
    requires 0 <= x < 16
    ensures b0 / 4 * 4 + (b0 % 4 * 16 + x) / 16 == b0
  {
  }

  lemma SecondBack(a: int, b1: Byte, x: int)
    requires 0 <= a < 4 && 0 <= x < 4
    ensures (a * 16 + b1 / 16) * 16 % 256 + (b1 % 16 * 4 + x) / 4 == b1
  {
  }

  lemma ThirdBack(a: int, b2: Byte)
    requires 0 <= a < 16
    ensures (a * 4 + b2 / 64) * 64 % 256 + b2 % 64 == b2
  {
  }

  lemma DecodeCons(c: string, s: string)
    requires |c| == 4 && |s| % 4 == 0
    ensures DecodeChunk(c).Some? && DecodeChunks(s).Some? ==>
              DecodeChunks(c + s) == Some(DecodeChunk(c).value + DecodeChunks(s).value)
  {
    hide DecodeChunk;
    assert (c + s)[..4] == c && (c + s)[4..] == s;
  }

  function Spelled(bytes: seq<Byte>): string {
    Symbols(Sextets(bytes)) + Padding(|Sextets(bytes)|)
  }

  lemma SpelledGroup(bytes: seq<Byte>)
    requires 1 <= |bytes| <= 3
    ensures |Spelled(bytes)| == 4 && DecodeChunk(Spelled(bytes)) == Some(bytes)
    ensures DecodeChunks(Spelled(bytes)) == Some(bytes)
  {
    hide DecodeChunk, DecodeChunks;
    GroupRoundTrip(bytes);
    var s := Spelled(bytes);
    NothingDecodes();
    DecodeCons(s, "");
    assert s + "" == s && bytes + [] == bytes;
  }

  lemma NothingDecodes()
    ensures DecodeChunks("") == Some([])
  {
  }

  lemma SpelledNothing()
    ensures Spelled([]) == ""
  {
  }

  lemma SpelledCons(bytes: seq<Byte>)
    requires |bytes| > 3
    ensures Spelled(bytes) == Spelled(bytes[..3]) + Spelled(bytes[3..])
  {
  }

  lemma {:induction false} ChunksRoundTrip(bytes: seq<Byte>)
    ensures |Spelled(bytes)| % 4 == 0
    ensures DecodeChunks(Spelled(bytes)) == Some(bytes)
  {
    hide Spelled, DecodeChunks, DecodeChunk;
    if bytes == [] {
      SpelledNothing();
      NothingDecodes();
    } else if |bytes| <= 3 {
      SpelledGroup(bytes);
    } else {
      SpelledCons(bytes);
      SpelledGroup(bytes[..3]);
      ChunksRoundTrip(bytes[3..]);
      DecodeCons(Spelled(bytes[..3]), Spelled(bytes[3..]));
      assert bytes == bytes[..3] + bytes[3..];
    }
  }

  /** The decoder undoes the encoder, for every byte sequence. */
  lemma DecodeEncode(bytes: seq<Byte>)
    ensures Decode(Encode(bytes)) == Some(bytes)
  {
    var s := Sextets(bytes);
    EncodeDirectly(bytes);
    ChunksRoundTrip(bytes);
    forall i | 0 <= i < |s|
      ensures ToStandard(UrlSymbols(s)[i]) == Symbol(s[i])
    {
      SymbolValue(s[i]);
    }
    assert Standard(UrlSymbols(s)) == Symbols(s);
    assert Standard(Encode(bytes)) + Padding(|Encode(bytes)|) == Spelled(bytes);
  }

  // ── Lengths ──────────────────────────────────────────────────────────────

  lemma {:induction false} SextetCount(bytes: seq<Byte>)
    ensures |Sextets(bytes)| == (4 * |bytes| + 2) / 3
  {
    if |bytes| > 3 {
      SextetCount(bytes[3..]);
    }
  }

  lemma {:induction false} ChunksLength(s: string, pad: nat)
    requires |s| % 4 == 0 && pad <= 2 && pad <= |s|
    requires forall i :: 0 <= i < |s| ==> (s[i] == '=' <==> i >= |s| - pad)
    ensures DecodeChunks(s).Some? ==> |DecodeChunks(s).value| == |s| / 4 * 3 - pad
  {
    if |s| == 4 {
      assert s[4..] == [] && s[..4] == s;
    } else if |s| > 4 {
      ChunksLength(s[4..], pad);
      assert s[..4][2] == s[2] && s[..4][3] == s[3];
    }
  }

  /** Any accepted input without padding of its own decodes to floor(3n/4) bytes. */
  lemma DecodedLength(input: string)
    requires '=' !in input
    ensures Decode(input).Some? ==> |Decode(input).value| == 3 * |input| / 4
  {
    if |input| % 4 != 1 {
      var s := Standard(input) + Padding(|input|);
      forall i | 0 <= i < |input|
        ensures s[i] != '='
      {
        assert input[i] in input;
      }
      ChunksLength(s, |Padding(|input|)|);
    }
  }

  // ── PKCE ─────────────────────────────────────────────────────────────────

  /** 32 bytes encode to 43 URL-safe characters, fit to be a verifier and an S256 challenge. */
  lemma EncodedIsAccepted(bytes: seq<Byte>, allowPlain: bool)
    requires |bytes| == 32
    ensures |Encode(bytes)| == 43 && Pkce.AllUrlSafe(Encode(bytes))
    ensures Pkce.AcceptsVerifier(Encode(bytes)) && Pkce.AcceptsChallenge(Encode(bytes), Pkce.S256, allowPlain)
  {
    EncodeDirectly(bytes);
    SextetCount(bytes);
    var s := Sextets(bytes);
    forall i | 0 <= i < |s|
      ensures Pkce.IsUrlSafe(UrlSymbols(s)[i])
    {
      SymbolValue(s[i]);
    }
  }

  /** An honest client passes both format checks and answers its own challenge, whatever the hash. */
  lemma HonestClientPasses(random: seq<Byte>, sha256: seq<Byte> -> seq<Byte>, allowPlain: bool)
    requires |random| == 32 && forall b :: |sha256(b)| == 32
    ensures var digest := (v: string) => Encode(sha256(Ascii(v)));
            var verifier := Encode(random);
            && Pkce.AcceptsChallenge(digest(verifier), Pkce.S256, allowPlain) && Pkce.AcceptsVerifier(verifier)
            && Pkce.Answers(verifier, digest(verifier), Pkce.S256, allowPlain, digest)
  {
    EncodedIsAccepted(random, allowPlain);
    EncodedIsAccepted(sha256(Ascii(Encode(random))), allowPlain);
  }
}
