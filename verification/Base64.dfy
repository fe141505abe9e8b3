/**
 Base 64 with the standard alphabet and padding: section 4 of RFC 4648, the way Go's
 `base64.StdEncoding` applies it. The decoder skips carriage returns and line feeds anywhere and
 does not check that the unused bits in front of the padding are zero.

 Text is handled in two layers: bytes to and from symbols 0..64, where 64 is the padding, and
 symbols to and from characters.
 */
module Base64 {
  import opened Common

  type Symbol = x: int | 0 <= x <= 64

  const PAD: Symbol := 64

  // ---- The alphabet, Table 1 of RFC 4648

  function CharOf(v: Symbol): char {
    if v < 26 then 'A' + v as char
    else if v < 52 then 'a' + (v - 26) as char
    else if v < 62 then '0' + (v - 52) as char
    else if v == 62 then '+'
    else if v == 63 then '/'
    else '='
  }

  function SymbolOf(c: char): Option<Symbol> {
    if 'A' <= c <= 'Z' then Some((c - 'A') as int)
    else if 'a' <= c <= 'z' then Some((c - 'a') as int + 26)
    else if '0' <= c <= '9' then Some((c - '0') as int + 52)
    else if c == '+' then Some(62)
    else if c == '/' then Some(63)
    else if c == '=' then Some(PAD)
    else None
  }

  predicate IsNewline(c: char) {
    c == '\r' || c == '\n'
  }

  lemma SymbolOfChar(v: Symbol)
    ensures SymbolOf(CharOf(v)) == Some(v) && !IsNewline(CharOf(v))
  {
  }

  lemma CharOfSymbol(c: char)
    requires SymbolOf(c).Some?
    ensures CharOf(SymbolOf(c).value) == c && !IsNewline(c)
  {
  }

  function Text(symbols: seq<Symbol>): (s: string)
    ensures |s| == |symbols|
  {
    seq(|symbols|, i requires 0 <= i < |symbols| => CharOf(symbols[i]))
  }

  /** The symbols of a text; none when a character outside the alphabet occurs. */
  function Symbols(s: string): (r: Option<seq<Symbol>>)
    ensures r.Some? ==> |r.value| == |s|
  {
    if s == "" then Some([])
    else
      match (SymbolOf(s[0]), Symbols(s[1..]))
      case (Some(v), Some(rest)) => Some([v] + rest)
      case _ => None
  }

  lemma {:induction false} SymbolsOfText(x: seq<Symbol>)
    ensures Symbols(Text(x)) == Some(x)
    ensures forall i :: 0 <= i < |x| ==> !IsNewline(Text(x)[i])
  {
    if x != [] {
      SymbolOfChar(x[0]);
      SymbolsOfText(x[1..]);
      assert Text(x)[1..] == Text(x[1..]);
      assert x == [x[0]] + x[1..];
    }
  }

  lemma {:induction false} TextOfSymbols(s: string)
    requires Symbols(s).Some?
    ensures Text(Symbols(s).value) == s
  {
    if s != "" {
      CharOfSymbol(s[0]);
      TextOfSymbols(s[1..]);
      var x := Symbols(s).value;
      assert x[1..] == Symbols(s[1..]).value;
      assert Text(x) == [CharOf(x[0])] + Text(x[1..]);
    }
  }

  /** Table 1 of RFC 4648 and the padding: the letters, the digits, and three single characters. */
  lemma AlphabetIsStandard(v: Symbol)
    ensures CharOf(0) == 'A' && CharOf(25) == 'Z' && CharOf(26) == 'a' && CharOf(51) == 'z'
    ensures CharOf(52) == '0' && CharOf(61) == '9' && CharOf(62) == '+' && CharOf(63) == '/' && CharOf(64) == '='
    ensures v < 25 || 26 <= v < 51 || 52 <= v < 61 ==> CharOf(v + 1) as int == CharOf(v) as int + 1
  {
  }

  // ---- Encoding

  function EncodedLen(n: nat): nat {
    (n + 2) / 3 * 4
  }

  // The four six-bit symbols of three bytes, and back.

  function Symbol0(a: Byte): (v: Symbol)
    ensures v < PAD
  {
    a / 4
  }

  function Symbol1(a: Byte, b: Byte): (v: Symbol)
    ensures v < PAD
  {
    a % 4 * 16 + b / 16
  }

  function Symbol2(b: Byte, c: Byte): (v: Symbol)
    ensures v < PAD
  {
    b % 16 * 4 + c / 64
  }

  function Symbol3(c: Byte): (v: Symbol)
    ensures v < PAD
  {
    c % 64
  }

  function Byte0(v0: Symbol, v1: Symbol): Byte
    requires v0 < PAD && v1 < PAD
  {
    var hi: int, lo: int := v0, v1;
    hi * 4 + lo / 16
  }

  function Byte1(v1: Symbol, v2: Symbol): Byte
    requires v1 < PAD && v2 < PAD
  {
    var hi: int, lo: int := v1, v2;
    hi % 16 * 16 + lo / 4
  }

  function Byte2(v2: Symbol, v3: Symbol): Byte
    requires v2 < PAD && v3 < PAD
  {
    var hi: int, lo: int := v2, v3;
    hi % 4 * 64 + lo
  }

  lemma BytesOfSymbols(a: Byte, b: Byte, c: Byte)
    ensures Byte0(Symbol0(a), Symbol1(a, b)) == a
    ensures Byte1(Symbol1(a, b), Symbol2(b, c)) == b
    ensures Byte2(Symbol2(b, c), Symbol3(c)) == c
  {
    assert Symbol1(a, b) / 16 == a % 4 && Symbol1(a, b) % 16 == b / 16;
    assert Symbol2(b, c) / 4 == b % 16 && Symbol2(b, c) % 4 == c / 64;
  }

  lemma SymbolsOfBytes(v0: Symbol, v1: Symbol, v2: Symbol, v3: Symbol)
    requires v0 < PAD && v1 < PAD && v2 < PAD && v3 < PAD
    ensures Symbol0(Byte0(v0, v1)) == v0
    ensures Symbol1(Byte0(v0, v1), Byte1(v1, v2)) == v1
    ensures Symbol2(Byte1(v1, v2), Byte2(v2, v3)) == v2
    ensures Symbol3(Byte2(v2, v3)) == v3
  {
    assert Byte0(v0, v1) / 4 == v0 && Byte0(v0, v1) % 4 == v1 / 16;
    assert Byte1(v1, v2) / 16 == v1 % 16 && Byte1(v1, v2) % 16 == v2 / 4;
    assert Byte2(v2, v3) / 64 == v2 % 4 && Byte2(v2, v3) % 64 == v3;
  }

  function EncodeSymbols(b: Bytes): seq<Symbol> {
    if |b| == 0 then []
    else if |b| == 1 then [Symbol0(b[0]), Symbol1(b[0], 0), PAD, PAD]
    else if |b| == 2 then [Symbol0(b[0]), Symbol1(b[0], b[1]), Symbol2(b[1], 0), PAD]
    else [Symbol0(b[0]), Symbol1(b[0], b[1]), Symbol2(b[1], b[2]), Symbol3(b[2])] + EncodeSymbols(b[3..])
  }

  function Encode(b: Bytes): string {
    Text(EncodeSymbols(b))
  }

  lemma {:induction false} EncodeFitsBuffer(b: Bytes)
    ensures |EncodeSymbols(b)| == |Encode(b)| == EncodedLen(|b|)
  {
    if |b| > 2 {
      EncodeFitsBuffer(b[3..]);
    }
  }

  /** Writes `part` into `dst` from position `n` on. */
  method WriteAt<T>(dst: array<T>, n: nat, part: seq<T>)
    requires n + |part| <= dst.Length
    modifies dst
    ensures dst[..n] == old(dst[..n]) && dst[n..n + |part|] == part
    ensures dst[..n + |part|] == old(dst[..n]) + part
  {
    for i := 0 to |part|
      invariant dst[..n] == old(dst[..n]) && dst[n..n + i] == part[..i]
    {
      dst[n + i] := part[i];
    }
    assert part[..|part|] == part;
  }

  /** The first group of a text of symbols, with padding when the bytes run out. */
  function FirstGroup(b: Bytes): (q: seq<Symbol>)
    requires b != []
    ensures |q| == 4
    ensures EncodeSymbols(b) == q + EncodeSymbols(if |b| > 3 then b[3..] else [])
  {
    if |b| == 1 then [Symbol0(b[0]), Symbol1(b[0], 0), PAD, PAD]
    else if |b| == 2 then [Symbol0(b[0]), Symbol1(b[0], b[1]), Symbol2(b[1], 0), PAD]
    else [Symbol0(b[0]), Symbol1(b[0], b[1]), Symbol2(b[1], b[2]), Symbol3(b[2])]
  }

  /** Fills a buffer of exactly the computed length, group by group. */
  method EncodeInto(dst: array<Symbol>, src: Bytes)
    requires dst.Length == EncodedLen(|src|)
    modifies dst
    ensures dst[..] == EncodeSymbols(src)
  {
    hide EncodeSymbols, FirstGroup;
    var rest, n := src, 0;
    assert dst[..0] + EncodeSymbols(src) == EncodeSymbols(src);
    while rest != []
      invariant n + EncodedLen(|rest|) == dst.Length
      invariant dst[..n] + EncodeSymbols(rest) == EncodeSymbols(src)
      decreases |rest|
    {
      ghost var before := dst[..n];
      var group := FirstGroup(rest);
      rest := if |rest| > 3 then rest[3..] else [];
      WriteAt(dst, n, group);
      assert before + (group + EncodeSymbols(rest)) == before + group + EncodeSymbols(rest);
      n := n + 4;
    }
    EncodeNothing();
    assert dst[..n] == dst[..];
  }

  lemma EncodeNothing()
    ensures EncodeSymbols([]) == []
  {
  }

  method B64Encode(src: Bytes) returns (text: string)
    ensures text == Encode(src)
  {
    var dst := new Symbol[EncodedLen(|src|)](_ => 0);
    EncodeInto(dst, src);
    text := Text(dst[..]);
  }

  function Digit(v: Symbol): int {
    if v == 64 then 0 else v
  }

  function Number64(d0: int, d1: int, d2: int, d3: int): int {
    ((d0 * 64 + d1) * 64 + d2) * 64 + d3
  }

  function Number256(a: int, b: int, c: int): int {
    (a * 256 + b) * 256 + c
  }

  /** The four symbols of three bytes are the digits of one number of 24 bits; missing bytes count as
      zero, and the symbols without a bit of the input are padding. */
  ghost predicate IsGroupOf(q: seq<Symbol>, b: Bytes)
    requires |q| == 4 && b != []
  {
    && Number64(Digit(q[0]), Digit(q[1]), Digit(q[2]), Digit(q[3])) ==
       Number256(b[0], if |b| > 1 then b[1] else 0, if |b| > 2 then b[2] else 0)
    && q[0] != 64 && q[1] != 64 && (q[2] == 64 <==> |b| == 1) && (q[3] == 64 <==> |b| <= 2)
  }

  /** That holds of every group of an encoding. */
  lemma GroupIsNumber(b: Bytes)
    requires b != []
    ensures |EncodeSymbols(b)| >= 4 && IsGroupOf(EncodeSymbols(b)[..4], b)
    ensures EncodeSymbols(b)[4..] == EncodeSymbols(if |b| > 3 then b[3..] else [])
  {
    hide EncodeSymbols, IsGroupOf;
    FirstGroupIsNumber(b);
    assert EncodeSymbols(b)[..4] == FirstGroup(b);
  }

  lemma FirstGroupIsNumber(b: Bytes)
    requires b != []
    ensures IsGroupOf(FirstGroup(b), b)
  {
    hide Symbol0, Symbol1, Symbol2, Symbol3, Number64, Number256;
    BitsMissing();
    if |b| == 1 {
      BitsOfThree(b[0], 0, 0);
    } else if |b| == 2 {
      BitsOfThree(b[0], b[1], 0);
    } else {
      BitsOfThree(b[0], b[1], b[2]);
    }
  }

  lemma BitsOfThree(a: Byte, b: Byte, c: Byte)
    ensures Number64(Symbol0(a), Symbol1(a, b), Symbol2(b, c), Symbol3(c)) == Number256(a, b, c)
  {
    assert a == a / 4 * 4 + a % 4 && b == b / 16 * 16 + b % 16 && c == c / 64 * 64 + c % 64;
  }

  lemma BitsMissing()
    ensures Symbol2(0, 0) == 0 && Symbol3(0) == 0
  {
  }

  // ---- Decoding

  function DecodedLen(n: nat): nat {
    n / 4 * 3
  }

  function StripNewlines(s: string): (r: string)
    ensures |r| <= |s|
  {
    if s == "" then ""
    else if IsNewline(s[0]) then StripNewlines(s[1..])
    else [s[0]] + StripNewlines(s[1..])
  }

  /** Skipping newlines removes every '\r' and '\n', keeps everything else, and keeps the order. */
  lemma {:induction false} StripsPerCharacter(a: string, c: char)
    ensures StripNewlines(a + [c]) == StripNewlines(a) + if c == '\r' || c == '\n' then "" else [c]
    decreases |a|
  {
    if a == "" {
      assert a + [c] == [c] && [c][1..] == "";
    } else {
      StripsPerCharacter(a[1..], c);
      assert (a + [c])[1..] == a[1..] + [c];
      var more := StripNewlines(a[1..]);
      assert [a[0]] + (more + [c]) == [a[0]] + more + [c];
    }
  }

  /** The bytes of the first four symbols. One or two bytes mean padding, and nothing may follow
      padding. */
  function FirstQuantum(x: seq<Symbol>): (r: Option<Bytes>)
    requires x != []
    ensures r.Some? ==> 0 < |r.value| <= 3 && 4 <= |x| && (|r.value| < 3 ==> |x| == 4)
  {
    if |x| < 4 || x[0] == PAD || x[1] == PAD then None
    else if x[2] == PAD then
      if x[3] == PAD && |x| == 4 then Some([Byte0(x[0], x[1])]) else None
    else if x[3] == PAD then
      if |x| == 4 then Some([Byte0(x[0], x[1]), Byte1(x[1], x[2])]) else None
    else Some([Byte0(x[0], x[1]), Byte1(x[1], x[2]), Byte2(x[2], x[3])])
  }

  function DecodeSymbols(x: seq<Symbol>): Option<Bytes> {
    if x == [] then Some([])
    else
      match FirstQuantum(x)
      case None => None
      case Some(group) =>
        match DecodeSymbols(x[4..])
        case None => None
        case Some(rest) => Some(group + rest)
  }

  function Decode(s: string): Option<Bytes> {
    match Symbols(StripNewlines(s))
    case None => None
    case Some(x) => DecodeSymbols(x)
  }

  lemma {:induction false} SymbolsFitBuffer(x: seq<Symbol>)
    requires DecodeSymbols(x).Some?
    ensures |x| % 4 == 0 && |DecodeSymbols(x).value| <= DecodedLen(|x|) <= |DecodeSymbols(x).value| + 2
  {
    if x != [] && x[2] != PAD && x[3] != PAD {
      SymbolsFitBuffer(x[4..]);
    }
  }

  /** Whatever text is accepted, its bytes fit the buffer that is sized from its length, newlines
      included, and leave at most two places of it for each quantum's padding and newlines. */
  lemma DecodeFitsBuffer(s: string)
    requires Decode(s).Some?
    ensures |Decode(s).value| <= DecodedLen(|s|)
    ensures StripNewlines(s) == s ==> DecodedLen(|s|) <= |Decode(s).value| + 2
  {
    SymbolsFitBuffer(Symbols(StripNewlines(s)).value);
  }

  /** Decodes quantum by quantum into `dst` and counts the bytes written. */
  method DecodeInto(dst: array<Byte>, x: seq<Symbol>) returns (n: nat, ok: bool)
    requires dst.Length >= DecodedLen(|x|)
    modifies dst
    ensures ok <==> DecodeSymbols(x).Some?
    ensures ok ==> n <= dst.Length && dst[..n] == DecodeSymbols(x).value
  {
    hide FirstQuantum;
    var rest := x;
    n := 0;
    assert dst[..0] == [];
    assert DecodeSymbols(x).Some? ==> [] + DecodeSymbols(x).value == DecodeSymbols(x).value;
    while rest != []
      invariant n + DecodedLen(|rest|) <= dst.Length
      invariant Continues(x, dst[..n], rest)
      decreases |rest|
    {
      hide DecodeSymbols, Continues;
      var group := FirstQuantum(rest);
      ContinuesOneMore(x, dst[..n], rest);
      if group.None? {
        return n, false;
      }
      WriteAt(dst, n, group.value);
      n, rest := n + |group.value|, rest[4..];
    }
    assert dst[..n] + [] == dst[..n];
    ok := true;
  }

  /** With `written` done and `rest` ahead, all of `x` decodes to `written` and what `rest`
      decodes to. */
  ghost predicate Continues(x: seq<Symbol>, written: Bytes, rest: seq<Symbol>) {
    match DecodeSymbols(rest)
    case None => DecodeSymbols(x).None?
    case Some(more) => DecodeSymbols(x) == Some(written + more)
  }

  lemma ContinuesOneMore(x: seq<Symbol>, written: Bytes, rest: seq<Symbol>)
    requires Continues(x, written, rest) && rest != []
    ensures match FirstQuantum(rest)
            case None => DecodeSymbols(x).None?
            case Some(group) => Continues(x, written + group, rest[4..])
  {
    hide FirstQuantum;
    var group := FirstQuantum(rest);
    if group.Some? && DecodeSymbols(rest[4..]).Some? {
      var more := DecodeSymbols(rest[4..]).value;
      assert written + (group.value + more) == written + group.value + more;
    }
  }

  method B64Decode(data: string) returns (r: Option<Bytes>)
    ensures r == Decode(data)
  {
    var dst := new Byte[DecodedLen(|data|)](_ => 0);
    var symbols := Symbols(StripNewlines(data));
    if symbols.None? {
      return None;
    }
    var n, ok := DecodeInto(dst, symbols.value);
    r := if ok then Some(dst[..n]) else None;
  }

  // ---- Round trips

  lemma QuantumOfOne(a: Byte)
    ensures FirstQuantum([Symbol0(a), Symbol1(a, 0), PAD, PAD]) == Some([a])
  {
    hide Symbol0, Symbol1, Byte0;
    BytesOfSymbols(a, 0, 0);
  }

  lemma QuantumOfTwo(a: Byte, b: Byte)
    ensures FirstQuantum([Symbol0(a), Symbol1(a, b), Symbol2(b, 0), PAD]) == Some([a, b])
  {
    hide Symbol0, Symbol1, Symbol2, Byte0, Byte1;
    BytesOfSymbols(a, b, 0);
  }

  lemma QuantumOfThree(a: Byte, b: Byte, c: Byte, rest: seq<Symbol>)
    ensures FirstQuantum([Symbol0(a), Symbol1(a, b), Symbol2(b, c), Symbol3(c)] + rest) == Some([a, b, c])
  {
    hide Symbol0, Symbol1, Symbol2, Symbol3, Byte0, Byte1, Byte2;
    BytesOfSymbols(a, b, c);
  }

  lemma {:induction false} DecodeEncodeSymbols(b: Bytes)
    ensures DecodeSymbols(EncodeSymbols(b)) == Some(b)
  {
    hide FirstQuantum, Symbol0, Symbol1, Symbol2, Symbol3;
    var x := EncodeSymbols(b);
    if |b| == 0 {
    } else if |b| == 1 {
      QuantumOfOne(b[0]);
      assert b == [b[0]] + [] && x[4..] == [];
    } else if |b| == 2 {
      QuantumOfTwo(b[0], b[1]);
      assert b == [b[0], b[1]] + [] && x[4..] == [];
    } else {
      DecodeEncodeSymbols(b[3..]);
      QuantumOfThree(b[0], b[1], b[2], EncodeSymbols(b[3..]));
      assert x[4..] == EncodeSymbols(b[3..]);
      assert b == [b[0], b[1], b[2]] + b[3..];
    }
  }

  lemma {:induction false} StripKeeps(s: string)
    ensures StripNewlines(s) == s <==> forall i :: 0 <= i < |s| ==> !IsNewline(s[i])
  {
    if s != "" {
      StripKeeps(s[1..]);
      assert s == [s[0]] + s[1..];
      assert StripNewlines(s) == s <==> !IsNewline(s[0]) && StripNewlines(s[1..]) == s[1..];
    }
  }

  /** Decoding an encoding gives the bytes back. */
  lemma DecodeEncode(b: Bytes)
    ensures Decode(Encode(b)) == Some(b)
  {
    SymbolsOfText(EncodeSymbols(b));
    StripKeeps(Encode(b));
    DecodeEncodeSymbols(b);
  }

  /** The bits that the padding leaves unused are zero. */
  predicate ZeroTail(x: seq<Symbol>) {
    |x| >= 4 && x[|x| - 1] == PAD ==>
      if x[|x| - 2] == PAD then x[|x| - 3] % 16 == 0 else x[|x| - 2] % 4 == 0
  }

  lemma EncodeDecodePadded(x: seq<Symbol>)
    requires |x| == 4 && x[3] == PAD && DecodeSymbols(x).Some?
    ensures EncodeSymbols(DecodeSymbols(x).value) == x <==> ZeroTail(x)
  {
    if x[2] == PAD {
      assert Byte0(x[0], x[1]) / 4 == x[0] && Byte0(x[0], x[1]) % 4 == x[1] / 16;
    } else {
      SymbolsOfBytes(x[0], x[1], x[2], 0);
      assert Byte1(x[1], x[2]) % 16 == x[2] / 4;
    }
  }

  lemma {:induction false} EncodeDecodeSymbols(x: seq<Symbol>)
    requires DecodeSymbols(x).Some?
    ensures EncodeSymbols(DecodeSymbols(x).value) == x <==> ZeroTail(x)
  {
    hide Symbol0, Symbol1, Symbol2, Symbol3, Byte0, Byte1, Byte2;
    if x == [] {
    } else if x[3] == PAD {
      EncodeDecodePadded(x);
    } else {
      var b, rest := DecodeSymbols(x).value, DecodeSymbols(x[4..]).value;
      EncodeDecodeSymbols(x[4..]);
      SymbolsFitBuffer(x[4..]);
      SymbolsOfBytes(x[0], x[1], x[2], x[3]);
      assert b[3..] == rest;
      assert x == [x[0], x[1], x[2], x[3]] + x[4..];
      assert EncodeSymbols(b)[4..] == EncodeSymbols(rest);
    }
  }

  /** Encoding what was decoded gives the text back exactly when the text has no newlines and no
      stray bits in front of its padding. */
  lemma EncodeDecode(s: string)
    requires Decode(s).Some?
    ensures Encode(Decode(s).value) == s <==>
            StripNewlines(s) == s && ZeroTail(Symbols(s).value)
  {
    var t := StripNewlines(s);
    var x := Symbols(t).value;
    EncodeDecodeSymbols(x);
    TextOfSymbols(t);
    SymbolsOfText(EncodeSymbols(Decode(s).value));
    StripKeeps(Encode(Decode(s).value));
  }

  /** Accepted text decodes to no bytes exactly when it holds nothing but newlines. */
  lemma DecodesToNothing(s: string)
    ensures Decode(s) == Some([]) <==> StripNewlines(s) == ""
  {
  }

  /** The test vectors of section 10 of RFC 4648. */
  lemma TestVectors()
    ensures Encode([]) == ""
    ensures Encode([102]) == "Zg==" && Encode([102, 111]) == "Zm8=" && Encode([102, 111, 111]) == "Zm9v"
    ensures Encode([102, 111, 111, 98]) == "Zm9vYg==" && Encode([102, 111, 111, 98, 97]) == "Zm9vYmE="
    ensures Encode([102, 111, 111, 98, 97, 114]) == "Zm9vYmFy"
  {
    assert [102, 111, 111, 98][3..] == [98] && [102, 111, 111, 98, 97][3..] == [98, 97];
    assert [102, 111, 111, 98, 97, 114][3..] == [98, 97, 114];
  }
}
