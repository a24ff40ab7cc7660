/** The request format as a grammar, and base64 bit by bit: what the parser and the printer of Wire
    are about, said without either. */
module Grammar {
  import opened Common
  import opened Places
  import opened Wire

  // ----- bodies -----

  function JoinLines(lines: seq<Bytes>): Bytes {
    if lines == [] then [] else lines[0] + [10] + JoinLines(lines[1..])
  }

  /** Each line is one non-empty spelling of the hash at its place. */
  ghost predicate Spells(lines: seq<Bytes>, proof: seq<Bytes>) {
    && |lines| == |proof|
    && forall i :: 0 <= i < |lines| ==> lines[i] != [] && OneLine(lines[i]) && ParseHash(lines[i]) == Some(proof[i])
  }

  lemma {:induction false} SpelledReads(lines: seq<Bytes>, proof: seq<Bytes>, note: Bytes, room: nat)
    requires Spells(lines, proof) && |proof| <= room
    ensures ParseProof(JoinLines(lines) + [10] + note, room) == Some((proof, note))
    decreases |lines|
  {
    hide ParseHash, CutLine;
    if lines == [] {
      CutFinds([], note);
      assert JoinLines(lines) + [10] + note == [] + [NEWLINE] + note;
    } else {
      var tail := JoinLines(lines[1..]) + [10] + note;
      assert JoinLines(lines) + [10] + note == lines[0] + [NEWLINE] + tail;
      CutFinds(lines[0], tail);
      SpelledReads(lines[1..], proof[1..], note, room - 1);
      assert [proof[0]] + proof[1..] == proof;
    }
  }

  lemma {:induction false} ReadIsSpelled(rest: Bytes, room: nat) returns (lines: seq<Bytes>)
    requires ParseProof(rest, room).Some?
    ensures var (proof, note) := ParseProof(rest, room).value;
            Spells(lines, proof) && |proof| <= room && rest == JoinLines(lines) + [10] + note
    decreases |rest|
  {
    hide ParseHash, CutLine;
    var (line, tail) := CutLine(rest).value;
    lines := [];
    if line == [] {
      assert rest == [] + [10] + tail;
    } else {
      var more := ReadIsSpelled(tail, room - 1);
      lines := [line] + more;
      assert lines[1..] == more;
      var (proof, note) := ParseProof(rest, room).value;
      var (hs, _) := ParseProof(tail, room - 1).value;
      forall i | 0 <= i < |lines| ensures lines[i] != [] && OneLine(lines[i]) && ParseHash(lines[i]) == Some(proof[i]) {
        if i > 0 {
          assert lines[i] == more[i - 1] && proof[i] == hs[i - 1];
        }
      }
      assert rest == line + [10] + (JoinLines(more) + [10] + note);
    }
  }

  /** The body of a request with these hash lines. */
  ghost predicate IsBody(body: Bytes, r: Request, lines: seq<Bytes>) {
    && r.size < 0x8000_0000_0000_0000 && |lines| <= 63 && Spells(lines, r.proof) && r.note != []
    && body == Ascii("old ") + Decimal(r.size) + [10] + (JoinLines(lines) + [10] + r.note)
  }

  lemma OldPrefix()
    ensures OLD_PREFIX == Ascii("old ")
  {
  }

  lemma BodyReads(body: Bytes, r: Request, lines: seq<Bytes>)
    requires IsBody(body, r, lines)
    ensures ParseBody(body) == Some(r)
  {
    hide ParseHash, CutLine, ParseProof, JoinLines, Spells;
    OldPrefix();
    var line := OLD_PREFIX + Decimal(r.size);
    var rest := JoinLines(lines) + [10] + r.note;
    assert body == line + [NEWLINE] + rest;
    CutFinds(line, rest);
    assert line[4..] == Decimal(r.size);
    DecimalRoundTrip(r.size);
    HasSize(lines, r.proof);
    SpelledReads(lines, r.proof, r.note, MAX_PROOF_LINES);
  }

  lemma HasSize(lines: seq<Bytes>, proof: seq<Bytes>)
    requires Spells(lines, proof)
    ensures |lines| == |proof|
  {
  }

  lemma ReadIsBody(body: Bytes, r: Request) returns (lines: seq<Bytes>)
    requires ParseBody(body) == Some(r)
    ensures IsBody(body, r, lines)
  {
    hide ParseHash, CutLine, ParseProof, JoinLines, Spells;
    OldPrefix();
    var (line, rest) := CutLine(body).value;
    lines := ReadIsSpelled(rest, MAX_PROOF_LINES);
    HasSize(lines, r.proof);
    assert line == OLD_PREFIX + line[4..];
  }

  /** The parser accepts exactly the bodies of the grammar: "old", the canonical size, at most 63
      hash lines in any accepted spelling, a blank line and a non-empty note. */
  lemma BodyGrammar(body: Bytes, r: Request)
    ensures ParseBody(body) == Some(r) <==> exists lines :: IsBody(body, r, lines)
  {
    hide IsBody, ParseBody;
    if ParseBody(body) == Some(r) {
      var lines := ReadIsBody(body, r);
    }
    if exists lines :: IsBody(body, r, lines) {
      var lines :| IsBody(body, r, lines);
      BodyReads(body, r, lines);
    }
  }

  // ----- base64 -----

  /** The symbols are the standard alphabet: A to Z, a to z, 0 to 9, plus and slash. */
  lemma AlphabetIs(v: nat)
    requires v < 64
    ensures v < 26 ==> Symbol(v) == 'A' as int + v
    ensures 26 <= v < 52 ==> Symbol(v) == 'a' as int + (v - 26)
    ensures 52 <= v < 62 ==> Symbol(v) == '0' as int + (v - 52)
    ensures (v == 62 ==> Symbol(v) == '+' as int) && (v == 63 ==> Symbol(v) == '/' as int)
  {
  }

  /** The number that symbols spell, most significant first. */
  function SymbolNumber(s: Bytes): nat
    requires forall i :: 0 <= i < |s| ==> SymbolValue(s[i]).Some?
  {
    if s == [] then 0 else 64 * SymbolNumber(s[..|s| - 1]) + SymbolValue(s[|s| - 1]).value
  }

  ghost predicate Symbols(s: Bytes) {
    forall i :: 0 <= i < |s| ==> SymbolValue(s[i]).Some?
  }

  lemma TwoSymbols(s: Bytes)
    requires |s| == 2 && Symbols(s)
    ensures SymbolNumber(s) == SymbolValue(s[0]).value * 64 + SymbolValue(s[1]).value
  {
    hide SymbolValue;
    assert s[..1][..0] == [];
    assert SymbolNumber(s[..1]) == SymbolValue(s[0]).value;
  }

  lemma ThreeSymbols(s: Bytes)
    requires |s| == 3 && Symbols(s)
    ensures SymbolNumber(s) == SymbolValue(s[0]).value * 4096 + SymbolValue(s[1]).value * 64 + SymbolValue(s[2]).value
  {
    hide SymbolValue;
    TwoSymbols(s[..2]);
  }

  lemma FourSymbols(s: Bytes)
    requires |s| == 4 && Symbols(s)
    ensures SymbolNumber(s)
         == SymbolValue(s[0]).value * 262144 + SymbolValue(s[1]).value * 4096 + SymbolValue(s[2]).value * 64 + SymbolValue(s[3]).value
  {
    hide SymbolValue;
    ThreeSymbols(s[..3]);
  }

  lemma ShortNumbers(b: Bytes)
    requires 1 <= |b| <= 3
    ensures GetBE(b) == Weigh(b)
  {
    assert b[..1][..0] == [];
    assert GetBE(b[..1]) == b[0];
    if |b| == 3 {
      assert b[..2][..1] == b[..1];
      assert GetBE(b[..2]) == 256 * GetBE(b[..1]) + b[1];
    }
  }

  /** The number of at most three bytes. */
  function Weigh(b: seq<int>): int
    requires 1 <= |b| <= 3
  {
    if |b| == 1 then b[0] else if |b| == 2 then b[0] * 256 + b[1] else b[0] * 65536 + b[1] * 256 + b[2]
  }

  lemma EncodesThree(b: Bytes)
    requires |b| >= 3
    ensures |EncodeBase64(b)| >= 4
    ensures var quad := EncodeBase64(b)[..4];
            Symbols(quad) && SymbolNumber(quad) == GetBE(b[..3])
  {
    var x: int, y: int, z: int := b[0], b[1], b[2];
    var quad := EncodeBase64(b)[..4];
    SymbolRoundTrip(x / 4);
    SymbolRoundTrip(x % 4 * 16 + y / 16);
    SymbolRoundTrip(y % 16 * 4 + z / 64);
    SymbolRoundTrip(z % 64);
    hide SymbolValue, Symbol;
    assert Symbols(quad);
    FourSymbols(quad);
    ShortNumbers(b[..3]);
  }

  /** Every three bytes become the four symbols that spell the same 24-bit number. */
  lemma {:induction false} EncodesByThrees(b: Bytes, k: nat)
    requires 3 * k + 3 <= |b|
    ensures |EncodeBase64(b)| >= 4 * k + 4
    ensures var quad := EncodeBase64(b)[4 * k..4 * k + 4];
            Symbols(quad) && SymbolNumber(quad) == GetBE(b[3 * k..3 * k + 3])
    decreases k
  {
    var enc := EncodeBase64(b);
    if k == 0 {
      EncodesThree(b);
    } else {
      hide SymbolValue, Symbol, GetBE, SymbolNumber, EncodeBase64;
      EncodesByThrees(b[3..], k - 1);
      EncodesFirst(b);
      assert enc[4 * k..4 * k + 4] == enc[4..][4 * (k - 1)..4 * (k - 1) + 4];
      assert b[3 * k..3 * k + 3] == b[3..][3 * (k - 1)..3 * (k - 1) + 3];
    }
  }

  lemma EncodesFirst(b: Bytes)
    requires |b| >= 3
    ensures |EncodeBase64(b)| == 4 + |EncodeBase64(b[3..])| && EncodeBase64(b)[4..] == EncodeBase64(b[3..])
  {
    hide Symbol;
  }

  lemma {:induction false} TailOf(b: Bytes)
    ensures var k := |b| / 3;
            && |EncodeBase64(b)| == (if |b| % 3 == 0 then 4 * k else 4 * k + 4)
            && EncodeBase64(b)[4 * k..] == EncodeBase64(b[3 * k..])
    decreases |b|
  {
    if |b| >= 3 {
      var k := |b| / 3;
      EncodesFirst(b);
      hide Symbol, EncodeBase64;
      TailOf(b[3..]);
      assert b[3 * k..] == b[3..][3 * (k - 1)..];
      assert EncodeBase64(b)[4 * k..] == EncodeBase64(b)[4..][4 * (k - 1)..];
    }
  }

  /** What is left over is padded: one byte becomes two symbols and "==", two bytes become three
      symbols and "=", with zeros in the unused bits. */
  ghost predicate PaddedGroup(left: Bytes, group: Bytes) {
    && |group| == 4 && 1 <= |left| <= 2
    && (|left| == 1 ==>
          Symbols(group[..2]) && group[2] == group[3] == '=' as int && SymbolNumber(group[..2]) == 16 * GetBE(left))
    && (|left| == 2 ==>
          Symbols(group[..3]) && group[3] == '=' as int && SymbolNumber(group[..3]) == 4 * GetBE(left))
  }

  lemma EncodesTail(b: Bytes)
    ensures |EncodeBase64(b)| == 4 * ((|b| + 2) / 3)
    ensures var group, left := EncodeBase64(b)[4 * (|b| / 3)..], b[3 * (|b| / 3)..];
            if left == [] then group == [] else PaddedGroup(left, group)
  {
    hide EncodeBase64, PaddedGroup;
    TailOf(b);
    var left := b[3 * (|b| / 3)..];
    if left != [] {
      EncodesShort(left);
    }
  }

  lemma EncodesShort(b: Bytes)
    requires 1 <= |b| <= 2
    ensures PaddedGroup(b, EncodeBase64(b))
  {
    hide Symbol, SymbolValue, EncodeBase64, GetBE, SymbolNumber;
    var enc := EncodeBase64(b);
    var x: int := b[0];
    ShortNumbers(b);
    SymbolRoundTrip(x / 4);
    if |b| == 1 {
      EncodesOne(b);
      SymbolRoundTrip(x % 4 * 16);
      assert Symbols(enc[..2]);
      TwoSymbols(enc[..2]);
    } else {
      var y: int := b[1];
      EncodesTwo(b);
      SymbolRoundTrip(x % 4 * 16 + y / 16);
      SymbolRoundTrip(y % 16 * 4);
      assert Symbols(enc[..3]);
      ThreeSymbols(enc[..3]);
    }
  }

  // ----- the lenient decoder -----

  /** The text with the unused low bits of its last symbol cleared. */
  function Canon(s: Bytes): (r: Bytes)
    ensures |r| == |s|
  {
    var n := |s|;
    if n < 4 || s[n - 1] != PAD then s
    else if s[n - 2] == PAD then
      if SymbolValue(s[n - 3]).None? then s else s[n - 3 := Symbol(SymbolValue(s[n - 3]).value / 16 * 16)]
    else if SymbolValue(s[n - 2]).None? then s
    else s[n - 2 := Symbol(SymbolValue(s[n - 2]).value / 4 * 4)]
  }

  lemma EncodedLength(b: Bytes)
    ensures |EncodeBase64(b)| == 4 * ((|b| + 2) / 3)
  {
    hide EncodeBase64;
    TailOf(b);
  }

  lemma {:induction false} DecodedLength(s: Bytes)
    requires DecodeBase64(s).Some?
    ensures |s| % 4 == 0
  {
    hide DecodeQuad, DecodeTail;
    if |s| > 4 {
      DecodedLength(s[4..]);
    }
  }

  lemma IsSymbol(c: Byte, v: int)
    requires 0 <= v < 64
    ensures c == Symbol(v) <==> SymbolValue(c) == Some(v)
    ensures c == Symbol(v) ==> c != PAD
  {
    SymbolRoundTrip(v);
  }

  lemma TwoParts(x: int, p: int, q: int)
    requires 0 <= x < 256 && 0 <= p < 64 && 0 <= q < 64
    ensures x == p * 4 + q / 16 <==> p == x / 4 && q / 16 * 16 == x % 4 * 16
  {
  }

  lemma FourOf(s: Bytes, a: Byte, b: Byte, c: Byte, d: Byte)
    requires |s| == 4
    ensures s == [a, b, c, d] <==> s[0] == a && s[1] == b && s[2] == c && s[3] == d
  {
  }

  lemma EncodesOne(b: Bytes)
    requires |b| == 1
    ensures var x: int := b[0]; EncodeBase64(b) == [Symbol(x / 4), Symbol(x % 4 * 16), PAD, PAD]
  {
  }

  /** A last group of two symbols. */
  lemma PaddedTwice(s: Bytes, b: Bytes)
    requires |s| == 4 && s[3] == PAD && s[2] == PAD && |b| == 1
    ensures DecodeTail(s) == Some(b) <==> Canon(s) == EncodeBase64(b)
  {
    hide Symbol, SymbolValue, EncodeBase64;
    var x: int := b[0];
    EncodesOne(b);
    IsSymbol(s[0], x / 4);
    IsSymbol(s[1], x % 4 * 16);
    var c := Canon(s);
    FourOf(c, Symbol(x / 4), Symbol(x % 4 * 16), PAD, PAD);
    var p, q := SymbolValue(s[0]), SymbolValue(s[1]);
    if p.Some? && q.Some? {
      TwoParts(x, p.value, q.value);
      IsSymbol(Symbol(q.value / 16 * 16), q.value / 16 * 16);
      IsSymbol(Symbol(q.value / 16 * 16), x % 4 * 16);
      assert c[0] == s[0] && c[1] == Symbol(q.value / 16 * 16) && c[2] == PAD && c[3] == PAD;
      assert DecodeTail(s) == Some([p.value * 4 + q.value / 16]);
      assert b == [b[0]];
    }
  }

  lemma ThreeParts(x: int, y: int, p: int, q: int, t: int)
    requires 0 <= x < 256 && 0 <= y < 256 && 0 <= p < 64 && 0 <= q < 64 && 0 <= t < 64
    ensures x == p * 4 + q / 16 && y == q % 16 * 16 + t / 4
       <==> p == x / 4 && q == x % 4 * 16 + y / 16 && t / 4 * 4 == y % 16 * 4
  {
    if x == p * 4 + q / 16 && y == q % 16 * 16 + t / 4 {
      assert y / 16 == q % 16 && y % 16 == t / 4;
    }
  }

  lemma EncodesTwo(b: Bytes)
    requires |b| == 2
    ensures var x: int, y: int := b[0], b[1];
            EncodeBase64(b) == [Symbol(x / 4), Symbol(x % 4 * 16 + y / 16), Symbol(y % 16 * 4), PAD]
  {
  }

  /** A last group of three symbols. */
  lemma PaddedOnce(s: Bytes, b: Bytes)
    requires |s| == 4 && s[3] == PAD && s[2] != PAD && |b| == 2
    ensures DecodeTail(s) == Some(b) <==> Canon(s) == EncodeBase64(b)
  {
    hide Symbol, SymbolValue, EncodeBase64;
    var x: int, y: int := b[0], b[1];
    EncodesTwo(b);
    IsSymbol(s[0], x / 4);
    IsSymbol(s[1], x % 4 * 16 + y / 16);
    IsSymbol(s[2], y % 16 * 4);
    var c := Canon(s);
    FourOf(c, Symbol(x / 4), Symbol(x % 4 * 16 + y / 16), Symbol(y % 16 * 4), PAD);
    var p, q, t := SymbolValue(s[0]), SymbolValue(s[1]), SymbolValue(s[2]);
    if p.Some? && q.Some? && t.Some? {
      ThreeParts(x, y, p.value, q.value, t.value);
      IsSymbol(Symbol(t.value / 4 * 4), t.value / 4 * 4);
      IsSymbol(Symbol(t.value / 4 * 4), y % 16 * 4);
      assert c[0] == s[0] && c[1] == s[1] && c[2] == Symbol(t.value / 4 * 4) && c[3] == PAD;
      assert b == [b[0], b[1]];
    }
  }

  lemma FourParts(x: int, y: int, z: int, p: int, q: int, t: int, u: int)
    requires 0 <= x < 256 && 0 <= y < 256 && 0 <= z < 256 && 0 <= p < 64 && 0 <= q < 64 && 0 <= t < 64 && 0 <= u < 64
    ensures x == p * 4 + q / 16 && y == q % 16 * 16 + t / 4 && z == t % 4 * 64 + u
       <==> p == x / 4 && q == x % 4 * 16 + y / 16 && t == y % 16 * 4 + z / 64 && u == z % 64
  {
    if x == p * 4 + q / 16 && y == q % 16 * 16 + t / 4 && z == t % 4 * 64 + u {
      assert y / 16 == q % 16 && y % 16 == t / 4 && z / 64 == t % 4;
    }
  }

  lemma EncodesFull(b: Bytes)
    requires |b| == 3
    ensures var x: int, y: int, z: int := b[0], b[1], b[2];
            EncodeBase64(b) == [Symbol(x / 4), Symbol(x % 4 * 16 + y / 16), Symbol(y % 16 * 4 + z / 64), Symbol(z % 64)]
  {
    assert b[3..] == [];
  }

  /** A full group. */
  lemma Unpadded(s: Bytes, b: Bytes)
    requires |s| == 4 && |b| == 3
    ensures DecodeQuad(s) == Some(b) <==> s == EncodeBase64(b)
  {
    hide Symbol, SymbolValue, EncodeBase64;
    var x: int, y: int, z: int := b[0], b[1], b[2];
    EncodesFull(b);
    IsSymbol(s[0], x / 4);
    IsSymbol(s[1], x % 4 * 16 + y / 16);
    IsSymbol(s[2], y % 16 * 4 + z / 64);
    IsSymbol(s[3], z % 64);
    FourOf(s, Symbol(x / 4), Symbol(x % 4 * 16 + y / 16), Symbol(y % 16 * 4 + z / 64), Symbol(z % 64));
    var p, q, t, u := SymbolValue(s[0]), SymbolValue(s[1]), SymbolValue(s[2]), SymbolValue(s[3]);
    if p.Some? && q.Some? && t.Some? && u.Some? {
      FourParts(x, y, z, p.value, q.value, t.value, u.value);
      assert b == [b[0], b[1], b[2]];
    }
  }

  /** The padding of an encoding tells how many bytes its last group holds. */
  lemma PaddingTells(b: Bytes)
    requires 1 <= |b| <= 3
    ensures var enc := EncodeBase64(b);
            |enc| == 4 && (enc[3] == PAD <==> |b| <= 2) && (enc[2] == PAD <==> |b| == 1)
  {
    if |b| == 1 {
      EncodesOne(b);
    } else if |b| == 2 {
      EncodesTwo(b);
      IsSymbol(EncodeBase64(b)[2], b[1] as int % 16 * 4);
    } else {
      EncodesFull(b);
      IsSymbol(EncodeBase64(b)[2], b[1] as int % 16 * 4 + b[2] as int / 64);
      IsSymbol(EncodeBase64(b)[3], b[2] as int % 64);
    }
  }

  /** A text of one group. */
  lemma OneGroup(s: Bytes, b: Bytes)
    requires |s| == 4
    ensures DecodeBase64(s) == Some(b) <==> Canon(s) == EncodeBase64(b)
  {
    hide EncodeBase64, DecodeQuad, DecodeTail, Canon;
    EncodedLength(b);
    GroupDecodes(s);
    CanonKeepsPadding(s);
    if 1 <= |b| <= 3 {
      PaddingTells(b);
      if s[3] != PAD {
        if |b| == 3 {
          Unpadded(s, b);
        }
      } else if s[2] == PAD {
        if |b| == 1 {
          PaddedTwice(s, b);
        }
      } else if |b| == 2 {
        PaddedOnce(s, b);
      }
    }
  }

  lemma GroupDecodes(s: Bytes)
    requires |s| == 4
    ensures s[3] == PAD ==> DecodeBase64(s) == DecodeTail(s)
    ensures s[3] != PAD ==> DecodeBase64(s) == DecodeQuad(s)
    ensures DecodeBase64(s).Some? ==>
              |DecodeBase64(s).value| == if s[3] != PAD then 3 else if s[2] == PAD then 1 else 2
  {
    hide SymbolValue;
    assert s[..4] == s && s[4..] == [];
    assert DecodeBase64([]) == Some([]);
    if DecodeQuad(s).Some? {
      assert DecodeQuad(s).value + [] == DecodeQuad(s).value;
    }
  }

  lemma CanonKeepsPadding(s: Bytes)
    requires |s| == 4
    ensures Canon(s)[3] == s[3] && (s[3] != PAD ==> Canon(s) == s)
    ensures s[3] == PAD ==> (Canon(s)[2] == PAD <==> s[2] == PAD)
  {
    var v := SymbolValue(s[2]);
    if v.Some? {
      SymbolRoundTrip(v.value / 4 * 4);
    }
  }

  lemma CanonSplits(s: Bytes)
    requires |s| >= 8
    ensures Canon(s)[..4] == s[..4] && Canon(s)[4..] == Canon(s[4..])
  {
    hide SymbolValue, Symbol;
  }

  /** The decoder accepts exactly the spellings of an encoding: the canonical text, up to the unused
      low bits of its last symbol. */
  lemma {:induction false} DecodesExactly(s: Bytes, b: Bytes)
    ensures DecodeBase64(s) == Some(b) <==> Canon(s) == EncodeBase64(b)
    decreases |s|, 1
  {
    hide EncodeBase64, DecodeQuad, DecodeTail, Canon, DecodeBase64;
    EncodedLength(b);
    if DecodeBase64(s).Some? {
      DecodedLength(s);
    }
    if s == [] {
      NothingDecodes(b);
    } else if |s| == 4 {
      OneGroup(s, b);
    } else if |s| >= 8 && |b| > 3 {
      FirstAndRest(s, b);
    } else if |s| >= 8 && DecodeBase64(s).Some? {
      CanonSplits(s);
      FirstGroup(s);
      DecodesExactly(s[4..], DecodeBase64(s[4..]).value);
      EncodedLength(DecodeBase64(s[4..]).value);
    }
  }

  lemma FirstAndRest(s: Bytes, b: Bytes)
    requires |s| >= 8 && |b| > 3
    ensures DecodeBase64(s) == Some(b) <==> Canon(s) == EncodeBase64(b)
    decreases |s|, 0
  {
    hide EncodeBase64, DecodeQuad, DecodeTail, Canon, DecodeBase64;
    CanonSplits(s);
    FirstGroup(s);
    EncodesFirst(b);
    FirstEncodes(b);
    DecodesExactly(s[4..], b[3..]);
    Unpadded(s[..4], b[..3]);
    PaddingTells(b[..3]);
    assert s[..4][3] == s[3] && EncodeBase64(b)[..4][3] == EncodeBase64(b[..3])[3];
    if DecodeQuad(s[..4]).Some? && DecodeBase64(s[4..]).Some? {
      PartsOf(DecodeQuad(s[..4]).value, DecodeBase64(s[4..]).value, b, 3);
    }
    PartsOf(Canon(s)[..4], Canon(s)[4..], EncodeBase64(b), 4);
    assert Canon(s) == Canon(s)[..4] + Canon(s)[4..];
  }

  lemma PartsOf(x: Bytes, y: Bytes, b: Bytes, n: nat)
    requires |x| == n <= |b|
    ensures x + y == b <==> x == b[..n] && y == b[n..]
  {
    if x == b[..n] && y == b[n..] {
      assert x + y == b;
    }
    if x + y == b {
      assert (x + y)[..n] == x && (x + y)[n..] == y;
    }
  }

  lemma NothingDecodes(b: Bytes)
    ensures DecodeBase64([]) == Some([]) && Canon([]) == [] && (EncodeBase64(b) == [] <==> b == [])
  {
    hide Symbol;
  }

  lemma FirstEncodes(b: Bytes)
    requires |b| >= 3
    ensures |EncodeBase64(b)| >= 4 && EncodeBase64(b)[..4] == EncodeBase64(b[..3])
  {
    hide Symbol;
    assert b[..3][3..] == [];
  }

  lemma FirstGroup(s: Bytes)
    requires |s| >= 8
    ensures DecodeBase64(s) == if s[3] == PAD || DecodeQuad(s[..4]).None? || DecodeBase64(s[4..]).None? then None
                               else Some(DecodeQuad(s[..4]).value + DecodeBase64(s[4..]).value)
    ensures DecodeQuad(s[..4]).Some? ==> |DecodeQuad(s[..4]).value| == 3
  {
    hide SymbolValue;
  }

  /** A hash line is accepted exactly if, line breaks aside, it spells 32 bytes. */
  lemma HashLineExactly(line: Bytes, h: Bytes)
    ensures ParseHash(line) == Some(h) <==> |h| == 32 && Canon(SkipBreaks(line)) == EncodeBase64(h)
  {
    hide EncodeBase64, DecodeBase64, Canon, SkipBreaks;
    DecodesExactly(SkipBreaks(line), h);
  }
}
