/** The add-checkpoint request body: the printer of internal/witness/wire.go, the parser of
    internal/witness/witness.go, and the base64 hash lines between them. */
module Wire {
  import opened Common

  const MAX_PROOF_LINES := 63
  const HASH_SIZE := 32
  const MAX_INT64 := 0x7FFF_FFFF_FFFF_FFFF
  const PAD: Byte := 61
  const MINUS: Byte := 45
  const OLD_PREFIX: Bytes := [111, 108, 100, 32]

  datatype Request = Request(size: nat, proof: seq<Bytes>, note: Bytes)

  // ----- lines -----

  predicate OneLine(b: Bytes) {
    NEWLINE !in b
  }

  /** bytes.Cut at the first newline. */
  function CutLine(b: Bytes): (r: Option<(Bytes, Bytes)>)
    ensures r.None? ==> OneLine(b)
    ensures r.Some? ==> OneLine(r.value.0) && b == r.value.0 + [NEWLINE] + r.value.1
  {
    if b == [] then None
    else if b[0] == NEWLINE then Some(([], b[1..]))
    else
      match CutLine(b[1..])
      case None => None
      case Some((line, rest)) =>
        assert b == [b[0]] + b[1..];
        Some(([b[0]] + line, rest))
  }

  lemma {:induction false} CutFinds(line: Bytes, rest: Bytes)
    requires OneLine(line)
    ensures CutLine(line + [NEWLINE] + rest) == Some((line, rest))
  {
    var b := line + [NEWLINE] + rest;
    if line == [] {
      assert b[1..] == rest;
    } else {
      CutFinds(line[1..], rest);
      assert b[0] == line[0] && b[1..] == line[1..] + [NEWLINE] + rest;
      assert [line[0]] + line[1..] == line;
    }
  }

  // ----- base64 -----

  function Symbol(v: int): Byte
    requires 0 <= v < 64
  {
    if v < 26 then 65 + v else if v < 52 then 71 + v else if v < 62 then v - 4 else if v == 62 then 43 else 47
  }

  function SymbolValue(c: Byte): (r: Option<int>)
    ensures r.Some? ==> 0 <= r.value < 64 && Symbol(r.value) == c
  {
    if 65 <= c <= 90 then Some(c - 65)
    else if 97 <= c <= 122 then Some(c - 71)
    else if 48 <= c <= 57 then Some(c + 4)
    else if c == 43 then Some(62)
    else if c == 47 then Some(63)
    else None
  }

  function EncodeBase64(b: Bytes): Bytes {
    if |b| == 0 then []
    else if |b| == 1 then [Symbol(b[0] / 4), Symbol(b[0] % 4 * 16), PAD, PAD]
    else if |b| == 2 then
      [Symbol(b[0] / 4), Symbol(b[0] % 4 * 16 + b[1] / 16), Symbol(b[1] % 16 * 4), PAD]
    else
      [Symbol(b[0] / 4), Symbol(b[0] % 4 * 16 + b[1] / 16), Symbol(b[1] % 16 * 4 + b[2] / 64), Symbol(b[2] % 64)]
      + EncodeBase64(b[3..])
  }

  /** The lenient standard decoder: unused low bits of the final symbol are ignored. */
  function DecodeBase64(s: Bytes): Option<Bytes> {
    if s == [] then Some([])
    else if |s| < 4 then None
    else if s[3] == PAD then
      if |s| == 4 then DecodeTail(s) else None
    else
      match (DecodeQuad(s[..4]), DecodeBase64(s[4..]))
      case (Some(quad), Some(rest)) => Some(quad + rest)
      case _ => None
  }

  function DecodeQuad(s: Bytes): Option<Bytes>
    requires |s| == 4
  {
    match (SymbolValue(s[0]), SymbolValue(s[1]), SymbolValue(s[2]), SymbolValue(s[3]))
    case (Some(p), Some(q), Some(t), Some(u)) => Some([p * 4 + q / 16, q % 16 * 16 + t / 4, t % 4 * 64 + u])
    case _ => None
  }

  function DecodeTail(s: Bytes): Option<Bytes>
    requires |s| == 4
  {
    if SymbolValue(s[0]).None? || SymbolValue(s[1]).None? then None
    else
      var p, q := SymbolValue(s[0]).value, SymbolValue(s[1]).value;
      if s[2] == PAD then Some([p * 4 + q / 16])
      else if SymbolValue(s[2]).None? then None
      else Some([p * 4 + q / 16, q % 16 * 16 + SymbolValue(s[2]).value / 4])
  }

  lemma SymbolRoundTrip(v: int)
    requires 0 <= v < 64
    ensures SymbolValue(Symbol(v)) == Some(v) && Symbol(v) !in {10, 13, PAD}
  {
  }

  lemma Unpack(hi: int, lo: int)
    ensures 0 <= lo < 16 ==> (hi * 16 + lo) / 16 == hi && (hi * 16 + lo) % 16 == lo
    ensures 0 <= lo < 4 ==> (hi * 4 + lo) / 4 == hi && (hi * 4 + lo) % 4 == lo
  {
  }

  lemma QuadRoundTrip(a: Byte, b: Byte, c: Byte)
    ensures DecodeQuad([Symbol(a / 4), Symbol(a % 4 * 16 + b / 16), Symbol(b % 16 * 4 + c / 64), Symbol(c % 64)])
         == Some([a, b, c])
  {
    SymbolRoundTrip(a / 4);
    SymbolRoundTrip(a % 4 * 16 + b / 16);
    SymbolRoundTrip(b % 16 * 4 + c / 64);
    SymbolRoundTrip(c % 64);
    Unpack(a % 4, b / 16);
    Unpack(b % 16, c / 64);
  }

  lemma TailRoundTrip(a: Byte, b: Byte)
    ensures DecodeTail([Symbol(a / 4), Symbol(a % 4 * 16 + b / 16), Symbol(b % 16 * 4), PAD]) == Some([a, b])
    ensures DecodeTail([Symbol(a / 4), Symbol(a % 4 * 16), PAD, PAD]) == Some([a])
  {
    SymbolRoundTrip(a / 4);
    SymbolRoundTrip(a % 4 * 16 + b / 16);
    SymbolRoundTrip(a % 4 * 16);
    SymbolRoundTrip(b % 16 * 4);
    Unpack(a % 4, b / 16);
    Unpack(a % 4, 0);
    Unpack(b % 16, 0);
  }

  lemma DecodeStep(quad: Bytes, rest: Bytes)
    requires |quad| == 4 && quad[3] != PAD && DecodeQuad(quad).Some? && DecodeBase64(rest).Some?
    ensures DecodeBase64(quad + rest) == Some(DecodeQuad(quad).value + DecodeBase64(rest).value)
  {
    assert (quad + rest)[..4] == quad && (quad + rest)[4..] == rest;
  }

  lemma DecodeLast(s: Bytes)
    requires |s| == 4 && s[3] == PAD
    ensures DecodeBase64(s) == DecodeTail(s)
  {
    hide DecodeTail, DecodeQuad;
  }

  lemma ShortRoundTrip(b: Bytes)
    requires 1 <= |b| <= 2
    ensures DecodeBase64(EncodeBase64(b)) == Some(b)
  {
    hide Symbol, SymbolValue, DecodeQuad, DecodeTail, DecodeBase64;
    DecodeLast(EncodeBase64(b));
    if |b| == 1 {
      TailRoundTrip(b[0], 0);
      assert b == [b[0]];
    } else {
      TailRoundTrip(b[0], b[1]);
      assert b == [b[0], b[1]];
    }
  }

  lemma {:induction false} Base64RoundTrip(b: Bytes)
    ensures DecodeBase64(EncodeBase64(b)) == Some(b)
  {
    hide Symbol, SymbolValue, DecodeQuad, DecodeTail;
    if 1 <= |b| <= 2 {
      ShortRoundTrip(b);
    } else if |b| >= 3 {
      hide DecodeBase64;
      Base64RoundTrip(b[3..]);
      QuadRoundTrip(b[0], b[1], b[2]);
      SymbolRoundTrip(b[2] % 64);
      DecodeStep([Symbol(b[0] / 4), Symbol(b[0] % 4 * 16 + b[1] / 16), Symbol(b[1] % 16 * 4 + b[2] / 64), Symbol(b[2] % 64)],
                 EncodeBase64(b[3..]));
      assert b == [b[0], b[1], b[2]] + b[3..];
    }
  }

  lemma {:induction false} Base64OneLine(b: Bytes)
    ensures forall i :: 0 <= i < |EncodeBase64(b)| ==> EncodeBase64(b)[i] !in {10, 13}
    ensures b != [] ==> EncodeBase64(b) != []
  {
    if |b| >= 3 {
      Base64OneLine(b[3..]);
    }
  }

  /** The decoder skips carriage returns and newlines. */
  function SkipBreaks(s: Bytes): Bytes {
    if s == [] then []
    else if s[0] in {10, 13} then SkipBreaks(s[1..])
    else [s[0]] + SkipBreaks(s[1..])
  }

  lemma {:induction false} NothingToSkip(s: Bytes)
    requires forall i :: 0 <= i < |s| ==> s[i] !in {10, 13}
    ensures SkipBreaks(s) == s
  {
    if s != [] {
      NothingToSkip(s[1..]);
    }
  }

  /** tlog.ParseHash. */
  function ParseHash(line: Bytes): (r: Option<Bytes>)
    ensures r.Some? ==> |r.value| == HASH_SIZE
  {
    match DecodeBase64(SkipBreaks(line))
    case Some(h) => if |h| == HASH_SIZE then Some(h) else None
    case None => None
  }

  lemma HashLineRoundTrip(h: Bytes)
    requires |h| == HASH_SIZE
    ensures ParseHash(EncodeBase64(h)) == Some(h) && OneLine(EncodeBase64(h)) && EncodeBase64(h) != []
  {
    Base64RoundTrip(h);
    Base64OneLine(h);
    NothingToSkip(EncodeBase64(h));
  }

  // ----- requests -----

  /** The old size is accepted only in the canonical form that strconv.FormatInt prints. */
  function ParseSize(s: Bytes): Option<nat> {
    if s != [] && AllDigits(s) && DecimalValue(s) <= MAX_INT64 && s == Decimal(DecimalValue(s))
    then Some(DecimalValue(s)) else None
  }

  function ParseProof(rest: Bytes, room: nat): Option<(seq<Bytes>, Bytes)>
    decreases |rest|
  {
    match CutLine(rest)
    case None => None
    case Some((line, tail)) =>
      if line == [] then Some(([], tail))
      else if room == 0 then None
      else
        match (ParseHash(line), ParseProof(tail, room - 1))
        case (Some(h), Some((hs, note))) => Some(([h] + hs, note))
        case _ => None
  }

  function ParseBody(body: Bytes): Option<Request> {
    match CutLine(body)
    case None => None
    case Some((line, rest)) =>
      if !(OLD_PREFIX <= line) then None
      else
        match (ParseSize(line[4..]), ParseProof(rest, MAX_PROOF_LINES))
        case (Some(size), Some((proof, note))) => if note == [] then None else Some(Request(size, proof, note))
        case _ => None
  }

  function ProofText(proof: seq<Bytes>): Bytes {
    if proof == [] then [] else EncodeBase64(proof[0]) + [NEWLINE] + ProofText(proof[1..])
  }

  function RequestText(r: Request): Bytes {
    OLD_PREFIX + Decimal(r.size) + [NEWLINE] + (ProofText(r.proof) + [NEWLINE] + r.note)
  }

  ghost predicate HashesFit(proof: seq<Bytes>) {
    forall i :: 0 <= i < |proof| ==> |proof[i]| == HASH_SIZE
  }

  lemma {:induction false} ProofRoundTrip(proof: seq<Bytes>, note: Bytes, room: nat)
    requires HashesFit(proof) && |proof| <= room
    ensures ParseProof(ProofText(proof) + [NEWLINE] + note, room) == Some((proof, note))
  {
    hide EncodeBase64, ParseHash, CutLine;
    var text := ProofText(proof) + [NEWLINE] + note;
    if proof == [] {
      CutFinds([], note);
    } else {
      var tail := ProofText(proof[1..]) + [NEWLINE] + note;
      HashLineRoundTrip(proof[0]);
      assert text == EncodeBase64(proof[0]) + [NEWLINE] + tail;
      CutFinds(EncodeBase64(proof[0]), tail);
      ProofRoundTrip(proof[1..], note, room - 1);
      assert [proof[0]] + proof[1..] == proof;
    }
  }

  /** Everything the printer can say within the protocol's limits, the parser reads back. */
  lemma RequestRoundTrip(r: Request)
    requires r.size <= MAX_INT64 && HashesFit(r.proof) && |r.proof| <= MAX_PROOF_LINES && r.note != []
    ensures ParseBody(RequestText(r)) == Some(r)
  {
    var line := OLD_PREFIX + Decimal(r.size);
    var rest := ProofText(r.proof) + [NEWLINE] + r.note;
    assert RequestText(r) == line + [NEWLINE] + rest;
    CutFinds(line, rest);
    assert line[4..] == Decimal(r.size);
    DecimalRoundTrip(r.size);
    ProofRoundTrip(r.proof, r.note, MAX_PROOF_LINES);
  }

  /** More hashes than the limit are refused, whatever they are. */
  lemma {:induction false} LongProofRefused(proof: seq<Bytes>, note: Bytes, room: nat)
    requires HashesFit(proof) && |proof| > room
    ensures ParseProof(ProofText(proof) + [NEWLINE] + note, room) == None
  {
    hide EncodeBase64, ParseHash, CutLine;
    var tail := ProofText(proof[1..]) + [NEWLINE] + note;
    HashLineRoundTrip(proof[0]);
    assert ProofText(proof) + [NEWLINE] + note == EncodeBase64(proof[0]) + [NEWLINE] + tail;
    CutFinds(EncodeBase64(proof[0]), tail);
    if room > 0 {
      LongProofRefused(proof[1..], note, room - 1);
    }
  }

  lemma LongBodyRefused(r: Request)
    requires HashesFit(r.proof) && |r.proof| > MAX_PROOF_LINES
    ensures ParseBody(RequestText(r)) == None
  {
    hide ParseProof, ProofText, CutLine, ParseSize;
    var line := OLD_PREFIX + Decimal(r.size);
    var rest := ProofText(r.proof) + [NEWLINE] + r.note;
    LongProofRefused(r.proof, r.note, MAX_PROOF_LINES);
    assert RequestText(r) == line + [NEWLINE] + rest;
    CutFinds(line, rest);
  }

  /** Every hash line is spelled the way the printer spells it. */
  predicate CanonicalLines(rest: Bytes)
    decreases |rest|
  {
    match CutLine(rest)
    case None => true
    case Some((line, tail)) =>
      line == [] || (ParseHash(line).Some? && EncodeBase64(ParseHash(line).value) == line && CanonicalLines(tail))
  }

  lemma {:induction false} ProofReprint(rest: Bytes, room: nat)
    requires ParseProof(rest, room).Some?
    ensures HashesFit(ParseProof(rest, room).value.0) && |ParseProof(rest, room).value.0| <= room
    ensures var (hs, note) := ParseProof(rest, room).value;
            ProofText(hs) + [NEWLINE] + note == rest <==> CanonicalLines(rest)
    decreases |rest|
  {
    hide EncodeBase64, ParseHash, CutLine;
    var (line, tail) := CutLine(rest).value;
    var (hs, note) := ParseProof(rest, room).value;
    if line == [] {
      assert ProofText(hs) + [NEWLINE] + note == rest;
    } else {
      ProofReprint(tail, room - 1);
      var h := ParseHash(line).value;
      var (more, _) := ParseProof(tail, room - 1).value;
      assert hs[1..] == more;
      var reprinted := ProofText(more) + [NEWLINE] + note;
      assert ProofText(hs) + [NEWLINE] + note == EncodeBase64(h) + [NEWLINE] + reprinted;
      HashLineRoundTrip(h);
      CutFinds(EncodeBase64(h), reprinted);
      CutFinds(line, tail);
    }
  }

  /** An accepted body re-encodes to itself exactly when its hash lines are canonical. */
  lemma AcceptedBodyReprints(body: Bytes)
    requires ParseBody(body).Some?
    ensures RequestText(ParseBody(body).value) == body <==> CanonicalLines(CutLine(body).value.1)
  {
    var (line, rest) := CutLine(body).value;
    var r := ParseBody(body).value;
    ProofReprint(rest, MAX_PROOF_LINES);
    assert line == OLD_PREFIX + line[4..];
    var reprinted := ProofText(r.proof) + [NEWLINE] + r.note;
    assert RequestText(r) == line + [NEWLINE] + reprinted;
    CutFinds(line, reprinted);
    CutFinds(line, rest);
  }

  /** Canonical spelling is a real condition: a hash line that ends in a carriage return is accepted. */
  lemma NonCanonicalLineAccepted()
    ensures exists line :: ParseHash(line).Some? && EncodeBase64(ParseHash(line).value) != line
  {
    var h := Zeros(HASH_SIZE);
    HashLineRoundTrip(h);
    var line := EncodeBase64(h) + [13];
    Base64RoundTrip(h);
    Base64OneLine(h);
    SkipLastBreak(EncodeBase64(h));
    assert ParseHash(line) == Some(h);
  }

  lemma {:induction false} SkipLastBreak(s: Bytes)
    requires forall i :: 0 <= i < |s| ==> s[i] !in {10, 13}
    ensures SkipBreaks(s + [13]) == s
  {
    if s == [] {
      assert SkipBreaks([13]) == SkipBreaks([]);
    } else {
      SkipLastBreak(s[1..]);
      assert (s + [13])[1..] == s[1..] + [13];
    }
  }

  // ----- the loops of the source -----

  /** What fmt prints for an int64. */
  function FormatInt(n: int): Bytes {
    if n < 0 then [MINUS] + Decimal(-n) else Decimal(n)
  }

  /** The printer does not mind a negative size; the parser refuses it. */
  lemma NegativeSizeRefused(size: int, rest: Bytes)
    requires size < 0
    ensures ParseBody(OLD_PREFIX + FormatInt(size) + [NEWLINE] + rest) == None
  {
    hide ParseProof, CutLine, Decimal, DecimalValue;
    var line := OLD_PREFIX + FormatInt(size);
    CutFinds(line, rest);
    assert line[4..][0] == MINUS;
  }

  method EncodeAddCheckpoint(size: int, proof: seq<Bytes>, note: Bytes) returns (b: Bytes)
    ensures b == OLD_PREFIX + FormatInt(size) + [NEWLINE] + (ProofText(proof) + [NEWLINE] + note)
    ensures size >= 0 ==> b == RequestText(Request(size, proof, note))
    ensures size < 0 ==> ParseBody(b) == None
  {
    hide ParseBody;
    b := OLD_PREFIX + FormatInt(size) + [NEWLINE];
    var i := 0;
    ghost var head := b;
    assert head + ProofText(proof[0..]) == head + ProofText(proof) by { assert proof[0..] == proof; }
    while i < |proof|
      invariant 0 <= i <= |proof|
      invariant b + ProofText(proof[i..]) == head + ProofText(proof)
    {
      ghost var before := b;
      b := b + (EncodeBase64(proof[i]) + [NEWLINE]);
      assert proof[i..][1..] == proof[i + 1..];
      assert b + ProofText(proof[i + 1..]) == before + ProofText(proof[i..]);
      i := i + 1;
    }
    assert b == head + ProofText(proof);
    b := b + [NEWLINE];
    b := b + note;
    assert b == head + (ProofText(proof) + [NEWLINE] + note);
    if size < 0 {
      NegativeSizeRefused(size, ProofText(proof) + [NEWLINE] + note);
    }
  }

  method ParseRequest(body: Bytes) returns (r: Option<Request>)
    ensures r == ParseBody(body)
  {
    var cut := CutLine(body);
    if cut.None? || !(OLD_PREFIX <= cut.value.0) {
      return None;
    }
    var size := ParseSize(cut.value.0[4..]);
    if size.None? {
      return None;
    }
    var parsed := ReadProofLines(cut.value.1);
    if parsed.None? || parsed.value.1 == [] {
      return None;
    }
    return Some(Request(size.value, parsed.value.0, parsed.value.1));
  }

  /** The loop over proof lines inside parseRequest. */
  method ReadProofLines(body: Bytes) returns (r: Option<(seq<Bytes>, Bytes)>)
    ensures r == ParseProof(body, MAX_PROOF_LINES)
  {
    var rest := body;
    var proof: seq<Bytes> := [];
    PrependNothing(ParseProof(body, MAX_PROOF_LINES));
    while true
      invariant |proof| <= MAX_PROOF_LINES
      invariant Prepend(proof, ParseProof(rest, MAX_PROOF_LINES - |proof|)) == ParseProof(body, MAX_PROOF_LINES)
      decreases |rest|
    {
      var cut := CutLine(rest);
      if cut.None? {
        return None;
      }
      var line, tail := cut.value.0, cut.value.1;
      if line == [] {
        assert proof + [] == proof;
        return Some((proof, tail));
      }
      if |proof| == MAX_PROOF_LINES {
        return None;
      }
      var h := ParseHash(line);
      if h.None? {
        return None;
      }
      PrependSnoc(proof, h.value, ParseProof(tail, MAX_PROOF_LINES - |proof| - 1));
      proof := proof + [h.value];
      rest := tail;
    }
  }

  ghost function Prepend(proof: seq<Bytes>, parsed: Option<(seq<Bytes>, Bytes)>): Option<(seq<Bytes>, Bytes)> {
    match parsed
    case None => None
    case Some((hs, note)) => Some((proof + hs, note))
  }

  lemma PrependNothing(parsed: Option<(seq<Bytes>, Bytes)>)
    ensures Prepend([], parsed) == parsed
  {
    if parsed.Some? {
      assert [] + parsed.value.0 == parsed.value.0;
    }
  }

  lemma PrependSnoc(proof: seq<Bytes>, h: Bytes, parsed: Option<(seq<Bytes>, Bytes)>)
    ensures Prepend(proof + [h], parsed) == Prepend(proof, Prepend([h], parsed))
  {
    if parsed.Some? {
      assert proof + [h] + parsed.value.0 == proof + ([h] + parsed.value.0);
    }
  }
}
