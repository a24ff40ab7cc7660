/** The two slots on the card: where their bytes lie, what a blob looks like in them, and how it
    is saved and loaded. */
module Slots {
  import opened Common
  import opened Merkle
  import opened StoreModel
  import Payload

  const SLOT_SIZE := 0x1_0000
  const KEY_LEN := 32
  const TAG_LEN := 16
  const NONCE_LEN := 16
  const NONCE_OFFSET := 16
  const HEADER_LEN := 32
  const MAGIC: Bytes := [86, 73, 84, 82, 85, 77, 87, 50]

  // ----- geometry -----

  const TWO_63 := 0x8000_0000_0000_0000

  /** Two's complement int64 arithmetic. */
  function Wrap64(x: int): int {
    (x + TWO_63) % (2 * TWO_63) - TWO_63
  }

  /** Go's division and remainder truncate toward zero. */
  function TruncDiv(a: int, b: int): int
    requires b > 0
  {
    if a >= 0 then a / b else -((-a) / b)
  }

  function TruncMod(a: int, b: int): int
    requires b > 0
  {
    a - b * TruncDiv(a, b)
  }

  function SlotLBA(blockSize: int, blocks: int, offset: int, slot: nat): Option<int> {
    if blockSize <= 0 || SLOT_SIZE % blockSize != 0 || TruncMod(offset, blockSize) != 0 then None
    else
      var slotOffset := Wrap64(offset + slot * SLOT_SIZE);
      if TruncDiv(Wrap64(slotOffset + SLOT_SIZE), blockSize) > blocks then None
      else Some(TruncDiv(slotOffset, blockSize))
  }

  /** The block range [lba, lba + SLOT_SIZE / blockSize) lies on the device and holds exactly the
      bytes of the slot. */
  predicate Inside(blockSize: int, blocks: int, offset: int, slot: nat, lba: int)
    requires blockSize > 0
  {
    && lba >= 0
    && lba * blockSize == offset + slot * SLOT_SIZE
    && lba * blockSize + SLOT_SIZE <= blocks * blockSize
  }

  lemma Exact(a: int, b: int)
    requires a >= 0 && b > 0 && a % b == 0
    ensures a == a / b * b
  {
  }

  lemma DivSum(a: int, c: int, b: int)
    requires a >= 0 && c >= 0 && b > 0 && a % b == 0 && c % b == 0
    ensures (a + c) % b == 0 && (a + c) / b == a / b + c / b
  {
    var x, y := a / b, c / b;
    Exact(a, b);
    Exact(c, b);
    assert a + c == (x + y) * b;
    MulDiv(x + y, b);
  }

  lemma MulDiv(q: int, b: int)
    requires b > 0 && q >= 0
    ensures (q * b) / b == q && (q * b) % b == 0
  {
    var d := (q * b) / b;
    assert d * b <= q * b < d * b + b;
    Scale(d + 1, q, b);
    Scale(q + 1, d, b);
  }

  lemma Scale(x: int, y: int, b: int)
    requires b > 0
    ensures x <= y <==> x * b <= y * b
  {
  }

  /** For every non-negative offset and every device of less than 2^63 bytes, an accepted slot lies
      inside the device exactly when its end does not overflow an int64. */
  lemma SlotInsideExactly(blockSize: int, blocks: int, offset: int, slot: nat)
    requires blockSize > 0 && 0 <= offset < TWO_63 && slot < 2 && 0 <= blocks * blockSize < TWO_63
    requires SlotLBA(blockSize, blocks, offset, slot).Some?
    ensures Inside(blockSize, blocks, offset, slot, SlotLBA(blockSize, blocks, offset, slot).value)
       <==> offset + (slot + 1) * SLOT_SIZE < TWO_63
  {
    var start := offset + slot * SLOT_SIZE;
    var end := start + SLOT_SIZE;
    var lba := SlotLBA(blockSize, blocks, offset, slot).value;
    if end < TWO_63 {
      hide Wrap64, TruncMod;
      NoWrap(start);
      NoWrap(end);
      AlignedEnds(blockSize, offset, slot);
      Exact(start, blockSize);
      Exact(end, blockSize);
      Scale(end / blockSize, blocks, blockSize);
      assert lba == start / blockSize;
    } else {
      hide Wrap64, TruncMod, SlotLBA;
    }
  }

  /** The slot lies on whole blocks of the device. */
  predicate Fits(blockSize: int, blocks: int, offset: int, slot: nat) {
    && blockSize > 0 && 65536 % blockSize == 0 && offset % blockSize == 0
    && offset + (slot + 1) * 65536 <= blocks * blockSize
  }

  /** A slot whose end does not overflow is accepted if and only if it lies on whole blocks of the
      device, and then at its own first block. */
  lemma SlotAcceptedExactly(blockSize: int, blocks: int, offset: int, slot: nat)
    requires 0 <= offset && slot < 2 && offset + (slot + 1) * 65536 < TWO_63
    ensures SlotLBA(blockSize, blocks, offset, slot).Some? <==> Fits(blockSize, blocks, offset, slot)
    ensures Fits(blockSize, blocks, offset, slot) ==>
              SlotLBA(blockSize, blocks, offset, slot) == Some((offset + slot * 65536) / blockSize)
  {
    var start := offset + slot * SLOT_SIZE;
    var end := start + SLOT_SIZE;
    if blockSize > 0 && SLOT_SIZE % blockSize == 0 && offset % blockSize == 0 {
      hide Wrap64;
      NoWrap(start);
      NoWrap(end);
      WholeBlocks(blockSize, offset);
      AlignedEnds(blockSize, offset, slot);
      Exact(end, blockSize);
      Scale(end / blockSize, blocks, blockSize);
    } else if blockSize > 0 {
      hide Wrap64;
      WholeBlocks(blockSize, offset);
    }
  }

  lemma WholeBlocks(blockSize: int, offset: int)
    requires blockSize > 0 && offset >= 0
    ensures TruncMod(offset, blockSize) == offset % blockSize
  {
  }

  lemma NoWrap(x: int)
    requires 0 <= x < TWO_63
    ensures Wrap64(x) == x
  {
  }

  lemma AlignedEnds(blockSize: int, offset: int, slot: nat)
    requires blockSize > 0 && offset >= 0 && slot < 2
    requires SLOT_SIZE % blockSize == 0 && TruncMod(offset, blockSize) == 0
    ensures (offset + slot * SLOT_SIZE) % blockSize == 0
    ensures (offset + slot * SLOT_SIZE + SLOT_SIZE) % blockSize == 0
  {
    assert offset % blockSize == 0;
    DivSum(offset, SLOT_SIZE, blockSize);
    DivSum(offset + SLOT_SIZE, SLOT_SIZE, blockSize);
  }

  /** The overflow is real: an aligned offset just below 2^63 is accepted for any device. */
  lemma OverflowIsAccepted(blocks: int)
    requires 0 <= blocks * 512 < TWO_63
    ensures SlotLBA(512, blocks, TWO_63 - 512, 0).Some?
    ensures !Inside(512, blocks, TWO_63 - 512, 0, SlotLBA(512, blocks, TWO_63 - 512, 0).value)
  {
    assert TruncMod(TWO_63 - 512, 512) == 0;
    assert Wrap64(TWO_63 - 512) == TWO_63 - 512;
    assert Wrap64(TWO_63 - 512 + SLOT_SIZE) == TWO_63 - 512 + SLOT_SIZE - 2 * TWO_63;
  }

  /** The slots never overlap. */
  lemma SlotsDisjoint(blockSize: int, blocks: int, offset: int, first: int, second: int)
    requires blockSize > 0
    requires Inside(blockSize, blocks, offset, 0, first) && Inside(blockSize, blocks, offset, 1, second)
    ensures first * blockSize + SLOT_SIZE == second * blockSize
    ensures first < second
  {
    if first >= second {
      Scale(second, first, blockSize);
    }
  }

  /** An accepted block address that is not negative starts exactly at its slot. */
  lemma SlotStart(blockSize: int, blocks: int, offset: int, slot: nat)
    requires -TWO_63 <= offset < TWO_63 && slot < 2
    requires SlotLBA(blockSize, blocks, offset, slot).Some? && SlotLBA(blockSize, blocks, offset, slot).value >= 0
    ensures SlotLBA(blockSize, blocks, offset, slot).value * blockSize == offset + slot * SLOT_SIZE
  {
    hide Wrap64;
    var start := offset + slot * SLOT_SIZE;
    WrapOnce(start);
    AlignedStart(blockSize, offset, slot);
    var lba := TruncDiv(Wrap64(start), blockSize);
    if Wrap64(start) >= 0 {
      Exact(start, blockSize);
    } else {
      NegativeQuotient(blockSize, Wrap64(start));
    }
  }

  lemma WrapOnce(x: int)
    requires -TWO_63 <= x < TWO_63 + SLOT_SIZE
    ensures Wrap64(x) == if x < TWO_63 then x else x - 2 * TWO_63
  {
  }

  /** Every accepted block size divides 2^16, so wrapping keeps the alignment. */
  lemma AlignedStart(blockSize: int, offset: int, slot: nat)
    requires blockSize > 0 && slot < 2 && SLOT_SIZE % blockSize == 0 && TruncMod(offset, blockSize) == 0
    ensures exists q :: (offset + slot * SLOT_SIZE == q * blockSize)
    ensures exists q :: (offset + slot * SLOT_SIZE - 2 * TWO_63 == q * blockSize)
    ensures offset + slot * SLOT_SIZE >= 0 ==> (offset + slot * SLOT_SIZE) % blockSize == 0
  {
    var a, k := TruncDiv(offset, blockSize), SLOT_SIZE / blockSize;
    Exact(SLOT_SIZE, blockSize);
    assert offset == a * blockSize;
    var q := a + slot * k;
    assert offset + slot * SLOT_SIZE == q * blockSize;
    var r := q - 2 * (TWO_63 / SLOT_SIZE) * k;
    assert 2 * TWO_63 == 2 * (TWO_63 / SLOT_SIZE) * SLOT_SIZE;
    assert offset + slot * SLOT_SIZE - 2 * TWO_63 == r * blockSize;
    if offset + slot * SLOT_SIZE >= 0 {
      Scale(0, q, blockSize);
      MulDiv(q, blockSize);
    }
  }

  lemma NegativeQuotient(b: int, x: int)
    requires b > 0 && x < 0 && exists q :: (x == q * b)
    ensures TruncDiv(x, b) < 0
  {
    var q :| x == q * b;
    Scale(0, q, b);
    assert -x == (-q) * b;
    MulDiv(-q, b);
  }

  // ----- what a slot holds -----

  /** The authenticated cipher and the hash, as the device uses them. */
  datatype Crypto = Crypto(
    seal: (Bytes, Bytes, Bytes, Bytes) -> Bytes,
    open: (Bytes, Bytes, Bytes, Bytes) -> Option<Bytes>,
    sha: Bytes -> Digest)

  /** Opening inverts sealing, sealing adds a tag, digests are 32 bytes. */
  ghost predicate Lawful(c: Crypto) {
    && (forall key, nonce, plain, aad {:trigger c.seal(key, nonce, plain, aad)} ::
          && |c.seal(key, nonce, plain, aad)| == |plain| + TAG_LEN
          && c.open(key, nonce, c.seal(key, nonce, plain, aad), aad) == Some(plain))
    && (forall x :: |c.sha(x)| == 32)
  }

  /** The bytes of a blob: what the digest covers. */
  function Frame(gen: nat, nonce: Bytes, ciphertext: Bytes): Bytes {
    MAGIC + PutLE(gen, 4) + PutLE(|ciphertext|, 4) + nonce + ciphertext
  }

  function Image(frame: Bytes): Bytes
    requires |frame| <= SLOT_SIZE
  {
    frame + Zeros(SLOT_SIZE - |frame|)
  }

  /** Reading a slot finds a blob, nothing valid, or a payload on which the decoder panics. */
  datatype Found = Valid(blob: Blob) | Invalid | Crash

  function ReadBlob(c: Crypto, key: Bytes, buf: Bytes, wide: bool): (r: Found)
    requires |buf| == SLOT_SIZE
  {
    if buf[..8] != MAGIC then Invalid
    else
      var gen, length := GetLE(buf[8..12]), GetLE(buf[12..16]);
      var len := Payload.ToInt(length, wide);
      if len < TAG_LEN || len > SLOT_SIZE - HEADER_LEN || |key| != KEY_LEN then Invalid
      else
        match c.open(key, buf[NONCE_OFFSET..HEADER_LEN], buf[HEADER_LEN..HEADER_LEN + len], PutLE(gen, 4))
        case None => Invalid
        case Some(plain) =>
          match Payload.Decode(plain, map[], wide)
          case Ok(states) => Valid(Blob(gen, states, c.sha(buf[..HEADER_LEN + len])))
          case Malformed => Invalid
          case Panic => Crash
  }

  function ParseSlot(c: Crypto, key: Bytes, buf: Bytes, wide: bool): Option<Blob>
    requires |buf| == SLOT_SIZE
  {
    match ReadBlob(c, key, buf, wide)
    case Valid(b) => Some(b)
    case _ => None
  }

  lemma ImageFields(gen: nat, nonce: Bytes, ciphertext: Bytes)
    requires |nonce| == NONCE_LEN && HEADER_LEN + |ciphertext| <= SLOT_SIZE && gen <= MAX_GEN
    ensures var buf, n := Image(Frame(gen, nonce, ciphertext)), |ciphertext|;
            && |buf| == SLOT_SIZE && buf[..8] == MAGIC
            && GetLE(buf[8..12]) == gen && GetLE(buf[12..16]) == n
            && buf[NONCE_OFFSET..HEADER_LEN] == nonce && buf[HEADER_LEN..HEADER_LEN + n] == ciphertext
            && buf[..HEADER_LEN + n] == Frame(gen, nonce, ciphertext)
  {
    hide PutLE, GetLE;
    Pow256Values();
    LERoundTrip(gen, 4);
    LERoundTrip(|ciphertext|, 4);
    var buf := Image(Frame(gen, nonce, ciphertext));
    assert buf[8..12] == PutLE(gen, 4);
    assert buf[12..16] == PutLE(|ciphertext|, 4);
  }

  /** Loading what was saved returns the same states, generation and digest. */
  lemma SlotRoundTrip(c: Crypto, key: Bytes, gen: nat, nonce: Bytes, states: States, payload: Bytes, wide: bool)
    requires Lawful(c) && |key| == KEY_LEN && |nonce| == NONCE_LEN && gen <= MAX_GEN
    requires Payload.Encodable(states) && Payload.IsPayload(states, payload)
    requires HEADER_LEN + |payload| + TAG_LEN <= SLOT_SIZE
    ensures var frame := Frame(gen, nonce, c.seal(key, nonce, payload, PutLE(gen, 4)));
            |frame| <= SLOT_SIZE && ParseSlot(c, key, Image(frame), wide) == Some(Blob(gen, states, c.sha(frame)))
  {
    hide Payload.Decode, Payload.IsPayload, PutLE, GetLE, Image, Frame;
    var ciphertext := c.seal(key, nonce, payload, PutLE(gen, 4));
    FrameLength(gen, nonce, ciphertext);
    ImageFields(gen, nonce, ciphertext);
    Payload.PayloadRoundTrip(states, payload, wide);
  }

  lemma FrameLength(gen: nat, nonce: Bytes, ciphertext: Bytes)
    requires |nonce| == NONCE_LEN
    ensures |Frame(gen, nonce, ciphertext)| == HEADER_LEN + |ciphertext|
  {
  }

  // ----- the card -----

  function Splice(d: Bytes, at: nat, b: Bytes): (r: Bytes)
    requires at + |b| <= |d|
    ensures |r| == |d|
  {
    d[..at] + b + d[at + |b|..]
  }

  predicate Holds(blockSize: int, data: Bytes, lba: int) {
    blockSize > 0 && lba >= 0 && lba * blockSize + SLOT_SIZE <= |data|
  }

  /** The bytes of a slot, if it is on the card. */
  function SlotBytes(blockSize: int, blocks: int, data: Bytes, offset: int, slot: nat): (r: Option<Bytes>)
    ensures r.Some? ==> |r.value| == SLOT_SIZE
  {
    var lba := SlotLBA(blockSize, blocks, offset, slot);
    if lba.Some? && Holds(blockSize, data, lba.value)
    then Some(data[lba.value * blockSize..lba.value * blockSize + SLOT_SIZE]) else None
  }

  lemma SpliceReads(d: Bytes, at: nat, b: Bytes, from: nat)
    requires at + |b| <= |d| && from + SLOT_SIZE <= |d| && |b| == SLOT_SIZE
    ensures Splice(d, at, b)[at..at + SLOT_SIZE] == b
    ensures from + SLOT_SIZE <= at || at + SLOT_SIZE <= from ==>
              Splice(d, at, b)[from..from + SLOT_SIZE] == d[from..from + SLOT_SIZE]
  {
  }

  /** Writing one slot puts the image there and leaves the other slot's bytes alone. */
  lemma WriteOneSlot(blockSize: int, blocks: int, data: Bytes, offset: int, slot: nat, image: Bytes)
    requires -TWO_63 <= offset < TWO_63 && slot < 2 && |image| == SLOT_SIZE
    requires SlotBytes(blockSize, blocks, data, offset, slot).Some?
    ensures var lba := SlotLBA(blockSize, blocks, offset, slot).value;
            && lba * blockSize >= 0 && lba * blockSize + SLOT_SIZE <= |data|
            && var after := Splice(data, lba * blockSize, image);
               && SlotBytes(blockSize, blocks, after, offset, slot) == Some(image)
               && SlotBytes(blockSize, blocks, after, offset, 1 - slot) == SlotBytes(blockSize, blocks, data, offset, 1 - slot)
  {
    hide SlotLBA, Splice;
    var lba := SlotLBA(blockSize, blocks, offset, slot).value;
    var other := SlotLBA(blockSize, blocks, offset, 1 - slot);
    Scale(0, lba, blockSize);
    SlotStart(blockSize, blocks, offset, slot);
    SpliceReads(data, lba * blockSize, image, lba * blockSize);
    if SlotBytes(blockSize, blocks, data, offset, 1 - slot).Some? {
      SlotStart(blockSize, blocks, offset, 1 - slot);
      Scale(0, other.value, blockSize);
      SpliceReads(data, lba * blockSize, image, other.value * blockSize);
    }
  }

  /** A write that reports an error leaves arbitrary bytes in the blocks it was given, or none. */
  datatype WriteFault = NoFault | Fault(image: Bytes)

  class Disk {
    const blockSize: int
    const blocks: int
    var data: Bytes

    constructor (blockSize: int, blocks: int, data: Bytes)
      ensures this.blockSize == blockSize && this.blocks == blocks && this.data == data
    {
      this.blockSize, this.blocks, this.data := blockSize, blocks, data;
    }

    /** The blob in a slot, if the slot is on the card and its contents authenticate. */
    function SlotView(c: Crypto, key: Bytes, offset: int, slot: nat, wide: bool): Option<Blob>
      reads this
    {
      match SlotBytes(blockSize, blocks, data, offset, slot)
      case None => None
      case Some(buf) => ParseSlot(c, key, buf, wide)
    }

    /** Loading a slot panics: its contents authenticate and the decoder fails on the payload. */
    predicate Panics(c: Crypto, key: Bytes, offset: int, slot: nat, wide: bool)
      reads this
    {
      var buf := SlotBytes(blockSize, blocks, data, offset, slot);
      buf.Some? && ReadBlob(c, key, buf.value, wide).Crash?
    }

    method WriteBlocks(lba: int, buf: Bytes, fault: WriteFault) returns (ok: bool)
      requires |buf| == SLOT_SIZE
      modifies this
      ensures ok <==> Holds(blockSize, old(data), lba) && fault.NoFault?
      ensures !Holds(blockSize, old(data), lba) ==> data == old(data)
      ensures Holds(blockSize, old(data), lba) ==>
                var image := if ok then buf else fault.image;
                && lba * blockSize >= 0
                && data == if |image| == SLOT_SIZE then Splice(old(data), lba * blockSize, image) else old(data)
    {
      if !Holds(blockSize, data, lba) {
        return false;
      }
      Scale(0, lba, blockSize);
      match fault {
        case NoFault =>
          data := Splice(data, lba * blockSize, buf);
          return true;
        case Fault(image) =>
          if |image| == SLOT_SIZE {
            data := Splice(data, lba * blockSize, image);
          }
          return false;
      }
    }

    /** ReadBlocks over the blocks of a slot; a failing read returns nothing. */
    method ReadSlot(offset: int, slot: nat, readable: bool) returns (r: Option<Bytes>)
      ensures r == if readable then SlotBytes(blockSize, blocks, data, offset, slot) else None
    {
      return if readable then SlotBytes(blockSize, blocks, data, offset, slot) else None;
    }
  }

  /** Only the 32-bit build panics, and never on a slot that loads. */
  lemma PanicsOnlyNarrow(c: Crypto, key: Bytes, dev: Disk, offset: int, slot: nat, wide: bool)
    ensures dev.Panics(c, key, offset, slot, wide) ==> !wide && dev.SlotView(c, key, offset, slot, wide) == None
  {
    hide SlotLBA, GetLE, Payload.Decode;
    forall plain ensures Payload.Decode(plain, map[], true) != Payload.Panic {
      Payload.WideNeverPanics(plain, map[]);
    }
  }

  /** A loaded blob has a uint32 generation and a 32-byte digest. */
  lemma SlotViewFits(c: Crypto, key: Bytes, dev: Disk, offset: int, slot: nat, wide: bool)
    requires Lawful(c)
    ensures var v := dev.SlotView(c, key, offset, slot, wide);
            v.Some? ==> v.value.gen <= MAX_GEN && |v.value.hash| == 32
  {
    hide SlotLBA, GetLE, Payload.Decode;
    var bytes := SlotBytes(dev.blockSize, dev.blocks, dev.data, offset, slot);
    if bytes.Some? {
      Pow256Values();
      LEBound(bytes.value[8..12]);
    }
  }

  // ----- save and load -----

  datatype SaveResult = Saved(hash: Digest) | Rejected | WriteFailed

  method Copy(buf: array<Byte>, at: nat, src: Bytes)
    requires at + |src| <= buf.Length
    modifies buf
    ensures buf[..] == Splice(old(buf[..]), at, src)
  {
    var i := 0;
    while i < |src|
      invariant 0 <= i <= |src|
      invariant forall k :: 0 <= k < buf.Length ==> buf[k] == if at <= k < at + i then src[k - at] else old(buf[k])
    {
      buf[at + i] := src[i];
      i := i + 1;
    }
  }

  /** Filling the zeroed buffer field by field produces the image of the frame. */
  lemma FilledBuffer(gen: nat, nonce: Bytes, ciphertext: Bytes)
    requires |nonce| == NONCE_LEN && HEADER_LEN + |ciphertext| <= SLOT_SIZE
    ensures |Frame(gen, nonce, ciphertext)| == HEADER_LEN + |ciphertext|
    ensures Splice(Splice(Splice(Splice(Splice(Zeros(SLOT_SIZE), 0, MAGIC), 8, PutLE(gen, 4)), 12, PutLE(|ciphertext|, 4)),
                   NONCE_OFFSET, nonce), HEADER_LEN, ciphertext)
         == Image(Frame(gen, nonce, ciphertext))
  {
    hide PutLE;
    var n := SLOT_SIZE;
    var g, l := PutLE(gen, 4), PutLE(|ciphertext|, 4);
    var b1 := Splice(Zeros(n), 0, MAGIC);
    assert b1 == MAGIC + Zeros(n - 8);
    var b2 := Splice(b1, 8, g);
    assert b2 == MAGIC + g + Zeros(n - 12);
    var b3 := Splice(b2, 12, l);
    assert b3 == MAGIC + g + l + Zeros(n - 16);
    var b4 := Splice(b3, NONCE_OFFSET, nonce);
    assert b4 == MAGIC + g + l + nonce + Zeros(n - 32);
    var b5 := Splice(b4, HEADER_LEN, ciphertext);
    assert b5 == MAGIC + g + l + nonce + ciphertext + Zeros(n - 32 - |ciphertext|);
  }

  method FillSlot(gen: nat, nonce: Bytes, ciphertext: Bytes) returns (buf: array<Byte>)
    requires |nonce| == NONCE_LEN && HEADER_LEN + |ciphertext| <= SLOT_SIZE
    ensures fresh(buf) && buf.Length == SLOT_SIZE
    ensures |Frame(gen, nonce, ciphertext)| == HEADER_LEN + |ciphertext|
    ensures buf[..] == Image(Frame(gen, nonce, ciphertext))
  {
    hide Splice, PutLE, Frame, Image;
    buf := new Byte[SLOT_SIZE](_ => 0);
    assert buf[..] == Zeros(SLOT_SIZE);
    Copy(buf, 0, MAGIC);
    Copy(buf, 8, PutLE(gen, 4));
    Copy(buf, 12, PutLE(|ciphertext|, 4));
    Copy(buf, NONCE_OFFSET, nonce);
    Copy(buf, HEADER_LEN, ciphertext);
    FilledBuffer(gen, nonce, ciphertext);
  }

  /** When save gets as far as issuing the slot write. */
  ghost predicate Writable(dev: Disk, offset: int, key: Bytes, gen: nat, states: States, nonce: Option<Bytes>) {
    && |key| == KEY_LEN && nonce.Some? && Payload.Encodable(states)
    && (forall p :: Payload.IsPayload(states, p) ==> HEADER_LEN + |p| + TAG_LEN <= SLOT_SIZE)
    && SlotLBA(dev.blockSize, dev.blocks, offset, gen % 2).Some?
  }

  lemma PayloadFits(states: States, payload: Bytes)
    requires Payload.IsPayload(states, payload)
    ensures HEADER_LEN + |payload| + TAG_LEN <= SLOT_SIZE
       <==> forall p :: Payload.IsPayload(states, p) ==> HEADER_LEN + |p| + TAG_LEN <= SLOT_SIZE
  {
    hide Payload.IsPayload;
    forall p | Payload.IsPayload(states, p) ensures p == payload {
      Payload.PayloadIsUnique(states, p, payload);
    }
  }

  /** What it takes to get as far as the slot write, in plain terms. */
  lemma WritableExactly(dev: Disk, offset: int, key: Bytes, gen: nat, states: States, nonce: Option<Bytes>, payload: Bytes)
    requires 0 <= offset && offset + (gen % 2 + 1) * 65536 < TWO_63 && Payload.IsPayload(states, payload)
    ensures Writable(dev, offset, key, gen, states, nonce)
       <==> |key| == 32 && nonce.Some? && Fits(dev.blockSize, dev.blocks, offset, gen % 2) && |payload| <= 65536 - 48
            && forall o :: o in states ==> |o| < 65536 && |states[o]| < 0x1_0000_0000
  {
    hide SlotLBA, Fits, Payload.IsPayload;
    SlotAcceptedExactly(dev.blockSize, dev.blocks, offset, gen % 2);
    PayloadFits(states, payload);
  }

  lemma SealLength(c: Crypto, key: Bytes, nonce: Bytes, plain: Bytes, aad: Bytes)
    requires Lawful(c)
    ensures |c.seal(key, nonce, plain, aad)| == |plain| + TAG_LEN && forall x :: |c.sha(x)| == 32
  {
  }

  /** save: seal the states and write them to the slot of the generation's parity. The other slot
      keeps its bytes; a refusal before the write touches nothing. */
  method Save(c: Crypto, dev: Disk, offset: int, key: Bytes, gen: nat, states: States, nonce: Option<Bytes>, fault: WriteFault)
    returns (r: SaveResult)
    requires Lawful(c) && -TWO_63 <= offset < TWO_63 && gen <= MAX_GEN
    requires nonce.Some? ==> |nonce.value| == NONCE_LEN
    modifies dev
    ensures r.Rejected? <==> !Writable(dev, offset, key, gen, states, nonce)
    ensures r.Rejected? ==> dev.data == old(dev.data)
    ensures SlotBytes(dev.blockSize, dev.blocks, dev.data, offset, (gen + 1) % 2)
         == SlotBytes(dev.blockSize, dev.blocks, old(dev.data), offset, (gen + 1) % 2)
    ensures r.Saved? <==> Writable(dev, offset, key, gen, states, nonce) && fault.NoFault?
                          && SlotBytes(dev.blockSize, dev.blocks, old(dev.data), offset, gen % 2).Some?
    ensures r.Saved? ==> |r.hash| == 32
    ensures r.Saved? ==> forall wide :: dev.SlotView(c, key, offset, gen % 2, wide) == Some(Blob(gen, states, r.hash))
  {
    hide Splice, ParseSlot, Frame, Image, SlotLBA, Payload.IsPayload, Payload.Encodable, PutLE, Lawful;
    if |key| != KEY_LEN || nonce.None? {
      return Rejected;
    }
    var plain := Payload.Encode(states);
    if plain.None? {
      return Rejected;
    }
    SealLength(c, key, nonce.value, plain.value, PutLE(gen, 4));
    var ciphertext := c.seal(key, nonce.value, plain.value, PutLE(gen, 4));
    PayloadFits(states, plain.value);
    if HEADER_LEN + |ciphertext| > SLOT_SIZE {
      return Rejected;
    }
    var buf := FillSlot(gen, nonce.value, ciphertext);
    ghost var frame := Frame(gen, nonce.value, ciphertext);
    var hash := c.sha(buf[..HEADER_LEN + |ciphertext|]);
    assert buf[..HEADER_LEN + |ciphertext|] == frame by {
      PrefixOfImage(frame);
      assert buf[..HEADER_LEN + |ciphertext|] == buf[..][..|frame|];
    }
    var lba := SlotLBA(dev.blockSize, dev.blocks, offset, gen % 2);
    if lba.None? {
      return Rejected;
    }
    var ok := WriteImage(dev, offset, gen, lba.value, buf[..], fault);
    if !ok {
      return WriteFailed;
    }
    forall wide ensures dev.SlotView(c, key, offset, gen % 2, wide) == Some(Blob(gen, states, hash)) {
      SlotRoundTrip(c, key, gen, nonce.value, states, plain.value, wide);
    }
    return Saved(hash);
  }

  lemma PrefixOfImage(frame: Bytes)
    requires |frame| <= SLOT_SIZE
    ensures |Image(frame)| == SLOT_SIZE && Image(frame)[..|frame|] == frame
  {
  }

  /** The slot write itself. */
  method WriteImage(dev: Disk, offset: int, gen: nat, lba: int, buf: Bytes, fault: WriteFault) returns (ok: bool)
    requires -TWO_63 <= offset < TWO_63 && |buf| == SLOT_SIZE
    requires SlotLBA(dev.blockSize, dev.blocks, offset, gen % 2) == Some(lba)
    modifies dev
    ensures ok <==> fault.NoFault? && SlotBytes(dev.blockSize, dev.blocks, old(dev.data), offset, gen % 2).Some?
    ensures ok ==> SlotBytes(dev.blockSize, dev.blocks, dev.data, offset, gen % 2) == Some(buf)
    ensures SlotBytes(dev.blockSize, dev.blocks, dev.data, offset, (gen + 1) % 2)
         == SlotBytes(dev.blockSize, dev.blocks, old(dev.data), offset, (gen + 1) % 2)
  {
    hide SlotLBA, Splice;
    var image := if fault.NoFault? then buf else fault.image;
    if Holds(dev.blockSize, dev.data, lba) && |image| == SLOT_SIZE {
      WriteOneSlot(dev.blockSize, dev.blocks, dev.data, offset, gen % 2, image);
    }
    assert 1 - gen % 2 == (gen + 1) % 2;
    ok := dev.WriteBlocks(lba, buf, fault);
  }

  /** loadSlot, panics included. */
  method LoadSlot(c: Crypto, dev: Disk, offset: int, slot: nat, key: Bytes, readable: bool, wide: bool) returns (r: Found)
    ensures r.Crash? <==> readable && dev.Panics(c, key, offset, slot, wide)
    ensures !r.Crash? ==>
              (if r.Valid? then Some(r.blob) else None) == (if readable then dev.SlotView(c, key, offset, slot, wide) else None)
  {
    hide SlotLBA, PutLE, GetLE, Payload.Decode;
    var read := dev.ReadSlot(offset, slot, readable);
    if read.None? {
      return Invalid;
    }
    var buf := read.value;
    if buf[..8] != MAGIC {
      return Invalid;
    }
    var gen, length := GetLE(buf[8..12]), GetLE(buf[12..16]);
    var len := Payload.ToInt(length, wide);
    if len < TAG_LEN || len > SLOT_SIZE - HEADER_LEN || |key| != KEY_LEN {
      return Invalid;
    }
    var plain := c.open(key, buf[NONCE_OFFSET..HEADER_LEN], buf[HEADER_LEN..HEADER_LEN + len], PutLE(gen, 4));
    if plain.None? {
      return Invalid;
    }
    var decoded := Payload.DecodePayload(plain.value, wide);
    match decoded {
      case Ok(states) => return Valid(Blob(gen, states, c.sha(buf[..HEADER_LEN + len])));
      case Malformed => return Invalid;
      case Panic => return Crash;
    }
  }

  /** load: of the two slots, the valid one with the highest generation. */
  method Load(c: Crypto, dev: Disk, offset: int, key: Bytes, readable: seq<bool>, wide: bool)
    returns (newest: Option<Blob>, crashed: bool)
    requires |readable| == 2
    ensures crashed <==> exists slot :: 0 <= slot < 2 && readable[slot] && dev.Panics(c, key, offset, slot, wide)
    ensures !crashed ==>
              newest == Newest(if readable[0] then dev.SlotView(c, key, offset, 0, wide) else None,
                               if readable[1] then dev.SlotView(c, key, offset, 1, wide) else None)
  {
    hide ParseSlot, ReadBlob, SlotBytes;
    newest, crashed := None, false;
    ghost var first := if readable[0] then dev.SlotView(c, key, offset, 0, wide) else None;
    for slot := 0 to 2
      invariant !crashed && forall k :: 0 <= k < slot ==> !(readable[k] && dev.Panics(c, key, offset, k, wide))
      invariant slot == 0 ==> newest == None
      invariant slot == 1 ==> newest == first
      invariant slot == 2 ==> newest == Newest(first, if readable[1] then dev.SlotView(c, key, offset, 1, wide) else None)
    {
      var found := LoadSlot(c, dev, offset, slot, key, readable[slot], wide);
      if found.Crash? {
        return None, true;
      }
      if found.Valid? && (newest.None? || found.blob.gen > newest.value.gen) {
        newest := Some(found.blob);
      }
    }
  }
}
