/** The formats on the card and in the anchor sector, byte by byte, and what an authenticated slot
    can hold. */
module Layout {
  import opened Common
  import opened Merkle
  import opened Places
  import opened StoreModel
  import opened Slots
  import Anchors
  import Payload
  import Refinement

  lemma MagicIs()
    ensures MAGIC == Ascii("VITRUMW2") && Anchors.ANCHOR_MAGIC == Ascii("VITRUMA2")
  {
  }

  /** A blob: magic, little-endian generation and ciphertext length, nonce, ciphertext. */
  lemma FrameLayout(gen: nat, nonce: Bytes, ciphertext: Bytes)
    requires |nonce| == 16
    ensures var f := Frame(gen, nonce, ciphertext);
            && |f| == 32 + |ciphertext| && f[..8] == Ascii("VITRUMW2") && f[16..32] == nonce && f[32..] == ciphertext
            && (forall i :: 0 <= i < 4 ==> f[8 + i] == Digit(gen, 256, i) && f[12 + i] == Digit(|ciphertext|, 256, i))
  {
    hide Digit;
    MagicIs();
    LEByPlace(gen, 4);
    LEByPlace(|ciphertext|, 4);
    hide PutLE;
    var f := Frame(gen, nonce, ciphertext);
    assert f[8..12] == PutLE(gen, 4) && f[12..16] == PutLE(|ciphertext|, 4);
    assert forall i :: 0 <= i < 4 ==> f[8 + i] == f[8..12][i] && f[12 + i] == f[12..16][i];
  }

  /** The anchor record: big-endian generation, magic, digest. */
  lemma AnchorLayout(a: Anchor)
    requires a.bound && |a.hash| == 32
    ensures var r := Anchors.EncodeRecord(a);
            && |r| == 44 && r[4..12] == Ascii("VITRUMA2") && r[12..] == a.hash
            && (forall i :: 0 <= i < 4 ==> r[i] == Digit(a.gen, 256, 3 - i))
  {
    hide Digit;
    MagicIs();
    BEByPlace(a.gen, 4);
    hide PutBE;
    var r := Anchors.EncodeRecord(a);
    assert r[..4] == PutBE(a.gen, 4);
    assert forall i :: 0 <= i < 4 ==> r[i] == r[..4][i];
  }

  /** A payload record: two-byte origin length, origin, four-byte note length, note. */
  lemma RecordLayout(o: Bytes, note: Bytes)
    ensures var r, n := Payload.Record(o, note), |o|;
            && |r| == 6 + n + |note| && r[2..2 + n] == o && r[6 + n..] == note
            && (forall i :: 0 <= i < 2 ==> r[i] == Digit(n, 256, i))
            && (forall i :: 0 <= i < 4 ==> r[2 + n..6 + n][i] == Digit(|note|, 256, i))
  {
    hide Digit;
    LEByPlace(|o|, 2);
    LEByPlace(|note|, 4);
    hide PutLE;
    var r, n := Payload.Record(o, note), |o|;
    assert r[..2] == PutLE(n, 2) && r[2 + n..6 + n] == PutLE(|note|, 4);
    assert forall i :: 0 <= i < 2 ==> r[i] == r[..2][i];
  }

  /** The position that decides between two origins. */
  ghost predicate DecidedAt(a: Bytes, b: Bytes, k: nat) {
    k <= |a| && k < |b| && a[..k] == b[..k] && (k == |a| || a[k] < b[k])
  }

  lemma SameHead(a: Bytes, b: Bytes, k: nat)
    ensures 0 < k <= |a| && k <= |b| && a[..k] == b[..k] ==> a[0] == b[0]
  {
    if 0 < k <= |a| && k <= |b| {
      assert a[..k][0] == a[0] && b[..k][0] == b[0];
    }
  }

  /** The order of origins is bytewise: at the first difference the smaller byte comes first, and a
      proper prefix comes before its extensions. */
  lemma {:induction false} LessExactly(a: Bytes, b: Bytes)
    ensures Payload.Less(a, b) <==> exists k: nat :: DecidedAt(a, b, k)
  {
    if b == [] {
    } else if a == [] {
      assert DecidedAt(a, b, 0);
    } else if a[0] != b[0] {
      if a[0] < b[0] {
        assert DecidedAt(a, b, 0);
      }
      forall k: nat | DecidedAt(a, b, k) ensures k == 0 {
        SameHead(a, b, k);
      }
    } else {
      LessExactly(a[1..], b[1..]);
      forall k: nat ensures DecidedAt(a[1..], b[1..], k) ==> DecidedAt(a, b, k + 1) {
        if DecidedAt(a[1..], b[1..], k) {
          assert a[..k + 1] == [a[0]] + a[1..][..k] && b[..k + 1] == [b[0]] + b[1..][..k];
        }
      }
      forall k: nat ensures DecidedAt(a, b, k) ==> k > 0 && DecidedAt(a[1..], b[1..], k - 1) {
        if DecidedAt(a, b, k) {
          assert k > 0;
          assert a[1..][..k - 1] == a[..k][1..] && b[1..][..k - 1] == b[..k][1..];
        }
      }
    }
  }

  // ----- what an authenticated slot can hold -----

  /** One call of save: what it sealed, and under which nonce. */
  datatype Saving = Saving(gen: nat, nonce: Bytes, states: States)

  ghost predicate SavingOk(x: Saving) {
    x.gen <= MAX_GEN && |x.nonce| == NONCE_LEN && Payload.Encodable(x.states)
  }

  /** The ideal cipher: it opens only what was sealed, under the nonce and the generation it was
      sealed with. */
  ghost predicate OpensOnlySaved(c: Crypto, key: Bytes, saved: set<Saving>) {
    && (forall x :: x in saved ==> SavingOk(x))
    && (forall nonce, ct, aad {:trigger c.open(key, nonce, ct, aad)} :: c.open(key, nonce, ct, aad).Some? ==>
          exists x, p :: x in saved && SealedIn(c, key, x, p, nonce, ct, aad))
  }

  ghost predicate SealedIn(c: Crypto, key: Bytes, x: Saving, p: Bytes, nonce: Bytes, ct: Bytes, aad: Bytes) {
    && Payload.IsPayload(x.states, p) && x.nonce == nonce && aad == PutLE(x.gen, 4)
    && ct == c.seal(key, nonce, p, aad)
  }

  /** The blob that a saving leaves. */
  ghost predicate SavedAs(c: Crypto, key: Bytes, x: Saving, b: Blob) {
    exists p :: Payload.IsPayload(x.states, p) && b == Blob(x.gen, x.states, c.sha(Frame(x.gen, x.nonce, c.seal(key, x.nonce, p, PutLE(x.gen, 4)))))
  }

  /** The bytes before the padding of a slot that passes the checks of its header are a frame. */
  lemma HeaderIsFrame(buf: Bytes, len: nat)
    requires |buf| == SLOT_SIZE && buf[..8] == MAGIC && GetLE(buf[12..16]) == len && HEADER_LEN + len <= SLOT_SIZE
    ensures buf[..HEADER_LEN + len] == Frame(GetLE(buf[8..12]), buf[NONCE_OFFSET..HEADER_LEN], buf[HEADER_LEN..HEADER_LEN + len])
  {
    LEReadBack(buf[8..12]);
    LEReadBack(buf[12..16]);
    hide PutLE, GetLE;
    assert buf[..HEADER_LEN + len]
        == buf[..8] + buf[8..12] + buf[12..16] + buf[NONCE_OFFSET..HEADER_LEN] + buf[HEADER_LEN..HEADER_LEN + len];
  }

  lemma SameGeneration(gen: nat, other: nat)
    requires PutLE(gen, 4) == PutLE(other, 4) && gen <= MAX_GEN && other <= MAX_GEN
    ensures gen == other
  {
    Pow256Values();
    LERoundTrip(gen, 4);
    LERoundTrip(other, 4);
  }

  /** Whatever bytes are in a slot, if they load at all they load as a blob that was saved, with its
      own generation, states and digest: contents cannot be relabelled to another generation. And no
      authenticated slot makes the decoder panic, on either build. */
  lemma OnlySavedBlobsLoad(c: Crypto, key: Bytes, saved: set<Saving>, buf: Bytes, wide: bool)
    requires Lawful(c) && OpensOnlySaved(c, key, saved) && |buf| == SLOT_SIZE
    ensures !ReadBlob(c, key, buf, wide).Crash?
    ensures ParseSlot(c, key, buf, wide).Some? ==>
              exists x :: x in saved && SavedAs(c, key, x, ParseSlot(c, key, buf, wide).value)
  {
    hide PutLE, GetLE, Payload.Decode, Payload.IsPayload, Payload.Encodable, Frame;
    var gen, length := GetLE(buf[8..12]), GetLE(buf[12..16]);
    var len := Payload.ToInt(length, wide);
    if buf[..8] == MAGIC && TAG_LEN <= len <= SLOT_SIZE - HEADER_LEN && |key| == KEY_LEN {
      var nonce, ct := buf[NONCE_OFFSET..HEADER_LEN], buf[HEADER_LEN..HEADER_LEN + len];
      var plain := c.open(key, nonce, ct, PutLE(gen, 4));
      if plain.Some? {
        var x, p :| x in saved && SealedIn(c, key, x, p, nonce, ct, PutLE(gen, 4));
        Pow256Values();
        LEBound(buf[8..12]);
        SameGeneration(gen, x.gen);
        SealLength(c, key, nonce, p, PutLE(gen, 4));
        Payload.PayloadRoundTrip(x.states, p, wide);
        LEBound(buf[12..16]);
        HeaderIsFrame(buf, len);
        assert SavedAs(c, key, x, Blob(gen, x.states, c.sha(buf[..HEADER_LEN + len])));
      }
    }
  }

  /** The ideal-seal assumption of the machine, from the cipher: after a failed write of a new saving,
      whatever the slot holds is authentic, provided the machine's sealed blobs are those saved so
      far and the digest of the new one is unused. */
  lemma FailedSlotIsAuthentic(c: Crypto, key: Bytes, saved: set<Saving>, latest: Saving, sealed: set<Blob>, ram: Ram, updates: Mem,
                              buf: Bytes, wide: bool)
    requires Lawful(c) && OpensOnlySaved(c, key, saved + {latest}) && |buf| == SLOT_SIZE
    requires latest.gen == ram.gen + 1 && latest.states == NextStates(ram.mem, updates)
    requires forall x, b :: x in saved && SavedAs(c, key, x, b) ==> b in sealed
    requires forall b :: SavedAs(c, key, latest, b) ==> Refinement.Unused(sealed, b.hash)
    ensures Refinement.Authentic(sealed, ram, updates, ParseSlot(c, key, buf, wide))
  {
    hide SavedAs, OpensOnlySaved, Lawful, ReadBlob;
    OnlySavedBlobsLoad(c, key, saved + {latest}, buf, wide);
    var view := ParseSlot(c, key, buf, wide);
    if view.Some? {
      var x :| x in saved + {latest} && SavedAs(c, key, x, view.value);
      SavedParts(c, key, x, view.value);
    }
  }

  lemma SavedParts(c: Crypto, key: Bytes, x: Saving, b: Blob)
    requires SavedAs(c, key, x, b)
    ensures b.gen == x.gen && b.states == x.states
  {
  }

  /** A fresh nonce gives a new frame, so under a digest without collisions among saved frames no
      other saving has the digest of this one. */
  lemma FreshNonceFreshFrame(c: Crypto, key: Bytes, x: Saving, y: Saving, p: Bytes, q: Bytes)
    requires |x.nonce| == NONCE_LEN && |y.nonce| == NONCE_LEN && x.nonce != y.nonce
    ensures Frame(x.gen, x.nonce, c.seal(key, x.nonce, p, PutLE(x.gen, 4))) != Frame(y.gen, y.nonce, c.seal(key, y.nonce, q, PutLE(y.gen, 4)))
  {
    FrameLayout(x.gen, x.nonce, c.seal(key, x.nonce, p, PutLE(x.gen, 4)));
    FrameLayout(y.gen, y.nonce, c.seal(key, y.nonce, q, PutLE(y.gen, 4)));
  }

  // ----- what the decoders accept -----

  /** The sector reads as a state exactly if it is all zero, which is fresh, or the record of a bound
      state; every other content is an unknown format. */
  lemma AnchorReadsExactly(buf: Bytes, a: Anchor)
    requires |buf| == 44
    ensures Anchors.DecodeRecord(buf) == Some(a)
       <==> (a == FRESH_ANCHOR && buf == Zeros(44)) || (a.bound && a.gen <= MAX_GEN && |a.hash| == 32 && buf == Anchors.EncodeRecord(a))
  {
    hide PutBE, GetBE;
    if buf[4..12] == Anchors.ANCHOR_MAGIC {
      BEReadBack(buf[..4]);
      BEBound(buf[..4]);
      Pow256Values();
      assert buf == buf[..4] + buf[4..12] + buf[12..];
      assert buf[4] == buf[4..12][0];
    }
    if a.bound && a.gen <= MAX_GEN && |a.hash| == 32 && buf == Anchors.EncodeRecord(a) {
      Anchors.RecordRoundTrip(a);
    }
  }

  lemma {:induction false} BEBound(b: Bytes)
    ensures GetBE(b) < Pow256(|b|)
  {
    if b != [] {
      BEBound(b[..|b| - 1]);
    }
  }

  /** Records one after the other, and the map they enter, the last one for an origin winning. */
  function Concatenated(records: seq<(Bytes, Bytes)>): Bytes {
    if records == [] then [] else Payload.Record(records[0].0, records[0].1) + Concatenated(records[1..])
  }

  function Entered(records: seq<(Bytes, Bytes)>, acc: States): States {
    if records == [] then acc else Entered(records[1..], acc[records[0].0 := records[0].1])
  }

  ghost predicate RecordsOk(records: seq<(Bytes, Bytes)>) {
    forall i :: 0 <= i < |records| ==> |records[i].0| <= Payload.MAX_U16 && |records[i].1| <= Payload.MAX_U32
  }

  lemma {:induction false} RecordsDecode(records: seq<(Bytes, Bytes)>, acc: States)
    requires RecordsOk(records)
    ensures Payload.Decode(Concatenated(records), acc, true) == Payload.Ok(Entered(records, acc))
  {
    hide Payload.Decode, Payload.Record;
    if records == [] {
      Payload.DecodeNothing(acc, true);
    } else {
      Payload.DecodeRecord(records[0].0, records[0].1, Concatenated(records[1..]), acc, true);
      RecordsDecode(records[1..], acc[records[0].0 := records[0].1]);
    }
  }

  lemma FirstFields(payload: Bytes, acc: States)
    requires payload != [] && Payload.Decode(payload, acc, true).Ok?
    ensures |payload| >= 2
    ensures var n, rest := GetLE(payload[..2]), payload[2..];
            && |rest| >= n + 4
            && var m, tail := GetLE(rest[n..n + 4]), rest[n + 4..];
               && m <= |tail|
               && Payload.Decode(payload, acc, true) == Payload.Decode(tail[m..], acc[rest[..n] := tail[..m]], true)
  {
    hide GetLE;
  }

  /** The first record of a payload that decodes. */
  lemma FirstRecord(payload: Bytes, acc: States) returns (o: Bytes, note: Bytes, more: Bytes)
    requires payload != [] && Payload.Decode(payload, acc, true).Ok?
    ensures |o| <= Payload.MAX_U16 && |note| <= Payload.MAX_U32 && |more| < |payload|
    ensures payload == Payload.Record(o, note) + more
    ensures Payload.Decode(payload, acc, true) == Payload.Decode(more, acc[o := note], true)
  {
    hide PutLE, GetLE, Payload.Decode;
    FirstFields(payload, acc);
    var n := GetLE(payload[..2]);
    var rest := payload[2..];
    var field := rest[n..n + 4];
    var m := GetLE(field);
    var tail := rest[n + 4..];
    LEBound(payload[..2]);
    LEBound(field);
    LEReadBack(payload[..2]);
    LEReadBack(field);
    Pow256Values();
    o, note, more := rest[..n], tail[..m], tail[m..];
    Reassembles(payload, n, m);
  }

  lemma Reassembles(p: Bytes, n: nat, m: nat)
    requires |p| >= 6 + n + m
    ensures p == p[..2] + p[2..][..n] + p[2..][n..n + 4] + p[2..][n + 4..][..m] + p[2..][n + 4..][m..]
  {
  }

  lemma {:induction false} DecodesToRecords(payload: Bytes, acc: States) returns (records: seq<(Bytes, Bytes)>)
    requires Payload.Decode(payload, acc, true).Ok?
    ensures RecordsOk(records) && payload == Concatenated(records)
    ensures Payload.Decode(payload, acc, true) == Payload.Ok(Entered(records, acc))
    decreases |payload|
  {
    hide Payload.Record;
    if payload == [] {
      records := [];
    } else {
      var o, note, more := FirstRecord(payload, acc);
      hide Payload.Decode;
      var rest := DecodesToRecords(more, acc[o := note]);
      records := [(o, note)] + rest;
      assert records[1..] == rest;
    }
  }

  /** A payload decodes exactly if it is a sequence of whole records, to the map they enter. */
  lemma PayloadGrammar(payload: Bytes, m: States)
    ensures Payload.Decode(payload, map[], true) == Payload.Ok(m)
       <==> exists records :: RecordsOk(records) && payload == Concatenated(records) && m == Entered(records, map[])
  {
    hide Payload.Decode, Concatenated, Entered, RecordsOk;
    if Payload.Decode(payload, map[], true).Ok? {
      var records := DecodesToRecords(payload, map[]);
    }
    forall records | RecordsOk(records) && payload == Concatenated(records)
      ensures Payload.Decode(payload, map[], true) == Payload.Ok(Entered(records, map[]))
    {
      RecordsDecode(records, map[]);
    }
  }
}
