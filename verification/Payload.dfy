/** The state payload: origin and note records in the order of their origins. */
module Payload {
  import opened Common
  import opened StoreModel

  const MAX_U16 := 0xFFFF
  const MAX_U32 := 0xFFFF_FFFF

  // ----- the order of origins -----

  /** Go's string order: bytewise, a proper prefix first. */
  predicate Less(a: Bytes, b: Bytes) {
    if b == [] then false
    else if a == [] then true
    else if a[0] != b[0] then a[0] < b[0]
    else Less(a[1..], b[1..])
  }

  lemma {:induction false} LessIsTotal(a: Bytes, b: Bytes)
    ensures a == b || Less(a, b) || Less(b, a)
    ensures !(Less(a, b) && Less(b, a)) && !Less(a, a)
  {
    if a != [] && b != [] && a[0] == b[0] {
      LessIsTotal(a[1..], b[1..]);
      assert a == [a[0]] + a[1..] && b == [b[0]] + b[1..];
    }
    if a != [] {
      LessIsTotal(a[1..], a[1..]);
    }
  }

  lemma {:induction false} LessIsTransitive(a: Bytes, b: Bytes, c: Bytes)
    requires Less(a, b) && Less(b, c)
    ensures Less(a, c)
  {
    if a != [] && a[0] == b[0] && b[0] == c[0] {
      LessIsTransitive(a[1..], b[1..], c[1..]);
    }
  }

  ghost predicate Sorted(keys: seq<Bytes>) {
    forall i, j :: 0 <= i < j < |keys| ==> Less(keys[i], keys[j])
  }

  ghost predicate Enumerates(keys: seq<Bytes>, ks: set<Bytes>) {
    Sorted(keys) && forall k :: k in keys <==> k in ks
  }

  /** A set of origins has only one sorted enumeration. */
  lemma {:induction false} SortedIsUnique(a: seq<Bytes>, b: seq<Bytes>, ks: set<Bytes>)
    requires Enumerates(a, ks) && Enumerates(b, ks)
    ensures a == b
    decreases |a|
  {
    EnumeratesNothing(a, ks);
    EnumeratesNothing(b, ks);
    if a != [] {
      assert a[0] in ks && a[0] in b;
      assert b[0] in ks && b[0] in a;
      if a[0] != b[0] {
        LessIsTotal(a[0], b[0]);
      } else {
        SortedTail(a, ks);
        SortedTail(b, ks);
        SortedIsUnique(a[1..], b[1..], ks - {a[0]});
        assert a == [a[0]] + a[1..] && b == [b[0]] + b[1..];
      }
    }
  }

  lemma EnumeratesNothing(a: seq<Bytes>, ks: set<Bytes>)
    requires Enumerates(a, ks)
    ensures a == [] <==> ks == {}
  {
    if a != [] {
      assert a[0] in ks;
    }
  }

  lemma SortedTail(a: seq<Bytes>, ks: set<Bytes>)
    requires a != [] && Enumerates(a, ks)
    ensures Enumerates(a[1..], ks - {a[0]})
  {
    LessIsTotal(a[0], a[0]);
    forall k ensures k in a[1..] <==> k in ks - {a[0]} {
      if k in ks - {a[0]} {
        var i :| 0 <= i < |a| && a[i] == k;
        assert a[1..][i - 1] == k;
      }
      if k in a[1..] {
        var i :| 0 <= i < |a[1..]| && a[1..][i] == k;
        assert a[i + 1] == k && Less(a[0], a[i + 1]);
      }
    }
  }

  /** Insert an origin into a sorted list. */
  function Insert(keys: seq<Bytes>, k: Bytes): seq<Bytes> {
    if keys == [] then [k]
    else if Less(k, keys[0]) then [k] + keys
    else [keys[0]] + Insert(keys[1..], k)
  }

  lemma {:induction false} InsertSorts(keys: seq<Bytes>, k: Bytes, ks: set<Bytes>)
    requires Enumerates(keys, ks) && k !in ks
    ensures Enumerates(Insert(keys, k), ks + {k})
    decreases |keys|
  {
    hide Less;
    if keys == [] {
    } else if Less(k, keys[0]) {
      var out := [k] + keys;
      forall i, j | 0 <= i < j < |out| ensures Less(out[i], out[j]) {
        if i == 0 && j > 1 {
          LessIsTransitive(k, keys[0], keys[j - 1]);
        }
      }
    } else {
      assert keys[0] in keys;
      LessIsTotal(k, keys[0]);
      SortedTail(keys, ks);
      InsertSorts(keys[1..], k, ks - {keys[0]});
      var rest := Insert(keys[1..], k);
      var out := [keys[0]] + rest;
      forall j | 0 < j < |out| ensures Less(out[0], out[j]) {
        assert rest[j - 1] in rest;
        if out[j] != k {
          assert out[j] in keys[1..];
          var n :| 0 <= n < |keys[1..]| && keys[1..][n] == out[j];
          assert keys[n + 1] == out[j];
        }
      }
      assert forall x :: x in out <==> x == keys[0] || x in rest;
    }
  }

  // ----- records -----

  function Record(o: Bytes, note: Bytes): Bytes {
    PutLE(|o|, 2) + o + PutLE(|note|, 4) + note
  }

  function Records(keys: seq<Bytes>, m: States): Bytes
    requires forall k :: k in keys ==> k in m
  {
    if keys == [] then [] else Record(keys[0], m[keys[0]]) + Records(keys[1..], m)
  }

  predicate Encodable(m: States) {
    forall o :: o in m ==> |o| <= MAX_U16 && |m[o]| <= MAX_U32
  }

  /** The payload of a map: its records, sorted by origin. */
  ghost predicate IsPayload(m: States, payload: Bytes) {
    exists keys :: Enumerates(keys, m.Keys) && payload == Records(keys, m)
  }

  /** The encoding depends only on the map. */
  lemma PayloadIsUnique(m: States, p: Bytes, q: Bytes)
    requires IsPayload(m, p) && IsPayload(m, q)
    ensures p == q
  {
    hide Sorted;
    var a :| Enumerates(a, m.Keys) && p == Records(a, m);
    var b :| Enumerates(b, m.Keys) && q == Records(b, m);
    SortedIsUnique(a, b, m.Keys);
  }

  // ----- decoding -----

  /** A decoder run ends with a map, an error, or a Go panic (a slice bound below zero). */
  datatype Decoded = Ok(states: States) | Malformed | Panic

  /** int(uint32): with a 32-bit int the top bit is the sign. */
  function ToInt(n: nat, wide: bool): int {
    if wide || n < 0x8000_0000 then n else n - 0x1_0000_0000
  }

  function Decode(payload: Bytes, acc: States, wide: bool): Decoded
    decreases |payload|
  {
    if payload == [] then Ok(acc)
    else if |payload| < 2 then Malformed
    else
      var originLen := GetLE(payload[..2]);
      var rest := payload[2..];
      if |rest| < originLen + 4 then Malformed
      else
        var noteLen := ToInt(GetLE(rest[originLen..originLen + 4]), wide);
        var tail := rest[originLen + 4..];
        if |tail| < noteLen then Malformed
        else if noteLen < 0 then Panic
        else Decode(tail[noteLen..], acc[rest[..originLen] := tail[..noteLen]], wide)
  }

  /** Where the fields of a record lie. */
  lemma RecordFields(o: Bytes, note: Bytes, more: Bytes)
    ensures var p, n := Record(o, note) + more, |o|;
            && |p| >= 6 + n && p[..2] == PutLE(n, 2)
            && var rest := p[2..];
               && |rest| >= n + 4 && rest[..n] == o && rest[n..n + 4] == PutLE(|note|, 4) && rest[n + 4..] == note + more
  {
    hide PutLE;
    var p := Record(o, note) + more;
    var rest := p[2..];
    assert p[..2] == PutLE(|o|, 2);
    assert rest == o + PutLE(|note|, 4) + note + more;
    assert rest[|o|..|o| + 4] == PutLE(|note|, 4);
  }

  lemma DecodeRecord(o: Bytes, note: Bytes, more: Bytes, acc: States, wide: bool)
    requires |o| <= MAX_U16 && |note| <= MAX_U32 && (wide || |note| < 0x8000_0000)
    ensures Decode(Record(o, note) + more, acc, wide) == Decode(more, acc[o := note], wide)
  {
    hide PutLE, GetLE, Record;
    Pow256Values();
    LERoundTrip(|o|, 2);
    LERoundTrip(|note|, 4);
    RecordFields(o, note, more);
    assert (note + more)[..|note|] == note && (note + more)[|note|..] == more;
  }

  /** The records of `keys`, entered into `acc` one by one. */
  function EnterAll(keys: seq<Bytes>, m: States, acc: States): States
    requires forall k :: k in keys ==> k in m
  {
    if keys == [] then acc else EnterAll(keys[1..], m, acc[keys[0] := m[keys[0]]])
  }

  lemma {:induction false} EnterAllHolds(keys: seq<Bytes>, m: States, acc: States, k: Bytes)
    requires forall x :: x in keys ==> x in m
    ensures k in EnterAll(keys, m, acc) <==> k in keys || k in acc
    ensures k in keys ==> EnterAll(keys, m, acc)[k] == m[k]
    ensures k !in keys && k in acc ==> EnterAll(keys, m, acc)[k] == acc[k]
  {
    if keys != [] {
      assert keys == [keys[0]] + keys[1..];
      EnterAllHolds(keys[1..], m, acc[keys[0] := m[keys[0]]], k);
    }
  }

  lemma {:induction false} DecodeRecords(keys: seq<Bytes>, m: States, acc: States, wide: bool)
    requires Encodable(m) && forall k :: k in keys ==> k in m
    requires wide || forall k :: k in keys ==> |m[k]| < 0x8000_0000
    ensures Decode(Records(keys, m), acc, wide) == Ok(EnterAll(keys, m, acc))
  {
    hide Decode, Record;
    if keys == [] {
      DecodeNothing(acc, wide);
    } else {
      var k0 := keys[0];
      assert k0 in keys;
      DecodeRecord(k0, m[k0], Records(keys[1..], m), acc, wide);
      DecodeRecords(keys[1..], m, acc[k0 := m[k0]], wide);
    }
  }

  lemma DecodeNothing(acc: States, wide: bool)
    ensures Decode([], acc, wide) == Ok(acc)
  {
  }

  lemma {:induction false} RecordsHoldNotes(keys: seq<Bytes>, m: States, k: Bytes)
    requires (forall x :: x in keys ==> x in m) && k in keys
    ensures |m[k]| <= |Records(keys, m)|
  {
    hide Record;
    if k != keys[0] {
      RecordsHoldNotes(keys[1..], m, k);
    }
    RecordHoldsNote(keys[0], m[keys[0]]);
  }

  lemma RecordHoldsNote(o: Bytes, note: Bytes)
    ensures |Record(o, note)| >= |note|
  {
  }

  /** Decoding an encoded map gives the map back, also with a 32-bit int, and never panics. */
  lemma PayloadRoundTrip(m: States, payload: Bytes, wide: bool)
    requires Encodable(m) && IsPayload(m, payload)
    requires wide || |payload| < 0x8000_0000
    ensures Decode(payload, map[], wide) == Ok(m)
  {
    hide Decode, Sorted;
    var keys :| Enumerates(keys, m.Keys) && payload == Records(keys, m);
    if !wide {
      forall k | k in keys ensures |m[k]| < 0x8000_0000 {
        RecordsHoldNotes(keys, m, k);
      }
    }
    DecodeRecords(keys, m, map[], wide);
    var out := EnterAll(keys, m, map[]);
    forall k ensures k in out <==> k in m {
      EnterAllHolds(keys, m, map[], k);
    }
    forall k | k in m ensures out[k] == m[k] {
      EnterAllHolds(keys, m, map[], k);
    }
    assert out == m;
  }

  /** The walk reaches a record whose note length has its top bit set. */
  predicate ReachesHugeNote(payload: Bytes)
    decreases |payload|
  {
    |payload| >= 2 &&
    var originLen := GetLE(payload[..2]);
    var rest := payload[2..];
    |rest| >= originLen + 4 &&
    var noteLen := GetLE(rest[originLen..originLen + 4]);
    var tail := rest[originLen + 4..];
    noteLen >= 0x8000_0000 || (noteLen <= |tail| && ReachesHugeNote(tail[noteLen..]))
  }

  /** On the 32-bit build the decoder panics on exactly those payloads; everywhere else, and on a
      64-bit build always, it reports an error or a map, and the two builds agree. */
  lemma {:induction false} PanicExactly(payload: Bytes, acc: States)
    requires |payload| < 0x8000_0000
    ensures Decode(payload, acc, false) == Panic <==> ReachesHugeNote(payload)
    ensures !ReachesHugeNote(payload) ==> Decode(payload, acc, false) == Decode(payload, acc, true)
    ensures ReachesHugeNote(payload) ==> Decode(payload, acc, true) == Malformed
    decreases |payload|
  {
    hide GetLE;
    if |payload| >= 2 {
      var originLen := GetLE(payload[..2]);
      var rest := payload[2..];
      if |rest| >= originLen + 4 {
        var field := rest[originLen..originLen + 4];
        LEBound(field);
        Pow256Values();
        var noteLen := GetLE(field);
        var tail := rest[originLen + 4..];
        if noteLen <= |tail| {
          PanicExactly(tail[noteLen..], acc[rest[..originLen] := tail[..noteLen]]);
        }
      }
    }
  }

  /** With a 64-bit int no payload panics. */
  lemma {:induction false} WideNeverPanics(payload: Bytes, acc: States)
    ensures Decode(payload, acc, true) != Panic
    decreases |payload|
  {
    hide GetLE;
    if |payload| >= 2 {
      var originLen := GetLE(payload[..2]);
      var rest := payload[2..];
      if |rest| >= originLen + 4 {
        var noteLen := GetLE(rest[originLen..originLen + 4]);
        var tail := rest[originLen + 4..];
        if noteLen <= |tail| {
          WideNeverPanics(tail[noteLen..], acc[rest[..originLen] := tail[..noteLen]]);
        }
      }
    }
  }

  /** Six bytes suffice; no encoded payload is among them. */
  lemma NarrowDecoderCanPanic()
    ensures Decode([0, 0, 0, 0, 0, 128], map[], false) == Panic
  {
    var p: Bytes := [0, 0, 0, 0, 0, 128];
    assert GetLE(p[..2]) == 0 by { assert p[..2] == PutLE(0, 2); LERoundTrip(0, 2); Pow256Values(); }
    var f := p[2..][0..4];
    assert f == PutLE(0x8000_0000, 4) by { assert f == [0, 0, 0, 128]; FourBytes(0x8000_0000); }
    LERoundTrip(0x8000_0000, 4);
    Pow256Values();
  }

  lemma FourBytes(n: nat)
    requires n < 0x1_0000_0000
    ensures PutLE(n, 4) == [n % 256, n / 256 % 256, n / 0x1_0000 % 256, n / 0x100_0000 % 256]
  {
    assert PutLE(n / 0x100_0000, 1) == [n / 0x100_0000 % 256];
    assert PutLE(n / 0x1_0000, 2) == [n / 0x1_0000 % 256] + PutLE(n / 0x1_0000 / 256, 1);
    assert PutLE(n / 256, 3) == [n / 256 % 256] + PutLE(n / 256 / 256, 2);
  }

  // ----- the loops of the source -----

  method SortedKeys(ks: set<Bytes>) returns (keys: seq<Bytes>)
    ensures Enumerates(keys, ks)
  {
    keys := [];
    var rest := ks;
    ghost var done := {};
    while rest != {}
      invariant rest <= ks && done == ks - rest
      invariant Enumerates(keys, done)
      decreases rest
    {
      var k :| k in rest;
      InsertSorts(keys, k, done);
      keys := Insert(keys, k);
      rest := rest - {k};
      done := done + {k};
    }
    assert done == ks;
  }

  /** encode: None is the error for an origin or note that does not fit its length field. */
  method Encode(states: States) returns (r: Option<Bytes>)
    ensures r.Some? <==> Encodable(states)
    ensures r.Some? ==> IsPayload(states, r.value)
  {
    hide Enumerates, Record;
    var keys := SortedKeys(states.Keys);
    KeysAreKeys(keys, states);
    var b: Bytes := [];
    var i := 0;
    assert keys[0..] == keys && [] + Records(keys, states) == Records(keys, states);
    while i < |keys|
      invariant 0 <= i <= |keys|
      invariant b + Records(keys[i..], states) == Records(keys, states)
      invariant forall j :: 0 <= j < i ==> |keys[j]| <= MAX_U16 && |states[keys[j]]| <= MAX_U32
    {
      var origin := keys[i];
      assert origin in keys;
      var note := states[origin];
      if |origin| > MAX_U16 || |note| > MAX_U32 {
        return None;
      }
      assert keys[i..][0] == origin && keys[i..][1..] == keys[i + 1..];
      assert b + (Record(origin, note) + Records(keys[i + 1..], states)) == b + Record(origin, note) + Records(keys[i + 1..], states);
      b := b + Record(origin, note);
      i := i + 1;
    }
    assert keys[i..] == [];
    assert b == Records(keys, states);
    return Some(b);
  }

  lemma KeysAreKeys(keys: seq<Bytes>, m: States)
    requires Enumerates(keys, m.Keys)
    ensures forall k :: k in keys <==> k in m
  {
  }

  method DecodePayload(payload: Bytes, wide: bool) returns (r: Decoded)
    ensures r == Decode(payload, map[], wide)
  {
    hide GetLE;
    var rest := payload;
    var states: States := map[];
    while rest != []
      invariant Decode(rest, states, wide) == Decode(payload, map[], wide)
      decreases |rest|
    {
      if |rest| < 2 {
        return Malformed;
      }
      var originLen := GetLE(rest[..2]);
      var body := rest[2..];
      if |body| < originLen + 4 {
        return Malformed;
      }
      var noteLen := ToInt(GetLE(body[originLen..originLen + 4]), wide);
      var tail := body[originLen + 4..];
      if |tail| < noteLen {
        return Malformed;
      }
      if noteLen < 0 {
        return Panic;
      }
      states := states[body[..originLen] := tail[..noteLen]];
      rest := tail[noteLen..];
    }
    return Ok(states);
  }
}
