/** Signed notes, the views they carry, and the consistency rule between two views of one log. */
module Notes {
  import opened Common
  import opened Merkle

  datatype Checkpoint = Checkpoint(origin: Bytes, n: nat, hash: Digest)
  datatype View = View(size: nat, hash: Digest)
  datatype LogState = LogState(size: nat, hash: Digest, note: Bytes)

  /** What a run takes from outside: the checkpoint parser, a deterministic partial function on
      note text, the tree hash, and the consistency proofs its clients send. Every result is for
      every such set of proofs; naming it lets a result say which inputs of the hash it is about. */
  datatype Env = Env(parse: Bytes -> Option<Checkpoint>, hasher: Hasher, proofs: set<seq<Digest>>)

  function ViewOf(st: LogState): View {
    View(st.size, st.hash)
  }

  predicate BlankAt(b: Bytes, i: int) {
    0 <= i && i + 1 < |b| && b[i] == NEWLINE && b[i + 1] == NEWLINE
  }

  /** bytes.Index of a blank line, searching from position `from`. */
  function BlankFrom(b: Bytes, from: nat): (r: Option<nat>)
    requires from <= |b|
    ensures r.None? ==> forall i :: from <= i ==> !BlankAt(b, i)
    ensures r.Some? ==> from <= r.value && BlankAt(b, r.value) && forall i :: from <= i < r.value ==> !BlankAt(b, i)
    decreases |b| - from
  {
    if from == |b| then None else if BlankAt(b, from) then Some(from) else BlankFrom(b, from + 1)
  }

  /** The checkpoint text of a note: everything up to and including the first newline of its
      first blank line. */
  function CutText(note: Bytes): (r: Option<Bytes>)
    ensures r.Some? ==> IsText(r.value) && r.value <= note
  {
    match BlankFrom(note, 0)
    case None => None
    case Some(sep) =>
      PrefixIsText(note, sep);
      Some(note[..sep + 1])
  }

  ghost predicate IsText(text: Bytes) {
    text != [] && text[|text| - 1] == NEWLINE && forall i :: !BlankAt(text, i)
  }

  lemma PrefixIsText(note: Bytes, sep: nat)
    requires BlankAt(note, sep) && forall i :: 0 <= i < sep ==> !BlankAt(note, i)
    ensures IsText(note[..sep + 1])
  {
    var text := note[..sep + 1];
    forall i | BlankAt(text, i) ensures false {
      assert BlankAt(note, i);
    }
  }

  /** note.Sign: the text, a blank line, the signature lines. */
  function SignedNote(text: Bytes, sig: Bytes): Bytes {
    text + [NEWLINE] + sig
  }

  /** A signed note splits back into exactly the text that was signed. */
  lemma SignedNoteSplits(text: Bytes, sig: Bytes)
    requires IsText(text)
    ensures CutText(SignedNote(text, sig)) == Some(text)
    ensures SignedNote(text, sig)[|text| + 1..] == sig
  {
    var signed := SignedNote(text, sig);
    var sep := |text| - 1;
    assert BlankAt(signed, sep);
    forall i | 0 <= i < sep ensures !BlankAt(signed, i) {
      assert BlankAt(signed, i) == BlankAt(text, i);
    }
    assert BlankFrom(signed, 0) == Some(sep);
    assert signed[..sep + 1] == text;
  }

  /** RestoreNote: re-admit a persisted note under the origin its own text names. */
  function Restore(E: Env, note: Bytes): Option<(Bytes, LogState)> {
    match CutText(note)
    case None => None
    case Some(text) =>
      match E.parse(text)
      case None => None
      case Some(cp) => Some((cp.origin, LogState(cp.n, cp.hash, note)))
  }

  /** Whatever the sequencer persists for a submitted text is re-admitted at the next boot with
      the origin, size and hash that were checked. */
  lemma PersistedNoteReadmits(E: Env, text: Bytes, sig: Bytes, cp: Checkpoint)
    requires IsText(text) && E.parse(text) == Some(cp)
    ensures Restore(E, SignedNote(text, sig)) == Some((cp.origin, LogState(cp.n, cp.hash, SignedNote(text, sig))))
  {
    SignedNoteSplits(text, sig);
  }

  /** The text of a note is what stands before its first blank line, newline included. */
  ghost predicate IsCut(note: Bytes, text: Bytes) {
    IsText(text) && text + [10] <= note
  }

  lemma CutExactly(note: Bytes, text: Bytes)
    ensures CutText(note) == Some(text) <==> IsCut(note, text)
  {
    if IsCut(note, text) {
      var sep := |text| - 1;
      assert (text + [10])[|text|] == 10;
      assert BlankAt(note, sep);
      forall i | 0 <= i < sep ensures !BlankAt(note, i) {
        assert (text + [10])[i] == note[i] && (text + [10])[i + 1] == note[i + 1];
        assert BlankAt(note, i) == BlankAt(text, i);
      }
      assert BlankFrom(note, 0) == Some(sep);
      assert note[..sep + 1] == text;
    }
  }

  /** A persisted note is re-admitted if and only if it has a text that parses, and then as what that
      text says, with the note itself. */
  lemma RestoreExactly(E: Env, note: Bytes, o: Bytes, st: LogState)
    ensures Restore(E, note) == Some((o, st))
       <==> st.note == note && exists text :: IsCut(note, text) && E.parse(text) == Some(Checkpoint(o, st.size, st.hash))
  {
    hide IsCut, CutText;
    forall text ensures CutText(note) == Some(text) <==> IsCut(note, text) {
      CutExactly(note, text);
    }
  }

  function Latest(prev: Option<View>): nat {
    if prev.Some? then prev.value.size else 0
  }

  /** `next` may follow `prev`: the empty tree has the empty hash, an equal size has the equal
      hash, anything may follow the empty view, and growth has passed the consistency check with a
      proof that a client sent. */
  ghost predicate Follows(E: Env, prev: Option<View>, next: View) {
    || prev == Some(next)
    || (next.size == 0 && Latest(prev) == 0 && next.hash == E.hasher.empty)
    || (next.size > 0 && Latest(prev) == 0)
    || (prev.Some? && exists proof :: proof in E.proofs && Checks(E, proof, prev.value, next))
  }

  predicate Checks(E: Env, proof: seq<Digest>, prev: View, next: View) {
    CheckTree(E.hasher, proof, next.size, next.hash, prev.size, prev.hash)
  }

  /** One of the proofs sent passes between the two views and yet parts from the tree over d, at a
      node where the hash collides. */
  ghost predicate StepClashes(E: Env, prev: View, next: View, d: seq<Leaf>) {
    exists proof :: proof in E.proofs && Checks(E, proof, prev, next) && Clashes(E.hasher, proof, d, prev.size, prev.hash)
  }

  /** If the later view is the root of d, the earlier one is the root of a prefix of d, unless the
      checked proof between them clashes with d. */
  lemma FollowsMeansPrefix(E: Env, prev: View, next: View, d: seq<Leaf>)
    requires Follows(E, Some(prev), next)
    requires prev.size == 0 ==> prev.hash == E.hasher.empty
    requires |d| == next.size && next.hash == TreeHash(E.hasher, d)
    ensures prev.size <= next.size
    ensures prev.hash == TreeHash(E.hasher, d[..prev.size]) || StepClashes(E, prev, next, d)
  {
    if prev == next {
      assert d[..prev.size] == d;
    } else if prev.size > 0 {
      var proof :| proof in E.proofs && Checks(E, proof, prev, next);
      CheckTreeSound(E.hasher, proof, d, prev.size, prev.hash);
    }
  }
}
