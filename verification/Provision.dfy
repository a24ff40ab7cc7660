/** The provisioning server's ownership of the signing key: install, rotate, destroy. */
module Provision {
  import opened Common
  import opened Sequencer
  import opened WitnessService

  /** zero: overwrite key material in place. */
  method Zero(b: array<Byte>)
    modifies b
    ensures forall i :: 0 <= i < b.Length ==> b[i] == 0
  {
    for i := 0 to b.Length
      invariant forall k :: 0 <= k < i ==> b[k] == 0
    {
      b[i] := 0;
    }
  }

  /** A key slice is destroyed when every byte of it is zero. */
  ghost predicate Destroyed(b: array<Byte>)
    reads b
  {
    forall i :: 0 <= i < b.Length ==> b[i] == 0
  }

  class Server {
    const w: Witness
    /** The slice each signer closes over. */
    var material: map<Signer, array<Byte>>
    /** The key this server installed and must destroy, or None. */
    var priv: Option<Signer>

    /** No two signers share a slice, and the installed signer is the one the server owns. */
    ghost predicate Valid()
      reads this, w
    {
      && (forall k, l :: k in material && l in material && material[k] == material[l] ==> k == l)
      && (priv.Some? ==> priv.value in material)
      && w.signer == priv
    }

    constructor (w: Witness)
      requires w.signer == None
      ensures Valid() && this.w == w && priv == None && material == map[]
    {
      this.w := w;
      material, priv := map[], None;
    }

    /** The key the witness signs with. */
    ghost function Live(): set<array<Byte>>
      reads this, w
    {
      if w.signer.Some? && w.signer.value in material then {material[w.signer.value]} else {}
    }

    /** The locked region of provision: swap the signer, destroy the old key, own the new one. */
    method Install(signer: Signer, key: array<Byte>)
      requires Valid() && signer !in material && key !in material.Values
      modifies this, w, Live()
      ensures Valid() && priv == Some(signer) && w.signer == Some(signer) && w.epoch == old(w.epoch) + 1
      ensures material == old(material)[signer := key]
      ensures key[..] == old(key[..])
      ensures old(priv).Some? ==> Destroyed(old(material[priv.value]))
      ensures forall k :: k in old(material) && old(priv) != Some(k) ==> material[k][..] == old(material[k][..])
    {
      assert forall k :: k in material ==> material[k] in material.Values;
      material := material[signer := key];
      w.SetSigner(signer);
      if priv.Some? {
        Zero(material[priv.value]);
      }
      priv := Some(signer);
    }

    method Deprovision()
      requires Valid()
      modifies this, w, Live()
      ensures Valid() && priv == None && w.signer == None && w.epoch == old(w.epoch) + 1
      ensures material == old(material)
      ensures old(priv).Some? ==> Destroyed(old(material[priv.value]))
      ensures forall k :: k in old(material) && old(priv) != Some(k) ==> material[k][..] == old(material[k][..])
    {
      w.ClearSigner();
      if priv.Some? {
        Zero(material[priv.value]);
      }
      priv := None;
    }
  }
}
