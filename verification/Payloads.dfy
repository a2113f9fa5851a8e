/** The three installed payloads of a NanoHost and what their live names show. */
module Payloads {
  import opened Common

  datatype Key = Nanohost | Gateway | Unit
  type Hash = string

  const Keys: seq<Key> := [Nanohost, Gateway, Unit]

  lemma AllKeys()
    ensures forall k: Key :: k in Keys
  {
    forall k: Key ensures k in Keys {
      assert k == Keys[if k.Nanohost? then 0 else if k.Gateway? then 1 else 2];
    }
  }

  datatype PerKey<T> = PerKey(nanohost: T, gateway: T, unit: T)
  {
    function At(k: Key): T {
      match k case Nanohost => nanohost case Gateway => gateway case Unit => unit
    }
    function With(k: Key, t: T): PerKey<T> {
      match k case Nanohost => this.(nanohost := t) case Gateway => this.(gateway := t) case Unit => this.(unit := t)
    }
  }

  /** The content found under each live name; `None` for a missing file. */
  type Names = PerKey<Option<Hash>>

  /** Every live name shows its expected content. */
  function Present(hashes: PerKey<Hash>): Names {
    PerKey(Some(hashes.nanohost), Some(hashes.gateway), Some(hashes.unit))
  }

  /**
   * The live names at one time. Every write takes a new serial number, as the identity of a file holds
   * its inode and its modification time: equal payloads were not written in between.
   */
  datatype Payload = Payload(names: Names, serial: nat)
}
