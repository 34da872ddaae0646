/**
 * The seed lists from which the forms derive program addresses. The derivation itself
 * (`PublicKey.findProgramAddressSync` for the store program's id) is a hash outside this
 * model; it enters every operation that needs it as the parameter `derive`.
 */
module Pda {
  import opened Bytes
  import opened Idl

  type Seeds = seq<seq<byte>>

  /** `findProgramAddressSync(seeds, programId)[0]` for the store program. */
  type Derivation = Seeds -> Key

  /** The bytes of the literal seeds "store", "design" and "order". */
  const STORE_SEED: seq<byte> := [0x73, 0x74, 0x6f, 0x72, 0x65]
  const DESIGN_SEED: seq<byte> := [0x64, 0x65, 0x73, 0x69, 0x67, 0x6e]
  const ORDER_SEED: seq<byte> := [0x6f, 0x72, 0x64, 0x65, 0x72]

  /** They are `Buffer.from` of the seed words. */
  lemma SeedWordsAreAscii()
    ensures Ascii("store") == STORE_SEED
    ensures Ascii("design") == DESIGN_SEED
    ensures Ascii("order") == ORDER_SEED
  {
  }

  /** `[Buffer.from("store")]`: the store is a singleton at a fixed address. */
  function StoreSeeds(): (r: Seeds)
    ensures |r| == 1 && r[0] == STORE_SEED
  {
    [STORE_SEED]
  }

  /** `["design", store address, designId as 8 little-endian bytes]`. */
  function DesignSeeds(store: Key, designId: u64): (r: Seeds)
    ensures |r| == 3 && r[0] == DESIGN_SEED && r[1] == store
    ensures |r[2]| == 8 && FromLittleEndian(r[2]) == designId
  {
    [DESIGN_SEED, store, U64LittleEndian(designId)]
  }

  /** `["order", store address, buyer key]`: no design takes part. */
  function OrderSeeds(store: Key, buyer: Key): (r: Seeds)
    ensures |r| == 3 && r[0] == ORDER_SEED && r[1] == store && r[2] == buyer
  {
    [ORDER_SEED, store, buyer]
  }

  /** The design seed list determines the store and the id it was built from. */
  lemma DesignSeedsInjective(s1: Key, id1: u64, s2: Key, id2: u64)
    ensures DesignSeeds(s1, id1) == DesignSeeds(s2, id2) ==> s1 == s2 && id1 == id2
  {
  }

  /** The order seed list determines the store and the buyer it was built from. */
  lemma OrderSeedsInjective(s1: Key, b1: Key, s2: Key, b2: Key)
    ensures OrderSeeds(s1, b1) == OrderSeeds(s2, b2) ==> s1 == s2 && b1 == b2
  {
  }

  /** The three kinds of seed list never coincide: their first seeds differ. */
  lemma SeedKindsDistinct(store: Key, id: u64, buyer: Key)
    ensures StoreSeeds() != DesignSeeds(store, id)
    ensures StoreSeeds() != OrderSeeds(store, buyer)
    ensures DesignSeeds(store, id) != OrderSeeds(store, buyer)
  {
    assert |StoreSeeds()| == 1;
    assert DesignSeeds(store, id)[0][0] != OrderSeeds(store, buyer)[0][0];
  }
}
