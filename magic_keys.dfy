/** The hot-key assignment performed by the MagicKey handler. */
module MagicKeys {

  import opened MirDatabase

  /** One iteration of the handler's loop. */
  function RebindOne(m: UserMagic, spell: int, key: int): UserMagic {
    if m.spell != spell then
      (if m.key == key then m.(key := 0) else m)
    else m.(key := key)
  }

  /**
   * The spell list after binding `key` to `spell`: every entry of that spell
   * takes the key, every other entry that held the key loses it, and nothing
   * else changes.
   */
  function Rebind(ms: seq<UserMagic>, spell: int, key: int): (r: seq<UserMagic>)
    ensures |r| == |ms|
    ensures forall i :: 0 <= i < |ms| ==> r[i].spell == ms[i].spell
    ensures forall i :: 0 <= i < |ms| && ms[i].spell == spell ==> r[i].key == key
    ensures forall i :: 0 <= i < |ms| && ms[i].spell != spell ==>
              r[i].key == if ms[i].key == key then 0 else ms[i].key
  {
    if ms == [] then [] else [RebindOne(ms[0], spell, key)] + Rebind(ms[1..], spell, key)
  }

  /** After a rebind, a non-zero key belongs to the chosen spell and no other. */
  lemma KeyOwnedBySpell(ms: seq<UserMagic>, spell: int, key: int, i: nat)
    requires key != 0 && i < |ms|
    ensures Rebind(ms, spell, key)[i].key == key <==> ms[i].spell == spell
  {
  }

  /** Binding the same key to the same spell again changes nothing. */
  lemma {:induction false} RebindIdempotent(ms: seq<UserMagic>, spell: int, key: int)
    ensures Rebind(Rebind(ms, spell, key), spell, key) == Rebind(ms, spell, key)
  {
    if ms != [] {
      RebindIdempotent(ms[1..], spell, key);
    }
  }
}
