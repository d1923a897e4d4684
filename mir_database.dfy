/** The persisted records the connection reads or updates (Server.MirDatabase). */
module MirDatabase {

  /** DateTime.MinValue, in the millisecond clock used for Envir.Now. */
  const MinValue: nat := 0

  /** An item definition; `index` stands for the object's identity. */
  datatype ItemInfo = ItemInfo(index: int, name: string, classBased: bool, levelBased: bool)

  /** One character of an account: the fields StartGame and DeleteCharacter use. */
  datatype CharacterInfo = CharacterInfo(
    index: int,
    deleted: bool,
    deleteDate: int,
    banned: bool,
    banReason: string,
    expiryDate: int)

  /** A spell the character knows and the hot-key it is bound to (0: none). */
  datatype UserMagic = UserMagic(spell: int, key: int)
}
