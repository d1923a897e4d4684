/** The client-to-server packet catalogue, reduced to the fields the connection reads. */
module ClientPackets {

  import opened Primitives

  /** The MirGridType of a UseItem request: only the inventory grid is acted on. */
  datatype Grid = InventoryGrid | OtherGrid

  /** SpellToggleState; the handler acts only on states above None. */
  datatype ToggleState = ToggleNone | ToggleFalse | ToggleTrue

  /** The movement, combat and casting requests whose admission waits for a cooldown. */
  datatype TimedAction =
    | Turn(direction: int)
    | Walk(direction: int)
    | Attack(direction: int)
    | RangeAttack(direction: int)
    | Harvest(direction: int)
    | Magic(spell: int)

  /** Game requests whose handler checks the stage and then makes one Player call. */
  datatype PlayerRequest =
    | MoveItem | StoreItem | DepositRefineItem | RetrieveRefineItem | RefineCancel
    | RefineItem | CheckRefine | ReplaceWedRing | DepositTradeItem | RetrieveTradeItem
    | TakeBackItem | MergeItem | EquipItem | RemoveItem | SplitItem | DropItem | DropGold
    | PickUp | BuyItem | SellItem | RepairItem | SRepairItem | SwitchGroup | AddMember
    | DelMember | GroupInvite | TownRevive | ConsignItem | MarketSearch | MarketRefresh
    | MarketPage | MarketBuy | MarketGetBack | MarketSellNow | RequestUserName
    | RequestChatItem | EditGuildMember | EditGuildNotice | GuildInvite | RequestGuildInfo
    | GuildNameReturn | GuildStorageGoldChange | GuildStorageItemChange | GuildWarReturn
    | MarriageRequest | MarriageReply | ChangeMarriage | DivorceRequest | DivorceReply
    | TradeRequest | TradeGold | TradeReply | TradeConfirm | TradeCancel | AcceptQuest
    | FinishQuest | AbandonQuest | ShareQuest | CombineItem | SendMail | ReadMail
    | CollectParcel | DeleteMail | LockMail | AddFriend | RemoveFriend | RefreshFriends
    | AddMemo | GuildBuffUpdate | GameshopBuy | NPCConfirmInput

  /** A decoded client packet. `Invalid` is an identifier the dispatcher has no case for. */
  datatype Packet =
    | ClientVersion(versionHash: seq<byte>)
    | Disconnect
    | KeepAlive(time: int)
    | NewAccount
    | ChangePassword
    | Login
    | NewCharacter
    | DeleteCharacter(characterIndex: int)
    | StartGame(characterIndex: int)
    | LogOut
    | Timed(action: TimedAction)
    | Chat(messageLength: nat)
    | MagicKey(magicSpell: int, key: int)
    | CallNPC(objectID: int, keyLength: nat)
    | Observe
    | GetRanking
    | ChangeAMode(aMode: int)
    | ChangePMode(pMode: int)
    | ChangeTrade(allowTrade: bool)
    | UseItem(grid: Grid)
    | SpellToggle(canUse: ToggleState)
    | BuyItemBack
    | ReportIssue
    | MailLockedItem(uniqueID: int, locked: bool)
    | MailCost
    | Request(request: PlayerRequest)
    | Invalid(index: int)
}
