/** The game's data records: a card's description (`CardInfo`), one
    recorded attack of a battle (`CardAttackPlaybackInfo`), and the
    recorded battle handed to the playback scene (`BattlePlaybackInfo`).
    Fields that the TypeScript classes may leave unset (they are built with
    `Object.assign` from a partial object) are `Option`s. */
module Models {
  import opened Util

  /** Rarity tiers, in the order of the ledger's enum. */
  datatype Rarity = Common | Rare | Epic | Legendary | Mythic

  /** Card elements, in the order of the ledger's enum. */
  datatype Element = Fire | Water | Earth | Steel | Nature

  datatype Point = Point(x: real, y: real)

  datatype CardInfo = CardInfo(
    attack: Option<int>,
    health: Option<int>,
    speed: Option<int>,
    element: Option<Element>,
    rarity: Option<Rarity>,
    name: Option<string>)

  /** A card description with every field given. */
  function FullCard(attack: int, health: int, speed: int, rarity: Rarity, element: Element, name: string): CardInfo {
    CardInfo(Some(attack), Some(health), Some(speed), Some(element), Some(rarity), Some(name))
  }

  /** One recorded attack: which card of each deck took part, both cards'
      health after the hit, the damage dealt, and who attacked (0 is deck A;
      any other value is deck B). */
  datatype AttackInfo = AttackInfo(
    cardAIndex: nat,
    cardBIndex: nat,
    cardAHealthAfter: int,
    cardBHealthAfter: int,
    damage: int,
    attacker: int)

  datatype DeckData = DeckData(ownerAddress: string, cards: seq<CardInfo>)

  datatype BattlePlaybackInfo = BattlePlaybackInfo(
    attacks: seq<AttackInfo>,
    deckA: DeckData,
    deckB: DeckData,
    deckWonIndex: int)
}
