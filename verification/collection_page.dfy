/** The collection page (frontend/src/components/Collection.jsx): for each
    token the player owns it reads the card's stats from the ledger and its
    metadata through the backend proxy, and builds one display record; a
    card image that fails to load falls back, once, to one of four cover
    pictures picked from the card's id.

    The ledger reads and the metadata fetch are parameters. The mixing steps
    that turn a card id into a 32-bit value are not modelled: the cover is
    chosen from an arbitrary unsigned 32-bit value. */
module CollectionPage {
  import opened Util

  const RandomCovers: seq<string> := [
    "/assets/randomCardCover/randomCover1.png",
    "/assets/randomCardCover/randomCover2.png",
    "/assets/randomCardCover/randomCover3.png",
    "/assets/randomCardCover/randomCover4.jpg"
  ]

  const TwoTo32 := 0x1_0000_0000

  /** The seeded random number: an unsigned 32-bit value scaled into [0,1). */
  function SeededFraction(mixed: nat): (f: real)
    requires mixed < TwoTo32
    ensures 0.0 <= f < 1.0
  {
    mixed as real / TwoTo32 as real
  }

  /** `getRandomCover`'s index: the fraction scaled by the number of covers,
      rounded down. */
  function CoverIndex(mixed: nat): (i: int)
    requires mixed < TwoTo32
    ensures 0 <= i < |RandomCovers|
  {
    (SeededFraction(mixed) * |RandomCovers| as real).Floor
  }

  /** The index is the value's top two bits. */
  lemma CoverIndexIsTopBits(mixed: nat)
    requires mixed < TwoTo32
    ensures CoverIndex(mixed) == mixed / 0x4000_0000
  {
    var q := mixed / 0x4000_0000;
    var x := SeededFraction(mixed) * 4.0;
    assert x == mixed as real / 0x4000_0000 as real;
    assert q as real * 0x4000_0000 as real <= mixed as real < (q + 1) as real * 0x4000_0000 as real;
    assert q as real <= x < (q + 1) as real;
  }

  function RandomCover(mixed: nat): (cover: string)
    requires mixed < TwoTo32
    ensures cover in RandomCovers
  {
    RandomCovers[CoverIndex(mixed)]
  }

  /** An image of a card with a fallback. `cover` is the card's random
      cover; `src` is the image address it was given, where an absent or
      empty one counts as none. */
  class CardImage {
    const cover: string
    var imgSrc: string
    var hasError: bool

    constructor (mixed: nat, src: Option<string>)
      requires mixed < TwoTo32
      ensures cover == RandomCover(mixed) && !hasError
      ensures imgSrc == if src.Some? && src.value != "" then src.value else cover
    {
      cover := RandomCover(mixed);
      imgSrc := if src.Some? && src.value != "" then src.value else RandomCover(mixed);
      hasError := false;
    }

    /** The image failed to load: the first failure switches to the cover,
        later ones change nothing. */
    method HandleError()
      modifies this
      ensures hasError && imgSrc == if old(hasError) then old(imgSrc) else cover
    {
      if !hasError {
        hasError := true;
        imgSrc := cover;
      }
    }

    /** `n` load failures in a row, each handled by `HandleError`: the
        image ends as `ImageAfterErrors` says. */
    method HandleErrors(n: nat)
      modifies this
      ensures imgSrc == ImageAfterErrors(old(imgSrc), old(hasError), cover, n)
      ensures hasError == (old(hasError) || n > 0)
    {
      var i := 0;
      while i < n
        invariant 0 <= i <= n
        invariant ImageAfterErrors(old(imgSrc), old(hasError), cover, n) == ImageAfterErrors(imgSrc, hasError, cover, n - i)
        invariant hasError == (old(hasError) || i > 0)
      {
        HandleError();
        i := i + 1;
      }
    }
  }

  /** Any run of load failures leaves the image as one failure does. */
  lemma FallbackIsOneShot(img: CardImage, n: nat)
    requires n >= 1
    ensures ImageAfterErrors(img.imgSrc, img.hasError, img.cover, n)
      == ImageAfterErrors(img.imgSrc, img.hasError, img.cover, 1)
  {
    ErrorsSettle(img.imgSrc, img.hasError, img.cover, n);
  }

  /** The image shown after `n` load failures, as `HandleError` leaves it. */
  function ImageAfterErrors(src: string, hasError: bool, cover: string, n: nat): string
    decreases n
  {
    if n == 0 then src
    else if hasError then ImageAfterErrors(src, hasError, cover, n - 1)
    else ImageAfterErrors(cover, true, cover, n - 1)
  }

  lemma {:induction false} ErrorsSettle(src: string, hasError: bool, cover: string, n: nat)
    requires n >= 1
    ensures ImageAfterErrors(src, hasError, cover, n) == if hasError then src else cover
    decreases n
  {
    if n > 1 {
      if hasError {
        ErrorsSettle(src, hasError, cover, n - 1);
      } else {
        ErrorsSettle(cover, true, cover, n - 1);
      }
    }
  }

  // ---------------------------------------------------------------------
  // Display records

  /** What the ledger stores for a card: stats and enum indices. */
  datatype ChainCard = ChainCard(attack: int, health: int, speed: int, attr: nat, rarity: nat, uri: string)

  /** The metadata document; either field may be absent. */
  datatype Metadata = Metadata(name: Option<string>, image: Option<string>)

  datatype CollectionRecord = CollectionRecord(
    id: string, attack: int, health: int, speed: int, attr: nat, rarity: nat,
    name: Option<string>, image: string, rarityStr: Option<string>, attrStr: Option<string>)

  const IpfsScheme := "ipfs://"
  const PinataGateway := "https://gateway.pinata.cloud/ipfs/"

  /** The metadata used when the fetch throws or answers not-ok. */
  function FallbackMetadata(id: nat): (m: Metadata)
    ensures m.image == Some("")
  {
    Metadata(Some("Card #" + NatToString(id)), Some(""))
  }

  /** The record's image: empty when the metadata gives none, otherwise the
      address with its first `ipfs://` turned into the gateway prefix. */
  function GatewayImage(image: Option<string>): string {
    if image.None? || image.value == "" then "" else ReplaceFirst(image.value, IpfsScheme, PinataGateway)
  }

  /** An `ipfs://` address becomes a gateway address with the same path; an
      address without the scheme anywhere is kept; and only the first
      occurrence is rewritten, the text before and after it kept as is. */
  lemma GatewayRewrite(image: string)
    requires image != ""
    ensures |IpfsScheme| <= |image| && image[..|IpfsScheme|] == IpfsScheme ==>
      GatewayImage(Some(image)) == PinataGateway + image[|IpfsScheme|..]
    ensures !Contains(image, IpfsScheme) ==> GatewayImage(Some(image)) == image
    ensures IndexOf(image, IpfsScheme).Some? ==>
      var i := IndexOf(image, IpfsScheme).value;
      GatewayImage(Some(image)) == image[..i] + PinataGateway + image[i + |IpfsScheme|..]
  {
    GatewayIsReplace(image);
    ReplaceFirstSplit(image, IpfsScheme, PinataGateway);
    if |IpfsScheme| <= |image| && image[..|IpfsScheme|] == IpfsScheme {
      ReplaceLeadingPattern(image, IpfsScheme, PinataGateway);
    }
  }

  lemma GatewayIsReplace(image: string)
    requires image != ""
    ensures GatewayImage(Some(image)) == ReplaceFirst(image, IpfsScheme, PinataGateway)
  {
  }

  /** Names of the rarities and of the elements, by their ledger index; an
      index past the list has no name. */
  function RarityName(i: nat): (r: Option<string>)
    ensures r.Some? <==> i < 5
  {
    if i < 5 then Some(["Common", "Rare", "Epic", "Legendary", "Mythic"][i]) else None
  }

  function ElementName(i: nat): (r: Option<string>)
    ensures r.Some? <==> i < 5
  {
    if i < 5 then Some(["Fire", "Water", "Earth", "Steel", "Nature"][i]) else None
  }

  /** Different indices have different names, so the name gives the index
      back. */
  lemma NamesAreDistinct(i: nat, j: nat)
    requires i < 5 && j < 5 && i != j
    ensures RarityName(i) != RarityName(j)
    ensures ElementName(i) != ElementName(j)
  {
  }

  /** The record for one token, given its ledger entry and what the
      metadata fetch gave (none when it threw or answered not-ok). */
  function BuildRecord(id: nat, card: ChainCard, fetched: Option<Metadata>): (r: CollectionRecord)
    ensures IsDigits(r.id) && ParseDigits(r.id) == id
    ensures (r.attack, r.health, r.speed, r.attr, r.rarity) == (card.attack, card.health, card.speed, card.attr, card.rarity)
    ensures fetched.None? ==> r.name == Some("Card #" + r.id) && r.image == ""
    ensures fetched.Some? ==> r.name == fetched.value.name && r.image == GatewayImage(fetched.value.image)
    ensures r.rarityStr.Some? <==> card.rarity < 5
    ensures r.attrStr.Some? <==> card.attr < 5
  {
    NatToStringRoundTrip(id);
    var meta := if fetched.Some? then fetched.value else FallbackMetadata(id);
    CollectionRecord(NatToString(id), card.attack, card.health, card.speed, card.attr, card.rarity,
      meta.name, GatewayImage(meta.image), RarityName(card.rarity), ElementName(card.attr))
  }

  /** Every ledger read of a token's entry succeeds. */
  predicate ReadsSucceed(ids: seq<nat>, chain: nat -> Option<ChainCard>) {
    forall k :: 0 <= k < |ids| ==> chain(ids[k]).Some?
  }

  /** `records` are the records of the first `n` tokens, in token order. */
  predicate BuiltUpTo(records: seq<CollectionRecord>, ids: seq<nat>, n: nat,
                      chain: nat -> Option<ChainCard>, metadata: nat -> Option<Metadata>)
    requires n <= |ids| && forall k :: 0 <= k < n ==> chain(ids[k]).Some?
  {
    |records| == n && forall k :: 0 <= k < n ==> records[k] == BuildRecord(ids[k], chain(ids[k]).value, metadata(ids[k]))
  }

  /** The page's state: the records shown and whether a load is running. */
  class CollectionView {
    var cards: seq<CollectionRecord>
    var loading: bool

    constructor ()
      ensures cards == [] && !loading
    {
      cards, loading := [], false;
    }

    /** `loadCollection`. `walletPresent` says whether a wallet is
        installed; `tokenIds` is the owner's token list (none when the read
        throws); `chain` gives each token's ledger entry (none when the read
        throws) and `metadata` what its fetch gives. Without a wallet nothing
        happens, not even the loading flag; a throw anywhere but in a
        metadata fetch leaves the shown records as they were. */
    method LoadCollection(walletPresent: bool, tokenIds: Option<seq<nat>>,
                          chain: nat -> Option<ChainCard>, metadata: nat -> Option<Metadata>)
      modifies this
      ensures !walletPresent ==> loading == old(loading) && cards == old(cards)
      ensures walletPresent ==> !loading
      ensures tokenIds.None? ==> cards == old(cards)
      ensures walletPresent && tokenIds.Some? && !ReadsSucceed(tokenIds.value, chain) ==> cards == old(cards)
      ensures walletPresent && tokenIds.Some? && ReadsSucceed(tokenIds.value, chain) ==>
        BuiltUpTo(cards, tokenIds.value, |tokenIds.value|, chain, metadata)
    {
      if !walletPresent {
        return;
      }
      loading := true;
      if tokenIds.None? {
        loading := false;
        return;
      }
      var ids := tokenIds.value;
      var loaded: seq<CollectionRecord> := [];
      var i := 0;
      while i < |ids|
        invariant 0 <= i <= |ids|
        invariant forall k :: 0 <= k < i ==> chain(ids[k]).Some?
        invariant BuiltUpTo(loaded, ids, i, chain, metadata)
        invariant cards == old(cards)
      {
        var card := chain(ids[i]);
        if card.None? {
          assert !ReadsSucceed(ids, chain);
          loading := false;
          return;
        }
        loaded := loaded + [BuildRecord(ids[i], card.value, metadata(ids[i]))];
        i := i + 1;
      }
      cards := loaded;
      loading := false;
    }
  }

  /** Distinct tokens give records with distinct ids, in token order. */
  lemma RecordIdsDistinct(ids: seq<nat>, records: seq<CollectionRecord>)
    requires |records| == |ids| && NoDup(ids)
    requires forall k :: 0 <= k < |ids| ==> IsDigits(records[k].id) && ParseDigits(records[k].id) == ids[k]
    ensures forall i, j :: 0 <= i < j < |records| ==> records[i].id != records[j].id
  {
  }
}
