/** The main game scene (frontend/src/game/scenes/CardMain.ts): it builds
    the card picker from the player's collection, fetched once and then
    served from a cache (a placeholder deck stands in when the fetch gives
    nothing), and after a match it plays a fixed recorded battle, shows the
    result, and on replay tears both down and rebuilds the picker.

    The fetch result is a parameter. Camera fades are kept only as events
    in the scene's log; the objects the scene builds are kept as the data
    they are built from, and an object is present while it is alive. */
module Scene {
  import opened Util
  import opened Models
  import AttackPlayback

  /** The deck shown when the collection cannot be fetched. */
  function PlaceholderCollection(): seq<CardInfo> {
    [ FullCard(50, 10, 20, Common, Earth, "Stupid"),
      FullCard(70, 20, 25, Epic, Steel, "Dumb"),
      FullCard(100, 20, 88, Legendary, Steel, "Hi") ]
  }

  function EnemyDeck(): seq<CardInfo> {
    [ FullCard(20, 10, 20, Common, Fire, "Dragon"),
      FullCard(70, 50, 25, Epic, Steel, "Poo"),
      FullCard(100, 30, 88, Common, Steel, "Real") ]
  }

  /** The recorded battle every match replays: the placeholder deck against
      a fixed enemy deck, two attacks, deck A winning. */
  function BattleFixture(): BattlePlaybackInfo {
    BattlePlaybackInfo(
      [ AttackInfo(0, 2, 10, 15, 15, 0),
        AttackInfo(1, 0, 0, 10, 10, 1) ],
      DeckData("0x190", PlaceholderCollection()),
      DeckData("0x34955", EnemyDeck()),
      0)
  }

  /** The placeholder is three complete cards with attack and health
      (50, 10), (70, 20) and (100, 20), every field given. */
  lemma PlaceholderShape()
    ensures |PlaceholderCollection()| == 3
    ensures forall c :: c in PlaceholderCollection() ==>
      c.attack.Some? && c.health.Some? && c.speed.Some? && c.element.Some? && c.rarity.Some? && c.name.Some?
    ensures [PlaceholderCollection()[0].attack, PlaceholderCollection()[0].health] == [Some(50), Some(10)]
    ensures [PlaceholderCollection()[1].attack, PlaceholderCollection()[1].health] == [Some(70), Some(20)]
    ensures [PlaceholderCollection()[2].attack, PlaceholderCollection()[2].health] == [Some(100), Some(20)]
  {
  }

  /** Replayed with the two decks standing anywhere, the fixed battle gives
      five tweens: deck A's first card hits deck B's third, which survives
      at 15; then deck B's first card hits deck A's second, which dies at 0;
      then the closing pause. The kill is the last attack, so the dip after
      it moves the card that died. */
  lemma FixturePlayback(deckA: seq<AttackPlayback.Placed>, deckB: seq<AttackPlayback.Placed>)
    requires |deckA| == |BattleFixture().deckA.cards| && |deckB| == |BattleFixture().deckB.cards|
    ensures AttackPlayback.ValidAttacks(BattleFixture().attacks, deckA, deckB)
    ensures
      var p := AttackPlayback.Plan(BattleFixture().attacks, deckA, deckB);
      && |p| == 5
      && p[0].Advance? && p[0].mover == AttackPlayback.CardRef(AttackPlayback.DeckA, 0)
      && p[0].receiver == AttackPlayback.CardRef(AttackPlayback.DeckB, 2)
      && p[0].receiverHealth == 15 && !p[0].receiverDies
      && p[2].Advance? && p[2].mover == AttackPlayback.CardRef(AttackPlayback.DeckB, 0)
      && p[2].receiver == AttackPlayback.CardRef(AttackPlayback.DeckA, 1)
      && p[2].receiverHealth == 0 && p[2].receiverDies
      && p[4] == AttackPlayback.Delay(1000)
    ensures AttackPlayback.LastCaptured(BattleFixture().attacks, deckA, deckB).value.receiving
      == AttackPlayback.CardRef(AttackPlayback.DeckA, 1)
  {
    var attacks := BattleFixture().attacks;
    assert AttackPlayback.ValidAttacks(attacks, deckA, deckB);
    AttackPlayback.PlanShape(attacks, deckA, deckB, 0);
    AttackPlayback.PlanAttack(attacks, deckA, deckB, 0);
    AttackPlayback.PlanAttack(attacks, deckA, deckB, 1);
  }

  // ---------------------------------------------------------------------
  // The collection cache

  /** One collection lookup: what it returns and the cache after it. A
      filled cache answers without fetching; a miss stores a fetched value,
      or answers with the placeholder and leaves the cache empty. */
  function Lookup(cache: Option<seq<CardInfo>>, fetched: Option<seq<CardInfo>>): (r: (seq<CardInfo>, Option<seq<CardInfo>>))
    ensures cache.Some? ==> r == (cache.value, cache)
    ensures cache.None? && fetched.Some? ==> r == (fetched.value, fetched)
    ensures cache.None? && fetched.None? ==> r == (PlaceholderCollection(), None)
  {
    if cache.None? then
      if fetched.Some? then (fetched.value, fetched) else (PlaceholderCollection(), None)
    else (cache.value, cache)
  }

  /** Lookups run in turn over a sequence of fetch results. */
  function Lookups(cache: Option<seq<CardInfo>>, fetches: seq<Option<seq<CardInfo>>>): seq<seq<CardInfo>>
    decreases |fetches|
  {
    if fetches == [] then []
    else
      var (answer, next) := Lookup(cache, fetches[0]);
      [answer] + Lookups(next, fetches[1..])
  }

  /** Once a fetch has returned a collection, every later lookup returns
      that same collection, whatever later fetches would give. */
  lemma {:induction false} CacheIsSticky(value: seq<CardInfo>, fetches: seq<Option<seq<CardInfo>>>)
    ensures |Lookups(Some(value), fetches)| == |fetches|
    ensures forall k :: 0 <= k < |fetches| ==> Lookups(Some(value), fetches)[k] == value
    decreases |fetches|
  {
    if fetches != [] {
      CacheIsSticky(value, fetches[1..]);
    }
  }

  /** Until a fetch returns a collection, every lookup answers with the
      placeholder; the first fetched collection is answered from then on. */
  lemma {:induction false} FirstFetchWins(fetches: seq<Option<seq<CardInfo>>>, k: nat)
    requires k < |fetches| && fetches[k].Some?
    requires forall j :: 0 <= j < k ==> fetches[j].None?
    ensures |Lookups(None, fetches)| == |fetches|
    ensures forall j :: 0 <= j < k ==> Lookups(None, fetches)[j] == PlaceholderCollection()
    ensures forall j :: k <= j < |fetches| ==> Lookups(None, fetches)[j] == fetches[k].value
    decreases k
  {
    if k == 0 {
      CacheIsSticky(fetches[0].value, fetches[1..]);
    } else {
      FirstFetchWins(fetches[1..], k - 1);
    }
  }

  // ---------------------------------------------------------------------
  // The scene

  /** `n` starts of the replay, one per fade-in listener. */
  function StartPlaybacks(n: nat): (r: seq<SceneEvent>)
    ensures |r| == n && forall k :: 0 <= k < n ==> r[k] == StartPlayback
  {
    if n == 0 then [] else StartPlaybacks(n - 1) + [StartPlayback]
  }

  datatype SceneEvent =
    | Fetch
    | BuildPicker(collection: seq<CardInfo>)
    | DestroyPicker
    | BuildBattle(battle: BattlePlaybackInfo)
    | StartPlayback
    | BuildResult(battle: BattlePlaybackInfo)
    | DestroyResult
    | DestroyBattle
    | FadeOut
    | FadeIn

  class CardMain {
    var cache: Option<seq<CardInfo>>
    var picker: Option<seq<CardInfo>>
    var battle: Option<BattlePlaybackInfo>
    var result: Option<BattlePlaybackInfo>
    var log: seq<SceneEvent>
    /** How many fade-in-complete listeners the camera holds: each battle
        report adds one and none is ever removed. */
    var fadeInListeners: nat

    /** Nothing built, nothing cached, no listener. */
    constructor ()
      ensures cache.None? && picker.None? && battle.None? && result.None? && log == []
      ensures fadeInListeners == 0
    {
      cache, picker, battle, result, log := None, None, None, None, [];
      fadeInListeners := 0;
    }

    /** `getCardCollectionInfo`; `fetched` is what the fetch would return. */
    method GetCardCollectionInfo(fetched: Option<seq<CardInfo>>) returns (info: seq<CardInfo>)
      modifies this
      ensures (info, cache) == Lookup(old(cache), fetched)
      ensures log == old(log) + if old(cache).None? then [Fetch] else []
      ensures picker == old(picker) && battle == old(battle) && result == old(result)
      ensures fadeInListeners == old(fadeInListeners)
    {
      if cache.None? {
        log := log + [Fetch];
        if fetched.Some? {
          cache := fetched;
        } else {
          info := PlaceholderCollection();
          return;
        }
      }
      info := cache.value;
    }

    method LoadCardPicker(fetched: Option<seq<CardInfo>>)
      modifies this
      ensures picker == Some(Lookup(old(cache), fetched).0) && cache == Lookup(old(cache), fetched).1
      ensures log == old(log) + (if old(cache).None? then [Fetch] else []) + [BuildPicker(picker.value)]
      ensures battle == old(battle) && result == old(result) && fadeInListeners == old(fadeInListeners)
    {
      var info := GetCardCollectionInfo(fetched);
      picker := Some(info);
      log := log + [BuildPicker(info)];
    }

    /** The picker's queue button fades the camera out. */
    method OnQueuePressed()
      modifies this
      ensures log == old(log) + [FadeOut]
      ensures cache == old(cache) && picker == old(picker) && battle == old(battle) && result == old(result)
      ensures fadeInListeners == old(fadeInListeners)
    {
      log := log + [FadeOut];
    }

    /** After the fade-out: the picker goes, the fixed battle is built, the
        camera fades in and one more fade-in listener is added. */
    method OnBattleReportedFromServer()
      modifies this
      ensures picker.None? && battle == Some(BattleFixture())
      ensures log == old(log) + [DestroyPicker, BuildBattle(BattleFixture()), FadeIn]
      ensures fadeInListeners == old(fadeInListeners) + 1
      ensures cache == old(cache) && result == old(result)
    {
      picker := None;
      log := log + [DestroyPicker];
      battle := Some(BattleFixture());
      log := log + [BuildBattle(BattleFixture())];
      log := log + [FadeIn];
      fadeInListeners := fadeInListeners + 1;
    }

    /** A fade-in ends: every listener ever added starts the replay of the
        battle last built, so after k battle reports, each fade-in (the one
        that closes a replay included) starts it k times. */
    method OnBattleFadeInComplete()
      modifies this
      ensures log == old(log) + StartPlaybacks(fadeInListeners)
      ensures cache == old(cache) && picker == old(picker) && battle == old(battle) && result == old(result)
      ensures fadeInListeners == old(fadeInListeners)
    {
      var started, k := log, 0;
      while k < fadeInListeners
        invariant 0 <= k <= fadeInListeners
        invariant started == log + StartPlaybacks(k)
      {
        started := started + [StartPlayback];
        k := k + 1;
      }
      log := started;
    }

    /** The result screen is built from the same fixture, not from the
        server. */
    method OnBattlePlaybackCompleted()
      modifies this
      ensures result == Some(BattleFixture()) && log == old(log) + [BuildResult(BattleFixture())]
      ensures cache == old(cache) && picker == old(picker) && battle == old(battle)
      ensures fadeInListeners == old(fadeInListeners)
    {
      result := Some(BattleFixture());
      log := log + [BuildResult(BattleFixture())];
    }

    method OnReplayRequested()
      modifies this
      ensures log == old(log) + [FadeOut]
      ensures cache == old(cache) && picker == old(picker) && battle == old(battle) && result == old(result)
      ensures fadeInListeners == old(fadeInListeners)
    {
      log := log + [FadeOut];
    }

    /** After the replay fade-out: the result and the battle are destroyed
        before the picker is rebuilt, then the camera fades in. */
    method OnReplayFadeOutComplete(fetched: Option<seq<CardInfo>>)
      modifies this
      ensures result.None? && battle.None?
      ensures picker == Some(Lookup(old(cache), fetched).0) && cache == Lookup(old(cache), fetched).1
      ensures log == old(log) + [DestroyResult, DestroyBattle]
        + (if old(cache).None? then [Fetch] else []) + [BuildPicker(picker.value), FadeIn]
      ensures fadeInListeners == old(fadeInListeners)
    {
      result := None;
      log := log + [DestroyResult];
      battle := None;
      log := log + [DestroyBattle];
      LoadCardPicker(fetched);
      log := log + [FadeIn];
    }

    method Create(fetched: Option<seq<CardInfo>>)
      modifies this
      ensures picker == Some(Lookup(old(cache), fetched).0) && cache == Lookup(old(cache), fetched).1
      ensures log == old(log) + (if old(cache).None? then [Fetch] else []) + [BuildPicker(picker.value)]
      ensures battle == old(battle) && result == old(result) && fadeInListeners == old(fadeInListeners)
    {
      LoadCardPicker(fetched);
    }
  }
}
