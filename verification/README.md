# nft-tcg game and session logic in Dafny

This project models the logic of the nft-tcg trading-card game. Players own
cards on a ledger, collect new ones through a quiz, and queue three of them
for a battle that the browser then replays. The model covers six pieces:

- **The battle page** (`Battle`). It covers:
  - the three-card selection;
  - the order of the join-queue ledger calls and their status messages;
  - how created and resolved battle events are classified against the local
    address, compared without regard to letter case;
  - the "Check Status" scan, which resumes the first unresolved battle of
    the last 1000 blocks;
  - the Find Match button rule.
- **The game client** (all Phaser code; rendering is left out):
  - `QueueingPrefab` waits for a battle, and only the first player resolves
    it (`Queueing`);
  - `CardAttackPrefab` turns the recorded attacks into a chain of tweens
    (`AttackPlayback`). A killing hit's dip reads the loop's shared
    `receiving` and `directionToReceiver` after the loop, so it moves the
    last attack's receiver, whichever attack killed;
  - `CardMain` is the scene: it caches the collection, uses a fixed recorded
    battle and moves between phases (`Scene`). Each battle adds a fade-in
    listener that is never removed, so after k battles every fade-in starts
    the replay k times;
  - `Card` holds the card's health, highlight and events (`Cards`);
  - the two `CardCollection` layouts place cards in a row or a grid
    (`CardCollections`, `GameCardCollections`);
  - `CardPickController` handles hover and select in the picker (`CardPick`).
- **The collection page** (`CollectionPage`). It covers:
  - the per-token display record;
  - the `ipfs://` gateway rewrite;
  - the one-shot image fallback to a random cover.
- **The quiz backend** (`QuizServer`). It scores the answers, grants one pull
  per correct answer, and generates cards whose stats lie inside ranges set by
  their rarity.

`Util` holds the shared pieces:

- `Option`;
- decimal rendering of numbers, with its parse-back round trip;
- ASCII lower-casing and case-insensitive address equality;
- substring search and first-occurrence replacement.

`Models` holds the records the game passes around: `CardInfo`, `AttackInfo`
and `BattlePlaybackInfo`.

Objects whose fields the source updates in place are classes:

- `Card`, `CardCollection`, `CardPickController`, `CardAttackPrefab`,
  `QueueingPrefab` and `CardMain`;
- the battle page's React state (`BattlePanel`);
- the collection page (`CollectionView`, `CardImage`).

Each such method states its new state in terms of a pure function. The
properties are proved about those functions.

Anything outside the code is a parameter. This covers:

- the ledger (events, reads, which call throws);
- the wallet's presence;
- metadata fetches;
- `Math.random` (a stream `rand: nat -> real` of values in [0,1));
- card positions on screen.

Asynchronous handlers are modelled as running to their end. What they do is
appended, in order, to an effect log or trace.

## Model

| member | source | states |
|---|---|---|
| Util.NatToStringRoundTrip | frontend/src/components/Collection.jsx:87 | a token id rendered with `toString` is all digits and parses back to the id |
| Util.NatToStringInjective | frontend/src/components/Battle.jsx:103 | different token ids give different decimal strings |
| Util.ToLowerIdempotent | frontend/src/components/Battle.jsx:34 | lower-casing twice is lower-casing once |
| Util.SameAddressIsEquivalence | frontend/src/components/Battle.jsx:34 | comparing lower-cased addresses is reflexive, symmetric and transitive |
| Util.ContainsIffOccurs | frontend/src/components/Battle.jsx:191 | `includes` holds exactly when the pattern occurs at some index |
| Util.ReplaceFirstSplit | frontend/src/components/Collection.jsx:94 | `replace` with a string pattern rewrites only the first occurrence, keeping what is before and after; without one the text is unchanged |
| Battle.Without | frontend/src/components/Battle.jsx:110 | the filtered list holds exactly the other ids, and is no longer |
| Battle.WithoutNoDup | frontend/src/components/Battle.jsx:110 | filtering keeps a duplicate-free list duplicate-free |
| Battle.ToggleSelectKeepsBound | frontend/src/components/Battle.jsx:108-114 | a selection of at most 3 distinct ids stays at most 3 distinct ids |
| Battle.ToggleSelectMembership | frontend/src/components/Battle.jsx:108-114 | afterwards the id is selected iff it was not and fewer than 3 were; other ids keep their selection |
| Battle.ToggleSelectTwice | frontend/src/components/Battle.jsx:108-114 | toggling an absent id into a selection with room, then toggling it again, restores the selection |
| Battle.StatusAfterAppend | frontend/src/components/Battle.jsx:11 | the shown status after two runs of effects is the status after the first, then the second |
| Battle.CutAtFault | frontend/src/components/Battle.jsx:119-143 | with no throw the effects are kept; a throw at a call that is made keeps every effect up to and including that call and then shows "Error: " plus the reason |
| Battle.JoinNeedsThree | frontend/src/components/Battle.jsx:117 | without exactly 3 cards the join makes no ledger call and leaves the status alone |
| Battle.NthCall | frontend/src/components/Battle.jsx:119-136 | a found position holds a ledger call |
| Battle.NthCallIffCount | frontend/src/components/Battle.jsx:119-136 | the n-th call is made exactly when the join has more than n calls |
| Battle.CutAtFaultKeeps | frontend/src/components/Battle.jsx:119-143 | every surviving ledger call sits at its place in the unbroken join |
| Battle.JoinStepsLayout | frontend/src/components/Battle.jsx:118-136 | the join has 7 steps when approved and 9 when not; the approval write is at 2 only when not approved; the registration comes 4th from last |
| Battle.ApprovalBeforeRegister | frontend/src/components/Battle.jsx:126-133 | an approval write is issued only when the cards were not approved, and before the registration |
| Battle.RegisterAfterApproval | frontend/src/components/Battle.jsx:126-133 | when not approved, every registration is preceded by the approval write |
| Battle.JoinSucceeds | frontend/src/components/Battle.jsx:132-136 | with nothing thrown the join ends on "Registered! Waiting for opponent..." |
| Battle.JoinFails | frontend/src/components/Battle.jsx:140-143 | a throw at any call that is made ends on "Error: " plus the reason |
| Battle.JoinQueueFails | frontend/src/components/Battle.jsx:116-144 | a throw at any ledger call of a three-card join ends the join on the error status |
| Battle.ButtonLabel | frontend/src/components/Battle.jsx:192 | the button shows the status when there is one, and never an empty label |
| Battle.FindMatchDisabledWhileWaiting | frontend/src/components/Battle.jsx:191 | the approving, waiting-for-transaction and registered statuses disable Find Match |
| Battle.FindMatchEnabledWhileJoining | frontend/src/components/Battle.jsx:191 | the "Joining battle queue..." status and the empty status leave Find Match enabled iff 3 cards are selected |
| Battle.CreatedResolvesOwnBattles | frontend/src/components/Battle.jsx:32-38 | resolve is called iff the battle names the local address as p1 or p2; only that battle is resolved; letter case of the addresses changes nothing; the announcement names the battle id |
| Battle.StartedStatusEnablesButton | frontend/src/components/Battle.jsx:191 | the "Battle Started!" status enables Find Match iff 3 cards are selected |
| Battle.ResolvedStatus | frontend/src/components/Battle.jsx:40-47 | the winner is checked first, then the loser; for anyone else the status is unchanged |
| Battle.ResolvedStatusIgnoresCase | frontend/src/components/Battle.jsx:42-44 | the outcome depends on the addresses only up to letter case |
| Battle.ResolveReenablesButton | frontend/src/components/Battle.jsx:158-163 | whether the resolve transaction succeeds or throws, the final status enables Find Match iff 3 cards are selected |
| Battle.ScanStart | frontend/src/components/Battle.jsx:67 | the scan starts at currentBlock-1000 when that is positive, else at 0, and never looks back further than 1000 blocks |
| Battle.CreatedSince | frontend/src/components/Battle.jsx:69-70 | the query returns exactly the creation events from the start block on |
| Battle.FirstPending | frontend/src/components/Battle.jsx:72-84 | finds the first creation event involving the address that has no resolution, or none iff there is no such event |
| Battle.ScanResumesFirstPending | frontend/src/components/Battle.jsx:72-86 | the loop announces and resolves the first pending battle, after only resolution queries; with none pending it only queries |
| Battle.ScanStatus | frontend/src/components/Battle.jsx:72-86 | the loop leaves the status announcing the first pending battle, or unchanged when none is pending |
| Battle.CheckPastEventsStatus | frontend/src/components/Battle.jsx:64-86 | after the scan the status announces the resumed battle, or is unchanged when none was found |
| Battle.ScanCreated | frontend/src/components/Battle.jsx:72-86 | the loop with its early return makes exactly the scan's effects and returns the first pending battle's id |
| Battle.BattlePanel.LoadMyCards | frontend/src/components/Battle.jsx:92-106 | one entry per owned token, in ledger order, named "Card #id"; distinct tokens give distinct entry ids |
| Battle.BattlePanel.Toggle | frontend/src/components/Battle.jsx:108-114 | the selection becomes `ToggleSelect` of the old one, keeping at most 3 distinct ids |
| Battle.BattlePanel.JoinQueue | frontend/src/components/Battle.jsx:116-144 | appends the join's effects and shows the status they leave |
| Battle.BattlePanel.OnBattleCreated | frontend/src/components/Battle.jsx:32-38 | appends the created-battle effects and shows the status they leave |
| Battle.BattlePanel.OnBattleResolved | frontend/src/components/Battle.jsx:40-47 | shows the resolved status, logging a status change only when it differs |
| Battle.BattlePanel.Resolve | frontend/src/components/Battle.jsx:146-165 | gets the signer, calls resolve on the battle, then shows the success or failure status |
| Battle.BattlePanel.CheckPastEvents | frontend/src/components/Battle.jsx:64-90 | reads the block number, queries the creation events, runs the scan, and returns the battle it resumed |
| Queueing.HandlerEffects | frontend/src/game/gameobjects/QueueingPrefab.ts:72-86 | the label becomes "Loading" and recording is requested first; resolve is requested iff the player is p1 (case-insensitive); the playback is delivered iff the callback is set |
| Queueing.HandlerOrder | frontend/src/game/gameobjects/QueueingPrefab.ts:73-85 | label, recording, resolve, delivery: in that order, each at most once |
| Queueing.OnlyFirstPlayerResolves | frontend/src/game/gameobjects/QueueingPrefab.ts:72-79 | a player who is not p1 never resolves, whoever p2 is, yet the label still changes and recording still starts |
| Queueing.LastLabelAppend | frontend/src/game/gameobjects/QueueingPrefab.ts:73 | requests that do not change the label leave it as it was |
| Queueing.QueueingPrefab.constructor | frontend/src/game/gameobjects/QueueingPrefab.ts:16-68 | the label starts as "Queueing"; the created-battle handler is installed before the queue is joined |
| Queueing.QueueingPrefab.PressRefresh | frontend/src/game/gameobjects/QueueingPrefab.ts:55-57 | every Refresh press checks past events once |
| Queueing.QueueingPrefab.OnBattleCreatedHandler | frontend/src/game/gameobjects/QueueingPrefab.ts:72-86 | appends the handler's effects to the trace and leaves the label on "Loading" |
| AttackPlayback.Attacking | frontend/src/game/gameobjects/CardAttackPrefab.ts:55 | deck A's card attacks iff attacker is 0 |
| AttackPlayback.Receiving | frontend/src/game/gameobjects/CardAttackPrefab.ts:56 | the receiver is the attack's other card, on the other side |
| AttackPlayback.ReceivingHealth | frontend/src/game/gameobjects/CardAttackPrefab.ts:58 | the health shown is the recorded health of the receiving side's card |
| AttackPlayback.Direction | frontend/src/game/gameobjects/CardAttackPrefab.ts:63 | -1 iff the receiver's y is not below the attacker's, else 1 |
| AttackPlayback.AttackStepsShape | frontend/src/game/gameobjects/CardAttackPrefab.ts:49-123 | attack i gives exactly the tweens at 2i and 2i+1 |
| AttackPlayback.PlanShape | frontend/src/game/gameobjects/CardAttackPrefab.ts:49-130 | n attacks give 2n+1 tweens: a 900 ms advance and a 200 ms retreat by the attacker per attack, in order, then a 1000 ms pause |
| AttackPlayback.PlanAttack | frontend/src/game/gameobjects/CardAttackPrefab.ts:55-120 | the advance moves to the receiver's x; the receiver health is per side; the receiver dies iff that health is at most 0; the retreat returns to the attacker's x at y 0 |
| AttackPlayback.LastCaptured | frontend/src/game/gameobjects/CardAttackPrefab.ts:50-63 | after the loop, the shared `receiving` and `directionToReceiver` hold the last attack's receiver and its direction (±1), and nothing when there was no attack |
| AttackPlayback.QueuePlaybackTween | frontend/src/game/gameobjects/CardAttackPrefab.ts:46-130 | the loop builds exactly the plan, and leaves in its shared variables exactly what `LastCaptured` says |
| AttackPlayback.LastAttackDipsItsReceiver | frontend/src/game/gameobjects/CardAttackPrefab.ts:50-109 | for the last attack, the dip moves the card its advance hits, in that advance's direction |
| AttackPlayback.EarlierKillDipsAnotherCard | frontend/src/game/gameobjects/CardAttackPrefab.ts:50-109 | with a kill followed by a non-lethal attack, the dip after the kill moves the later attack's receiver, which is alive, and not the card that died |
| AttackPlayback.NoShakeOnceShaken | frontend/src/game/gameobjects/CardAttackPrefab.ts:82-87 | once the flag is set no update shakes |
| AttackPlayback.ShakeFiresOnce | frontend/src/game/gameobjects/CardAttackPrefab.ts:82-96 | at most one shake, on the first update past progress 0.5, and none iff no update gets past it |
| AttackPlayback.ShakeUpdatesSnoc | frontend/src/game/gameobjects/CardAttackPrefab.ts:86-89 | one more update shakes iff it is past 0.5 and nothing has shaken yet |
| AttackPlayback.AttackHit.OnUpdate | frontend/src/game/gameobjects/CardAttackPrefab.ts:86-96 | shakes the receiver (300 ms, magnitude 20) only on the first update past 0.5 |
| AttackPlayback.AttackHit.OnShakeComplete | frontend/src/game/gameobjects/CardAttackPrefab.ts:79-109 | when this advance's receiver dies, the card held in the shared `receiving` dips 300 in the shared direction (200 ms after a 300 ms delay); when it lives, nothing dips |
| AttackPlayback.AttackHit.RunUpdates | frontend/src/game/gameobjects/CardAttackPrefab.ts:86-96 | a run of updates starts exactly the shakes `ShakeUpdates` lists |
| AttackPlayback.CardAttackPrefab.constructor | frontend/src/game/gameobjects/CardAttackPrefab.ts:132-142 | the chain is the plan, paused at its start; the dips read what `LastCaptured` gives |
| AttackPlayback.CardAttackPrefab.StartPlayback | frontend/src/game/gameobjects/CardAttackPrefab.ts:42-44 | restarts the chain from its first tween |
| AttackPlayback.CardAttackPrefab.TweenFinished | frontend/src/game/gameobjects/CardAttackPrefab.ts:132-140 | the chain advances; finishing the last tween completes it and calls the battle-complete handler once |
| Scene.PlaceholderShape | frontend/src/game/scenes/CardMain.ts:59-86 | the placeholder is 3 complete cards with attack and health (50,10), (70,20), (100,20) |
| Scene.FixturePlayback | frontend/src/game/scenes/CardMain.ts:88-139 | the fixed battle is valid for its decks and replays as: A0 hits B2, which lives at 15; B0 hits A1, which dies at 0; then the pause; the dip moves A1, the card that died |
| Scene.Lookup | frontend/src/game/scenes/CardMain.ts:45-57 | a filled cache answers without change; a miss stores and returns the fetched value, or returns the placeholder and stays empty |
| Scene.CacheIsSticky | frontend/src/game/scenes/CardMain.ts:46-56 | once filled, every later lookup returns the cached collection whatever the fetch would give |
| Scene.FirstFetchWins | frontend/src/game/scenes/CardMain.ts:45-57 | lookups return the placeholder until the first successful fetch, and that collection ever after |
| Scene.CardMain.GetCardCollectionInfo | frontend/src/game/scenes/CardMain.ts:45-57 | returns and caches as `Lookup` says, fetching only on a miss |
| Scene.CardMain.LoadCardPicker | frontend/src/game/scenes/CardMain.ts:154-166 | builds the picker from the looked-up collection |
| Scene.CardMain.OnBattleReportedFromServer | frontend/src/game/scenes/CardMain.ts:168-181 | destroys the picker, builds the battle from the fixture, fades in, and adds one more fade-in listener that is never removed |
| Scene.CardMain.OnBattleFadeInComplete | frontend/src/game/scenes/CardMain.ts:177-180 | every fade-in, the replay's closing one included, starts the playback once per listener, so k times after k battle reports; nothing else changes |
| Scene.CardMain.OnBattlePlaybackCompleted | frontend/src/game/scenes/CardMain.ts:183-186 | builds the result screen from the fixture, not from the server |
| Scene.CardMain.OnReplayFadeOutComplete | frontend/src/game/scenes/CardMain.ts:191-200 | destroys the result and the battle before rebuilding the picker, then fades in |
| Cards.Card.constructor | frontend/src/game/gameobjects/Card.ts:16-149 | name defaults to "Temporary", attack to 0, health to 0 and is shown; the card starts un-highlighted at 1.5 times its background's size |
| Cards.Card.SetHighlighted | frontend/src/game/gameobjects/Card.ts:176-183 | active and visible both take the value, and `Highlighted` returns it |
| Cards.Card.SetHealth | frontend/src/game/gameobjects/Card.ts:218-221 | the health and its label take the new value at once |
| Cards.Card.AnimateHealthChange | frontend/src/game/gameobjects/Card.ts:189-216 | the health is not committed yet; the label turns red iff the new value is lower |
| Cards.Card.CompleteHealthTween | frontend/src/game/gameobjects/Card.ts:207-212 | on completion the health becomes the tween's target, the label shows it and turns white |
| Cards.Card.MouseOver | frontend/src/game/gameobjects/Card.ts:134-144 | hover and select events carry the card itself |
| CardCollections.Spacing | frontend/src/game/gameobjects/CardCollection.ts:34 | an absent or zero spacing falls back to 10; any other is kept |
| CardCollections.RowNeighbours | frontend/src/game/gameobjects/CardCollection.ts:73-75 | neighbouring cards in a row are w+s apart |
| CardCollections.RowFillsContainer | frontend/src/game/gameobjects/CardCollection.ts:64-74 | the first card's left edge is at 0 and the last card's right edge at the container width |
| CardCollections.RowsIsCeiling | frontend/src/game/gameobjects/CardCollection.ts:39 | the row count is the ceiling of n/columns |
| CardCollections.GridCellsDistinct | frontend/src/game/gameobjects/CardCollection.ts:53-58 | card i goes to column i mod columns and row i div columns, so no two cards share a cell |
| CardCollections.GridCellInside | frontend/src/game/gameobjects/CardCollection.ts:39-58 | with non-negative sizes every card lies inside the grid container |
| CardCollections.CardCollection.constructor | frontend/src/game/gameobjects/CardCollection.ts:10-27 | one fresh card per description, in order; laid out; the origin at (x, y) |
| CardCollections.CardCollection.RealignContainer | frontend/src/game/gameobjects/CardCollection.ts:29-78 | an empty collection is left alone; otherwise the container is sized to the grid or the row and centred, and every card is in its slot |
| GameCardCollections.ShiftedByOneGap | frontend-game/src/game/gameobjects/CardCollection.ts:44 | the picker's row is the battle row moved one gap left |
| GameCardCollections.GameRowNeighbours | frontend-game/src/game/gameobjects/CardCollection.ts:44 | neighbouring cards are w+s apart |
| GameCardCollections.GameRowEdges | frontend-game/src/game/gameobjects/CardCollection.ts:32-44 | the first card's left edge is at -s and the last card's right edge at the width minus s |
| GameCardCollections.GameCardCollection.constructor | frontend-game/src/game/gameobjects/CardCollection.ts:10-27 | one fresh card per description, in order; laid out; the origin at (x, y) |
| GameCardCollections.GameCardCollection.RealignContainer | frontend-game/src/game/gameobjects/CardCollection.ts:29-47 | an empty collection is left alone; otherwise the container is n*w+s*(n-1) by h, centred, with card i at the shifted row x |
| GameCardCollections.GameCardCollection.SetPosition | frontend-game/src/game/gameobjects/CardCollection.ts:49-56 | moves the origin only |
| CardPick.FirstIndex | frontend-game/src/game/gameobjects/CardPickController.ts:101 | `indexOf` gives the first position of the card, or none iff it is absent |
| CardPick.ToggledLength | frontend-game/src/game/gameobjects/CardPickController.ts:100-111 | a select event keeps the list duplicate-free and changes its length by exactly one, with no cap |
| CardPick.ToggledMembership | frontend-game/src/game/gameobjects/CardPickController.ts:100-111 | the card is selected afterwards iff it was not; other cards keep their selection |
| CardPick.ToggledTwice | frontend-game/src/game/gameobjects/CardPickController.ts:100-111 | selecting an unselected card twice restores the list |
| CardPick.RiseFrom | frontend-game/src/game/gameobjects/CardPickController.ts:39-56 | the original position is taken on the first hover only; the rise targets it raised by `riseOffset`; the flag stays consistent |
| CardPick.Retreated | frontend-game/src/game/gameobjects/CardPickController.ts:77-84 | the retreat sets the flag and targets the original position |
| CardPick.Ended | frontend-game/src/game/gameobjects/CardPickController.ts:85-89 | when the tween completes or is stopped the flag is cleared |
| CardPick.RetreatRecords | frontend-game/src/game/gameobjects/CardPickController.ts:59-90 | no change when the card is selected, never hovered or already retreating; otherwise only its record changes, to a flagged retreat |
| CardPick.CardPickController.constructor | frontend-game/src/game/gameobjects/CardPickController.ts:18-30 | nothing selected, nothing hovered, subscribed to every card of the collection |
| CardPick.CardPickController.OnCardHoverEnter | frontend-game/src/game/gameobjects/CardPickController.ts:32-57 | nothing for a selected card; otherwise the card's record becomes `RiseFrom` |
| CardPick.CardPickController.TryRetreatCard | frontend-game/src/game/gameobjects/CardPickController.ts:59-90 | the records become `RetreatRecords` |
| CardPick.CardPickController.OnCardSelected | frontend-game/src/game/gameobjects/CardPickController.ts:100-111 | toggles the card in the list; it is highlighted iff now selected; a deselected card attempts a retreat |
| CardPick.CardPickController.CompleteTween | frontend-game/src/game/gameobjects/CardPickController.ts:85-86 | the card stands at the tween's target and its flag is clear |
| CardPick.CardPickController.StopTween | frontend-game/src/game/gameobjects/CardPickController.ts:87-89 | a stopped tween clears the flag |
| CollectionPage.SeededFraction | frontend/src/components/Collection.jsx:21 | an unsigned 32-bit value over 2^32 lies in [0,1) |
| CollectionPage.CoverIndex | frontend/src/components/Collection.jsx:25 | the cover index is in 0..3 |
| CollectionPage.CoverIndexIsTopBits | frontend/src/components/Collection.jsx:21-25 | the index is the value's top two bits |
| CollectionPage.RandomCover | frontend/src/components/Collection.jsx:24-27 | the cover is always one of the four listed |
| CollectionPage.CardImage.constructor | frontend/src/components/Collection.jsx:30-32 | the image is the given address, or the card's cover when none or empty is given |
| CollectionPage.CardImage.HandleError | frontend/src/components/Collection.jsx:34-39 | the first error switches to the cover; later ones change nothing |
| CollectionPage.FallbackIsOneShot | frontend/src/components/Collection.jsx:34-39 | any run of errors leaves the image as one error does |
| CollectionPage.ErrorsSettle | frontend/src/components/Collection.jsx:34-39 | after one or more errors the image is the cover, or the earlier fallback |
| CollectionPage.CardImage.HandleErrors | frontend/src/components/Collection.jsx:34-39 | n errors handled one by one leave the image `ImageAfterErrors` gives, and the error flag set iff it was set or n > 0 |
| CollectionPage.FallbackMetadata | frontend/src/components/Collection.jsx:81 | the fallback metadata's image is empty |
| CollectionPage.GatewayRewrite | frontend/src/components/Collection.jsx:94 | a leading `ipfs://` becomes the Pinata gateway with the same path; an address without the scheme is kept; only the first occurrence changes |
| CollectionPage.RarityName | frontend/src/components/Collection.jsx:95 | a rarity index has a name iff it is below 5 |
| CollectionPage.ElementName | frontend/src/components/Collection.jsx:96 | an attribute index has a name iff it is below 5 |
| CollectionPage.NamesAreDistinct | frontend/src/components/Collection.jsx:95-96 | different indices have different names |
| CollectionPage.BuildRecord | frontend/src/components/Collection.jsx:72-97 | the id is the token's decimal string; the stats are copied; a failed fetch gives "Card #id" and an empty image; otherwise the name and the rewritten image come from the metadata |
| CollectionPage.CollectionView.LoadCollection | frontend/src/components/Collection.jsx:59-105 | without a wallet nothing changes; a failed ledger read keeps the old records; otherwise there is one record per token in order, and loading ends false |
| CollectionPage.RecordIdsDistinct | frontend/src/components/Collection.jsx:86-87 | distinct tokens give records with distinct ids |
| QuizServer.CorrectCount | backend/server.js:38-39 | the count of correct answers is at most the number of answers |
| QuizServer.CorrectCountExtremes | backend/server.js:38-39 | the count equals the number of answers iff every answer is correct, and is 0 iff none is |
| QuizServer.RandRangeBounds | backend/server.js:53 | a draw in [0,1) gives an integer in [min, max] |
| QuizServer.RandRangeOnto | backend/server.js:53 | every integer in [min, max] is given by some draw |
| QuizServer.PickRarityBands | backend/server.js:55-62 | below 0.01 Mythic, below 0.05 Legendary, below 0.15 Epic, below 0.40 Rare, else Common, each both ways |
| QuizServer.RangesRiseWithRarity | backend/server.js:70-74 | each rarer rarity's ranges start and end higher |
| QuizServer.PickIndex | backend/server.js:69-76 | a draw picks an index inside the list |
| QuizServer.GenerateCard | backend/server.js:67-84 | the branch-by-branch ranges give the card `Generated` describes, and it is well formed |
| QuizServer.GeneratedIsWellFormed | backend/server.js:67-84 | a generated card has a listed rarity and attribute, is named "<animal> <rarity>", and has each stat inside its rarity's range |
| QuizServer.ScoreAnswers | backend/server.js:38-39 | the scoring loop counts exactly the answers given, non-empty and equal to the expected one |
| QuizServer.GeneratePulls | backend/server.js:44-48 | the pull loop makes one card per pull, the k-th from the k-th group of six draws |
| QuizServer.Submit | backend/server.js:33-51 | 400 iff the body, the address or the results array is missing; otherwise pulls is the correct count and there are exactly that many well-formed cards |

## Left out

- Ethers and the wallet are not modelled: providers, signers, contract objects and `tx.wait`. The ledger's answers and which call throws are parameters.
- The 2 s sleep in `resolveBattle` is not modelled. Its transaction is reduced to "succeeded or threw" (Battle.jsx:146-165).
- `frontend/src/game/scenes/CardServerInteractor.ts` is not part of this model. Its calls (`joinQueue`, `resolveBattle`, `recordPlaybackInfoAsync`, `checkPastEvents`) are trace events, and what they return is a parameter.
- Battle.jsx attaches the listeners and runs the scan on mount only in commented-out lines (Battle.jsx:49-53). The handlers are modelled as the methods they would be; the scan runs from "Check Status".
- Battle.BattlePanel.CheckPastEvents: covers the path where no ledger read throws. The source swallows a throw and only logs it.
- Battle.BattlePanel.LoadMyCards: the missing-wallet return and a throwing ledger read are not modelled.
- Addresses are lower-cased by ASCII case mapping only. `toLowerCase` on non-ASCII text is not modelled (ledger addresses are hexadecimal).
- Asynchronous interleaving is not modelled: each handler runs to its end before another starts. Two overlapping joins, scans or fetches are not covered.
- Phaser rendering is not modelled:
  - tween easing and in-between values, including the rounded health shown while a health tween runs (Card.ts:198-206);
  - fonts, images and scale factors other than the card's size.
- The `ShakePosition` plugin's motion is not modelled.
- `getWorldPoint`, the alignment of the two decks in the zone, and the advance tween's mid-point y (CardAttackPrefab.ts:33-34, 60-69) are not modelled. Card positions are inputs.
- Camera fades are log events only, and their 200 ms timing is not modelled.
- Phaser tween stop semantics beyond the two callbacks are not modelled: the model knows only that a tween ends by completing or by being stopped.
- AttackPlayback.QueuePlaybackTween: requires every attack's indices to name cards of the decks. The source would throw on a missing card, and that path is not modelled.
- The mixing steps of `seededRandom` (Collection.jsx:15-20) are not modelled. The cover is chosen from an arbitrary unsigned 32-bit value.
- QuizServer.Submit: answers and the address are modelled as optional strings. Non-string truthy answers, a truthy address that is not a string, and `results` entries that are not objects are not modelled.
- CollectionPage.CollectionView.LoadCollection: metadata images are modelled as optional strings. A truthy image that is not a string makes `.replace` throw outside the per-token try (Collection.jsx:94); the outer catch then keeps the old records. That path is not modelled.
- `Math.random` is the parameter `rand`, with six draws per generated card.
- The `/quiz` proxy and the metadata proxy, Express, axios and `backend/pinata_generator.js` are not modelled.
- These are not part of this model:
  - `BattleResultPrefab.ts` (its label), `LoadingPrefab.ts`, `CardPickPrefab.ts`, `Shared.ts`, both `Button.ts` files;
  - `frontend-game/src/game/gameobjects/Card.ts`, `ChooseCard.ts`, `main.ts`, `main.js`;
  - `PhaserGame.jsx`, `App.jsx`, `ConnectWallet.jsx`, `Quiz.jsx`;
  - the hardhat config and the deploy script.
- The picker's controller and collection (from `frontend-game`) are modelled over the `Card` class of `frontend/src/game/gameobjects/Card.ts`. The `frontend-game` card has no position, size or highlight to model.
- `CardCollections.CardCollection` leaves out `position`, `setPosition` and `container` (CardCollection.ts:80-91). They only read or write the origin.
- NaN and absent `x`/`y` in a collection config are not modelled. Coordinates are exact reals.
