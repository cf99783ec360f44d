/** Battle replay (frontend/src/game/gameobjects/CardAttackPrefab.ts): the
    recorded attacks become one chain of tweens. Each attack moves the
    attacking card onto the receiving card and back; while it moves, the
    receiver is shaken once, and when the receiver's health after the hit is
    not positive a card dips out of its row after the shake. The card that
    dips, and the way it dips, are read by the dip's closure from the
    loop's function-scoped variables `receiving` and `directionToReceiver`
    when the shake ends, long after the loop has finished: they are the
    last attack's receiver and direction, whichever attack killed. A
    one-second pause closes the chain, whose completion calls the
    battle-complete handler.

    Where each card stands is an input: its x inside its deck's row and the
    y of its deck on screen (how the two decks are aligned in the zone is
    not modelled). */
module AttackPlayback {
  import opened Util
  import opened Models

  datatype Side = DeckA | DeckB

  /** A card of one of the two decks. */
  datatype CardRef = CardRef(side: Side, index: nat)

  /** Where a card stands: its x inside its row, and its y on screen. */
  datatype Placed = Placed(x: real, worldY: real)

  /** One entry of the replay chain. An advance carries the card it hits
      (the one its update handler shakes), the direction from the attacker
      towards that card (which sets the height of the advance, not
      modelled), the card's health after the hit and whether it dies. */
  datatype Tween =
    | Advance(mover: CardRef, toX: real, duration: nat, receiver: CardRef,
              direction: int, receiverHealth: int, receiverDies: bool)
    | Retreat(mover: CardRef, toX: real, toY: real, duration: nat)
    | Delay(ms: nat)

  const AdvanceMs: nat := 900
  const RetreatMs: nat := 200
  const ClosingDelayMs: nat := 1000
  const ShakeMs: nat := 300
  const ShakeMagnitude: nat := 20
  const DipDistance: real := 300.0
  const DipMs: nat := 200
  const DipDelayMs: nat := 300
  /** The point of the advance at which the hit lands. */
  const ConnectProgress: real := 0.5

  /** Every attack names a card that exists in each deck. */
  predicate ValidAttacks(attacks: seq<AttackInfo>, deckA: seq<Placed>, deckB: seq<Placed>) {
    forall i :: 0 <= i < |attacks| ==> attacks[i].cardAIndex < |deckA| && attacks[i].cardBIndex < |deckB|
  }

  function At(r: CardRef, deckA: seq<Placed>, deckB: seq<Placed>): Placed
    requires r.side == DeckA ==> r.index < |deckA|
    requires r.side == DeckB ==> r.index < |deckB|
  {
    if r.side == DeckA then deckA[r.index] else deckB[r.index]
  }

  /** Attacker value 0 means deck A's card attacks; any other value swaps
      the roles. The two roles are the attack's two cards, on opposite sides. */
  function Attacking(a: AttackInfo): (r: CardRef)
    ensures r.side == DeckA <==> a.attacker == 0
    ensures r == CardRef(DeckA, a.cardAIndex) || r == CardRef(DeckB, a.cardBIndex)
  {
    if a.attacker == 0 then CardRef(DeckA, a.cardAIndex) else CardRef(DeckB, a.cardBIndex)
  }

  function Receiving(a: AttackInfo): (r: CardRef)
    ensures r.side != Attacking(a).side
    ensures r == CardRef(DeckA, a.cardAIndex) || r == CardRef(DeckB, a.cardBIndex)
  {
    if a.attacker == 0 then CardRef(DeckB, a.cardBIndex) else CardRef(DeckA, a.cardAIndex)
  }

  /** The health shown for the receiver is the recorded health of the card
      on the receiving side. */
  function ReceivingHealth(a: AttackInfo): (hp: int)
    ensures hp == if Receiving(a).side == DeckA then a.cardAHealthAfter else a.cardBHealthAfter
  {
    if a.attacker == 0 then a.cardBHealthAfter else a.cardAHealthAfter
  }

  /** Up the screen (-1) when the receiver is not below the attacker, else down (1). */
  function Direction(attackerY: real, receiverY: real): (d: int)
    ensures d == -1 || d == 1
    ensures d == -1 <==> receiverY <= attackerY
  {
    if receiverY - attackerY <= 0.0 then -1 else 1
  }

  /** The two tweens of one attack. */
  function AttackTweens(a: AttackInfo, deckA: seq<Placed>, deckB: seq<Placed>): seq<Tween>
    requires a.cardAIndex < |deckA| && a.cardBIndex < |deckB|
  {
    var mover, receiver := Attacking(a), Receiving(a);
    var m, r := At(mover, deckA, deckB), At(receiver, deckA, deckB);
    var hp := ReceivingHealth(a);
    [ Advance(mover, r.x, AdvanceMs, receiver, Direction(m.worldY, r.worldY), hp, hp <= 0),
      Retreat(mover, m.x, 0.0, RetreatMs) ]
  }

  /** The tweens of the attacks, in attack order. */
  function AttackSteps(attacks: seq<AttackInfo>, deckA: seq<Placed>, deckB: seq<Placed>): seq<Tween>
    requires ValidAttacks(attacks, deckA, deckB)
  {
    if attacks == [] then []
    else AttackSteps(attacks[..|attacks| - 1], deckA, deckB) + AttackTweens(attacks[|attacks| - 1], deckA, deckB)
  }

  /** The values of the loop's shared variables `receiving` and
      `directionToReceiver` once the loop is over, which every dip closure
      reads; none when no attack ran. */
  datatype Captured = Captured(receiving: CardRef, direction: int)

  function LastCaptured(attacks: seq<AttackInfo>, deckA: seq<Placed>, deckB: seq<Placed>): (c: Option<Captured>)
    requires ValidAttacks(attacks, deckA, deckB)
    ensures c.None? <==> attacks == []
    ensures c.Some? ==> c.value.direction == -1 || c.value.direction == 1
  {
    if attacks == [] then None
    else
      var a := attacks[|attacks| - 1];
      Some(Captured(Receiving(a), Direction(At(Attacking(a), deckA, deckB).worldY, At(Receiving(a), deckA, deckB).worldY)))
  }

  /** The whole chain: the attacks' tweens, then the closing pause. */
  function Plan(attacks: seq<AttackInfo>, deckA: seq<Placed>, deckB: seq<Placed>): seq<Tween>
    requires ValidAttacks(attacks, deckA, deckB)
  {
    AttackSteps(attacks, deckA, deckB) + [Delay(ClosingDelayMs)]
  }

  /** Attack `i` gives the tweens at `2i` and `2i + 1`; nothing else is in
      the attack part of the chain. */
  lemma {:induction false} AttackStepsShape(attacks: seq<AttackInfo>, deckA: seq<Placed>, deckB: seq<Placed>)
    requires ValidAttacks(attacks, deckA, deckB)
    ensures |AttackSteps(attacks, deckA, deckB)| == 2 * |attacks|
    ensures forall i :: 0 <= i < |attacks| ==>
      AttackSteps(attacks, deckA, deckB)[2 * i] == AttackTweens(attacks[i], deckA, deckB)[0] &&
      AttackSteps(attacks, deckA, deckB)[2 * i + 1] == AttackTweens(attacks[i], deckA, deckB)[1]
  {
    if attacks != [] {
      var init := attacks[..|attacks| - 1];
      AttackStepsShape(init, deckA, deckB);
      assert forall i :: 0 <= i < |init| ==> init[i] == attacks[i];
    }
  }

  /** For n attacks the chain has 2n + 1 tweens; attack `i`, in order,
      gives an advance at `2i` and a retreat at `2i + 1` by the same card,
      and the chain ends with the 1000 ms pause. */
  lemma PlanShape(attacks: seq<AttackInfo>, deckA: seq<Placed>, deckB: seq<Placed>, i: nat)
    requires ValidAttacks(attacks, deckA, deckB)
    ensures |Plan(attacks, deckA, deckB)| == 2 * |attacks| + 1
    ensures Plan(attacks, deckA, deckB)[2 * |attacks|] == Delay(1000)
    ensures i < |attacks| ==>
      var p := Plan(attacks, deckA, deckB);
      && p[2 * i].Advance? && p[2 * i].duration == 900
      && p[2 * i + 1].Retreat? && p[2 * i + 1].duration == 200
      && p[2 * i].mover == p[2 * i + 1].mover == Attacking(attacks[i])
  {
    AttackStepsShape(attacks, deckA, deckB);
  }

  /** What the advance of attack `i` does: the attacker moves to the
      receiver's x; the receiver's health is the recorded one for its side,
      and it is marked dead exactly when that health is not positive; the
      dip direction is -1 exactly when the receiver is not below the
      attacker. The retreat returns the attacker to its own x at y = 0. */
  lemma PlanAttack(attacks: seq<AttackInfo>, deckA: seq<Placed>, deckB: seq<Placed>, i: nat)
    requires ValidAttacks(attacks, deckA, deckB) && i < |attacks|
    ensures |Plan(attacks, deckA, deckB)| == 2 * |attacks| + 1
    ensures Plan(attacks, deckA, deckB)[2 * i].Advance?
    ensures
      var p, a := Plan(attacks, deckA, deckB), attacks[i];
      var mover, receiver := Attacking(a), Receiving(a);
      && p[2 * i].receiver == receiver && mover.side != receiver.side
      && p[2 * i].toX == At(receiver, deckA, deckB).x
      && p[2 * i].receiverHealth == (if a.attacker == 0 then a.cardBHealthAfter else a.cardAHealthAfter)
      && (p[2 * i].receiverDies <==> p[2 * i].receiverHealth <= 0)
      && (p[2 * i].direction == -1 <==> At(receiver, deckA, deckB).worldY <= At(mover, deckA, deckB).worldY)
      && (p[2 * i].direction == -1 || p[2 * i].direction == 1)
      && p[2 * i + 1] == Retreat(mover, At(mover, deckA, deckB).x, 0.0, 200)
  {
    AttackStepsShape(attacks, deckA, deckB);
  }

  /** Builds the chain with the source's loop; `captured` is what the
      loop leaves in its shared `receiving` and `directionToReceiver`. */
  method QueuePlaybackTween(attacks: seq<AttackInfo>, deckA: seq<Placed>, deckB: seq<Placed>)
    returns (tweens: seq<Tween>, captured: Option<Captured>)
    requires ValidAttacks(attacks, deckA, deckB)
    ensures tweens == Plan(attacks, deckA, deckB)
    ensures captured == LastCaptured(attacks, deckA, deckB)
  {
    tweens := [];
    captured := None;
    var i := 0;
    while i < |attacks|
      invariant 0 <= i <= |attacks|
      invariant tweens == AttackSteps(attacks[..i], deckA, deckB)
      invariant captured == LastCaptured(attacks[..i], deckA, deckB)
    {
      var a := attacks[i];
      var mover, receiver := Attacking(a), Receiving(a);
      var m, r := At(mover, deckA, deckB), At(receiver, deckA, deckB);
      var hp := ReceivingHealth(a);
      var direction := Direction(m.worldY, r.worldY);
      captured := Some(Captured(receiver, direction));
      tweens := tweens + [Advance(mover, r.x, AdvanceMs, receiver, direction, hp, hp <= 0)];
      tweens := tweens + [Retreat(mover, m.x, 0.0, RetreatMs)];
      assert attacks[..i + 1][..i] == attacks[..i];
      i := i + 1;
    }
    assert attacks[..i] == attacks;
    tweens := tweens + [Delay(ClosingDelayMs)];
  }

  /** For the last attack the dip lands where it should: on that attack's
      receiver, in that attack's direction. */
  lemma LastAttackDipsItsReceiver(attacks: seq<AttackInfo>, deckA: seq<Placed>, deckB: seq<Placed>)
    requires ValidAttacks(attacks, deckA, deckB) && attacks != []
    ensures
      var i, p, c := |attacks| - 1, Plan(attacks, deckA, deckB), LastCaptured(attacks, deckA, deckB);
      && |p| == 2 * |attacks| + 1 && p[2 * i].Advance?
      && c.value.receiving == p[2 * i].receiver && c.value.direction == p[2 * i].direction
  {
    PlanAttack(attacks, deckA, deckB, |attacks| - 1);
  }

  /** An earlier kill dips the wrong card: deck A's first card kills deck
      B's first card, which stands above it; then deck B's second card hits
      deck A's second card, which lives on at 3. The shake after the kill
      hits deck B's first card, but the dip that follows moves deck A's
      second card, alive, 300 down the screen, and the dead card stays in
      its row. */
  lemma EarlierKillDipsAnotherCard()
    ensures
      var deckA, deckB := [Placed(0.0, 400.0), Placed(200.0, 400.0)], [Placed(0.0, 100.0), Placed(200.0, 100.0)];
      var attacks := [AttackInfo(0, 0, 10, 0, 10, 0), AttackInfo(1, 1, 3, 5, 7, 1)];
      var p, c := Plan(attacks, deckA, deckB), LastCaptured(attacks, deckA, deckB);
      && ValidAttacks(attacks, deckA, deckB)
      && p[0].Advance? && p[0].receiver == CardRef(DeckB, 0) && p[0].receiverDies
      && c == Some(Captured(CardRef(DeckA, 1), 1))
      && ReceivingHealth(attacks[1]) == 3
  {
    var deckA, deckB := [Placed(0.0, 400.0), Placed(200.0, 400.0)], [Placed(0.0, 100.0), Placed(200.0, 100.0)];
    var attacks := [AttackInfo(0, 0, 10, 0, 10, 0), AttackInfo(1, 1, 3, 5, 7, 1)];
    assert ValidAttacks(attacks, deckA, deckB);
    PlanAttack(attacks, deckA, deckB, 0);
  }

  // ---------------------------------------------------------------------
  // The hit: shake once, then dip a dead receiver

  datatype HitEffect =
    | Shake(target: CardRef, duration: nat, magnitude: nat)
    | Dip(target: CardRef, toX: real, toY: real, duration: nat, delay: nat)

  /** The indices of the updates at which the shake fires, for updates
      reporting `progress`, starting with the flag `shaken`. */
  function ShakeUpdates(shaken: bool, progress: seq<real>, from: nat): seq<nat>
    decreases |progress|
  {
    if progress == [] then []
    else if progress[0] > ConnectProgress && !shaken then [from] + ShakeUpdates(true, progress[1..], from + 1)
    else ShakeUpdates(shaken, progress[1..], from + 1)
  }

  /** Once shaken, no update shakes again. */
  lemma {:induction false} NoShakeOnceShaken(progress: seq<real>, from: nat)
    ensures ShakeUpdates(true, progress, from) == []
    decreases |progress|
  {
    if progress != [] {
      NoShakeOnceShaken(progress[1..], from + 1);
    }
  }

  /** The shake fires at most once, on the first update whose progress is
      past the connect point, and not at all when none is. */
  lemma {:induction false} ShakeFiresOnce(progress: seq<real>, from: nat)
    ensures |ShakeUpdates(false, progress, from)| <= 1
    ensures ShakeUpdates(false, progress, from) == [] <==>
      forall k :: 0 <= k < |progress| ==> progress[k] <= ConnectProgress
    ensures ShakeUpdates(false, progress, from) != [] ==>
      var k := ShakeUpdates(false, progress, from)[0] - from;
      && 0 <= k < |progress| && progress[k] > ConnectProgress
      && forall j :: 0 <= j < k ==> progress[j] <= ConnectProgress
    decreases |progress|
  {
    if progress != [] {
      if progress[0] > ConnectProgress {
        NoShakeOnceShaken(progress[1..], from + 1);
      } else {
        ShakeFiresOnce(progress[1..], from + 1);
        assert forall k :: 1 <= k < |progress| ==> progress[k] == progress[1..][k - 1];
      }
    }
  }

  /** The update handler of one advance, with the flag its closure keeps.
      It shakes the advance's own receiver (`receivingCopy`); the dip after
      the shake moves the card the captured `receiving` names, from where
      that card stands when the shake ends, in the captured direction. */
  class AttackHit {
    const receiver: CardRef
    const dies: bool
    const dipTarget: CardRef
    const dipDirection: int
    const dipFromX: real
    const dipFromY: real
    var shaken: bool
    var updates: nat
    /** The shakes and dips started so far, in order. */
    var effects: seq<HitEffect>

    constructor (t: Tween, captured: Captured, dippedPosition: Point)
      requires t.Advance?
      ensures receiver == t.receiver && dies == t.receiverDies
      ensures dipTarget == captured.receiving && dipDirection == captured.direction
      ensures dipFromX == dippedPosition.x && dipFromY == dippedPosition.y
      ensures !shaken && updates == 0 && effects == []
    {
      receiver := t.receiver;
      dies := t.receiverDies;
      dipTarget, dipDirection := captured.receiving, captured.direction;
      dipFromX, dipFromY := dippedPosition.x, dippedPosition.y;
      shaken := false;
      updates := 0;
      effects := [];
    }

    /** One update of the advance tween, reporting its progress. */
    method OnUpdate(progress: real)
      modifies this
      ensures updates == old(updates) + 1
      ensures shaken == (old(shaken) || progress > ConnectProgress)
      ensures effects == old(effects) + if progress > ConnectProgress && !old(shaken) then [Shake(receiver, ShakeMs, ShakeMagnitude)] else []
    {
      if progress > ConnectProgress && !shaken {
        shaken := true;
        effects := effects + [Shake(receiver, ShakeMs, ShakeMagnitude)];
      }
      updates := updates + 1;
    }

    /** The shake finished: when this advance's receiver dies, the captured
        card dips 300 away in the captured direction. */
    method OnShakeComplete()
      requires shaken
      modifies this
      ensures shaken && updates == old(updates)
      ensures effects == old(effects) + if dies then [Dip(dipTarget, dipFromX, dipFromY + (dipDirection as real) * DipDistance, DipMs, DipDelayMs)] else []
    {
      if dies {
        effects := effects + [Dip(dipTarget, dipFromX, dipFromY + (dipDirection as real) * DipDistance, DipMs, DipDelayMs)];
      }
    }

    /** A run of updates starts one shake per update listed by `ShakeUpdates`. */
    method RunUpdates(progress: seq<real>)
      modifies this
      ensures updates == old(updates) + |progress|
      ensures effects == old(effects) + seq(|ShakeUpdates(old(shaken), progress, old(updates))|, _ => Shake(receiver, ShakeMs, ShakeMagnitude))
    {
      var i := 0;
      ghost var start := updates;
      while i < |progress|
        invariant 0 <= i <= |progress| && updates == start + i
        invariant effects == old(effects) + seq(|ShakeUpdates(old(shaken), progress[..i], start)|, _ => Shake(receiver, ShakeMs, ShakeMagnitude))
        invariant shaken == (old(shaken) || |ShakeUpdates(old(shaken), progress[..i], start)| > 0)
      {
        ShakeUpdatesSnoc(old(shaken), progress[..i], progress[i], start);
        assert progress[..i + 1] == progress[..i] + [progress[i]];
        OnUpdate(progress[i]);
        i := i + 1;
      }
      assert progress[..i] == progress;
    }
  }

  /** Appending one update to a run. */
  lemma {:induction false} ShakeUpdatesSnoc(shaken: bool, progress: seq<real>, p: real, from: nat)
    ensures
      var before := ShakeUpdates(shaken, progress, from);
      var fired := p > ConnectProgress && !(shaken || |before| > 0);
      ShakeUpdates(shaken, progress + [p], from) == before + (if fired then [from + |progress|] else [])
    decreases |progress|
  {
    if progress == [] {
      assert [p][1..] == [];
    } else {
      assert (progress + [p])[1..] == progress[1..] + [p];
      if progress[0] > ConnectProgress && !shaken {
        ShakeUpdatesSnoc(true, progress[1..], p, from + 1);
        NoShakeOnceShaken(progress[1..], from + 1);
        NoShakeOnceShaken(progress[1..] + [p], from + 1);
      } else {
        ShakeUpdatesSnoc(shaken, progress[1..], p, from + 1);
      }
    }
  }

  // ---------------------------------------------------------------------
  // The prefab

  /** The replay chain's state: paused at an entry, playing an entry, or done. */
  datatype ChainState = Paused(at: nat) | Playing(at: nat) | Complete

  class CardAttackPrefab {
    const tweens: seq<Tween>
    /** What every dip closure of the chain reads. */
    const captured: Option<Captured>
    var chain: ChainState
    /** How many times the battle-complete handler has been called. */
    var handlerCalls: nat

    ghost predicate Valid()
      reads this
    {
      |tweens| > 0 && (chain.Paused? || chain.Playing? ==> chain.at < |tweens|)
    }

    /** Builds the chain and leaves it paused at its start. */
    constructor (playbackInfo: BattlePlaybackInfo, deckA: seq<Placed>, deckB: seq<Placed>)
      requires ValidAttacks(playbackInfo.attacks, deckA, deckB)
      ensures Valid()
      ensures tweens == Plan(playbackInfo.attacks, deckA, deckB)
      ensures captured == LastCaptured(playbackInfo.attacks, deckA, deckB)
      ensures chain == Paused(0) && handlerCalls == 0
    {
      var t, c := QueuePlaybackTween(playbackInfo.attacks, deckA, deckB);
      tweens, captured := t, c;
      chain := Paused(0);
      handlerCalls := 0;
    }

    /** Restarts the chain from its first tween, whatever its state. */
    method StartPlayback()
      requires Valid()
      modifies this
      ensures Valid() && chain == Playing(0) && handlerCalls == old(handlerCalls)
    {
      chain := Playing(0);
    }

    /** The tween engine finishes the current tween of a playing chain; the
        last one completes the chain and calls the handler once. */
    method TweenFinished()
      requires Valid() && chain.Playing?
      modifies this
      ensures Valid()
      ensures old(chain.at) + 1 < |tweens| ==> chain == Playing(old(chain.at) + 1) && handlerCalls == old(handlerCalls)
      ensures old(chain.at) + 1 == |tweens| ==> chain == Complete && handlerCalls == old(handlerCalls) + 1
    {
      if chain.at + 1 < |tweens| {
        chain := Playing(chain.at + 1);
      } else {
        chain := Complete;
        handlerCalls := handlerCalls + 1;
      }
    }
  }
}
