/** The waiting screen shown while a player is queued for a battle
    (frontend/src/game/gameobjects/QueueingPrefab.ts). On creation it shows
    "Queueing", installs a handler for created battles on the server
    interactor and joins the queue; its Refresh button re-checks past
    events. When a battle is created it shows "Loading", asks for the
    battle's playback to be recorded, resolves the battle only when the
    local player is the battle's first player, and hands the recorded
    playback to its resolved-battle callback when one is set.

    The interactor is not modelled: every request made to it, and every
    label change, is appended to one trace in the order the source makes
    them. What the asynchronous requests return is a parameter. */
module Queueing {
  import opened Util
  import opened Models

  const QueueingText := "Queueing"
  const LoadingText := "Loading"

  datatype QueueEvent =
    | SetLabel(text: string)
    | InstallCreatedHandler
    | JoinQueue(cards: seq<string>)
    | CheckPastEvents
    | RecordPlayback(battleId: string)
    | ResolveBattle(battleId: string)
    | Delivered(data: BattlePlaybackInfo)

  /** Only the battle's first player resolves it; addresses are compared
      without regard to letter case. */
  predicate ResolvesBattle(player: string, p1: string) {
    SameAddress(player, p1)
  }

  /** What the created-battle handler does, in order. */
  function HandlerEffects(player: string, id: string, p1: string, data: BattlePlaybackInfo, callbackSet: bool): (r: seq<QueueEvent>)
    ensures |r| >= 2 && r[0] == SetLabel(LoadingText) && r[1] == RecordPlayback(id)
    ensures ResolveBattle(id) in r <==> ResolvesBattle(player, p1)
    ensures Delivered(data) in r <==> callbackSet
  {
    [SetLabel(LoadingText), RecordPlayback(id)]
    + (if ResolvesBattle(player, p1) then [ResolveBattle(id)] else [])
    + (if callbackSet then [Delivered(data)] else [])
  }

  /** The place of each kind of event in the handler's order. */
  function Rank(e: QueueEvent): nat {
    match e
    case SetLabel(_) => 0
    case RecordPlayback(_) => 1
    case ResolveBattle(_) => 2
    case Delivered(_) => 3
    case _ => 4
  }

  /** The handler's events come in strictly increasing rank: the label
      first, then the recording request, then a resolve request if any,
      and the delivery of the playback last; none happens twice. */
  lemma HandlerOrder(player: string, id: string, p1: string, data: BattlePlaybackInfo, callbackSet: bool)
    ensures
      var r := HandlerEffects(player, id, p1, data, callbackSet);
      forall i, j :: 0 <= i < j < |r| ==> Rank(r[i]) < Rank(r[j])
  {
    var r := HandlerEffects(player, id, p1, data, callbackSet);
    var tail := (if ResolvesBattle(player, p1) then [ResolveBattle(id)] else [])
      + (if callbackSet then [Delivered(data)] else []);
    assert r == [SetLabel(LoadingText), RecordPlayback(id)] + tail;
    assert forall k :: 0 <= k < |tail| ==> Rank(tail[k]) >= 2;
    assert forall a, b :: 0 <= a < b < |tail| ==> Rank(tail[a]) < Rank(tail[b]);
  }

  /** A player who is not the first player never resolves, whatever the
      second player is; and the handler starts loading and recording for
      any battle, without checking that the player takes part in it. */
  lemma OnlyFirstPlayerResolves(player: string, id: string, p1: string, p2: string, data: BattlePlaybackInfo, callbackSet: bool)
    requires !SameAddress(player, p1)
    ensures forall e :: e in HandlerEffects(player, id, p1, data, callbackSet) ==> !e.ResolveBattle?
  {
    var r := HandlerEffects(player, id, p1, data, callbackSet);
    assert r == [SetLabel(LoadingText), RecordPlayback(id)] + (if callbackSet then [Delivered(data)] else []);
  }

  /** The label is the text of the last label change in the trace. */
  function LastLabel(trace: seq<QueueEvent>, default: string): string {
    if trace == [] then default
    else if trace[|trace| - 1].SetLabel? then trace[|trace| - 1].text
    else LastLabel(trace[..|trace| - 1], default)
  }

  lemma {:induction false} LastLabelAppend(trace: seq<QueueEvent>, more: seq<QueueEvent>, default: string)
    requires forall e :: e in more ==> !e.SetLabel?
    ensures LastLabel(trace + more, default) == LastLabel(trace, default)
    decreases |more|
  {
    if more != [] {
      var t := trace + more;
      assert t[..|t| - 1] == trace + more[..|more| - 1];
      assert t[|t| - 1] == more[|more| - 1] && more[|more| - 1] in more;
      LastLabelAppend(trace, more[..|more| - 1], default);
      assert !t[|t| - 1].SetLabel?;
      assert LastLabel(t, default) == LastLabel(t[..|t| - 1], default);
    } else {
      assert trace + more == trace;
    }
  }

  class QueueingPrefab {
    /** What the interactor reports as the local player's address. */
    const playerAddress: string
    var labelText: string
    var onBattleResolvedSet: bool
    var trace: seq<QueueEvent>

    ghost predicate Valid()
      reads this
    {
      InstallCreatedHandler in trace && labelText == LastLabel(trace, "")
    }

    /** Shows "Queueing", then installs the created-battle handler before
        joining the queue with `cards`. */
    constructor (playerAddress: string, cards: seq<string>)
      ensures Valid() && this.playerAddress == playerAddress
      ensures labelText == QueueingText && !onBattleResolvedSet
      ensures trace == [SetLabel(QueueingText), InstallCreatedHandler, JoinQueue(cards)]
    {
      this.playerAddress := playerAddress;
      labelText := QueueingText;
      trace := [SetLabel(QueueingText)];
      onBattleResolvedSet := false;
      new;
      DoQueue(cards);
      assert LastLabel([SetLabel(QueueingText)], "") == QueueingText;
      LastLabelAppend([SetLabel(QueueingText)], [InstallCreatedHandler, JoinQueue(cards)], "");
    }

    method DoQueue(cards: seq<string>)
      modifies this
      ensures trace == old(trace) + [InstallCreatedHandler, JoinQueue(cards)]
      ensures labelText == old(labelText) && onBattleResolvedSet == old(onBattleResolvedSet)
    {
      trace := trace + [InstallCreatedHandler];
      trace := trace + [JoinQueue(cards)];
    }

    /** Someone installs or removes the resolved-battle callback. */
    method SetOnBattleResolved(present: bool)
      requires Valid()
      modifies this
      ensures Valid() && onBattleResolvedSet == present
      ensures trace == old(trace) && labelText == old(labelText)
    {
      onBattleResolvedSet := present;
    }

    /** Every press of Refresh checks past events once. */
    method PressRefresh()
      requires Valid()
      modifies this
      ensures Valid() && trace == old(trace) + [CheckPastEvents]
      ensures labelText == old(labelText) && onBattleResolvedSet == old(onBattleResolvedSet)
    {
      LastLabelAppend(trace, [CheckPastEvents], "");
      trace := trace + [CheckPastEvents];
    }

    /** The created-battle handler, run to its end; `data` is what the
        recording request returns. */
    method OnBattleCreatedHandler(id: string, p1: string, p2: string, data: BattlePlaybackInfo)
      requires Valid()
      modifies this
      ensures Valid() && labelText == LoadingText && onBattleResolvedSet == old(onBattleResolvedSet)
      ensures trace == old(trace) + HandlerEffects(playerAddress, id, p1, data, onBattleResolvedSet)
    {
      labelText := LoadingText;
      var more: seq<QueueEvent> := [RecordPlayback(id)];
      if ResolvesBattle(playerAddress, p1) {
        more := more + [ResolveBattle(id)];
      }
      if onBattleResolvedSet {
        more := more + [Delivered(data)];
      }
      LastLabelAppend(trace + [SetLabel(LoadingText)], more, "");
      trace := trace + [SetLabel(LoadingText)] + more;
    }
  }
}
