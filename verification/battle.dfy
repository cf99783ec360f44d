/** The battle page (frontend/src/components/Battle.jsx): the player picks
    three of their cards, joins the battle queue on the ledger, and follows
    created and resolved battles through a status line. A "Check Status"
    button scans recent ledger events for a battle of theirs that was
    created but never resolved, and resumes it.

    The ledger is not modelled. What its reads return (approval, the
    current block, the recorded events, the cards owned) and the point at
    which a call throws are parameters; what the page does is an ordered
    list of effects: status changes, alerts and ledger calls. In the source
    the two event listeners and the scan on mount are commented out, so the
    two event handlers are reachable only as the functions modelled here;
    the scan runs from the "Check Status" button. */
module Battle {
  import opened Util

  /** The most cards a selection may hold. */
  const MaxSelected: nat := 3

  // ---------------------------------------------------------------------
  // Selection

  /** `filter(s => s !== id)`. */
  function Without(s: seq<string>, id: string): (r: seq<string>)
    ensures forall x :: x in r <==> x in s && x != id
    ensures |r| <= |s|
  {
    if s == [] then []
    else (if s[0] == id then [] else [s[0]]) + Without(s[1..], id)
  }

  /** Removing an id that is absent changes nothing. */
  lemma {:induction false} WithoutAbsent(s: seq<string>, id: string)
    requires id !in s
    ensures Without(s, id) == s
  {
    if s != [] {
      WithoutAbsent(s[1..], id);
    }
  }

  /** Filtering keeps a list free of duplicates. */
  lemma {:induction false} WithoutNoDup(s: seq<string>, id: string)
    requires NoDup(s)
    ensures NoDup(Without(s, id))
  {
    if s != [] {
      assert NoDup(s[1..]) by {
        forall i, j | 0 <= i < j < |s[1..]| ensures s[1..][i] != s[1..][j] {
          assert s[1..][i] == s[i + 1] && s[1..][j] == s[j + 1];
        }
      }
      WithoutNoDup(s[1..], id);
      var rest := Without(s[1..], id);
      assert s[0] !in s[1..] by {
        forall k | 0 <= k < |s[1..]| ensures s[1..][k] != s[0] {
          assert s[1..][k] == s[k + 1];
        }
      }
      assert s[0] !in rest;
    }
  }

  /** `toggleSelect`: a selected id is removed; an unselected one is added
      at the end only while fewer than three are selected. */
  function ToggleSelect(selected: seq<string>, id: string): seq<string> {
    if id in selected then Without(selected, id)
    else if |selected| < MaxSelected then selected + [id]
    else selected
  }

  /** A selection of at most three distinct ids stays one. */
  lemma ToggleSelectKeepsBound(selected: seq<string>, id: string)
    requires NoDup(selected) && |selected| <= MaxSelected
    ensures NoDup(ToggleSelect(selected, id)) && |ToggleSelect(selected, id)| <= MaxSelected
  {
    if id in selected {
      WithoutNoDup(selected, id);
    }
  }

  /** Afterwards the id is selected exactly when it was not and there was
      room; every other id keeps its selection. */
  lemma ToggleSelectMembership(selected: seq<string>, id: string, other: string)
    ensures id in ToggleSelect(selected, id) <==> id !in selected && |selected| < MaxSelected
    ensures other != id ==> (other in ToggleSelect(selected, id) <==> other in selected)
  {
  }

  /** Toggling an unselected id into a selection with room, then toggling
      it again, restores the selection. */
  lemma ToggleSelectTwice(selected: seq<string>, id: string)
    requires id !in selected && |selected| < MaxSelected
    ensures ToggleSelect(ToggleSelect(selected, id), id) == selected
  {
    var t := selected + [id];
    assert Without(t, id) == Without(selected, id) + Without([id], id) by {
      WithoutAppend(selected, [id], id);
    }
    WithoutAbsent(selected, id);
  }

  lemma {:induction false} WithoutAppend(a: seq<string>, b: seq<string>, id: string)
    ensures Without(a + b, id) == Without(a, id) + Without(b, id)
  {
    if a != [] {
      assert (a + b)[1..] == a[1..] + b;
      WithoutAppend(a[1..], b, id);
    } else {
      assert a + b == b;
    }
  }

  // ---------------------------------------------------------------------
  // Effects

  datatype LedgerCall =
    | GetSigner
    | IsApprovedForAll
    | SetApprovalForAll
    | WaitApproval
    | RegisterForBattle(cards: seq<string>)
    | WaitRegistration
    | ResolveBattle(battleId: nat)
    | GetBlockNumber
    | QueryCreated(fromBlock: nat)
    | QueryResolved(battleId: nat, fromBlock: nat)

  datatype Effect = Alert(message: string) | SetStatus(text: string) | Call(call: LedgerCall)

  /** The status shown after the effects, starting from `status`. */
  function StatusAfter(status: string, effects: seq<Effect>): string
    decreases |effects|
  {
    if effects == [] then status
    else if effects[|effects| - 1].SetStatus? then effects[|effects| - 1].text
    else StatusAfter(status, effects[..|effects| - 1])
  }

  /** Effects run one list after another. */
  lemma {:induction false} StatusAfterAppend(status: string, a: seq<Effect>, b: seq<Effect>)
    ensures StatusAfter(status, a + b) == StatusAfter(StatusAfter(status, a), b)
    decreases |b|
  {
    if b == [] {
      assert a + b == a;
    } else {
      assert (a + b)[..|a + b| - 1] == a + b[..|b| - 1];
      StatusAfterAppend(status, a, b[..|b| - 1]);
    }
  }

  // ---------------------------------------------------------------------
  // Joining the queue

  const ApprovingStatus := "Approving cards..."
  const JoiningStatus := "Joining battle queue..."
  const WaitingStatus := "Waiting for transaction..."
  const RegisteredStatus := "Registered! Waiting for opponent..."

  /** The `n`-th ledger call of the join (counting from 0) throws `reason`. */
  datatype Fault = Fault(callIndex: nat, reason: string)

  /** The join when nothing throws, after the first status change. */
  function JoinSteps(selected: seq<string>, approved: bool): seq<Effect> {
    [Call(GetSigner), Call(IsApprovedForAll)]
    + (if approved then [] else [Call(SetApprovalForAll), Call(WaitApproval)])
    + [SetStatus(JoiningStatus), Call(RegisterForBattle(selected)), SetStatus(WaitingStatus),
       Call(WaitRegistration), SetStatus(RegisteredStatus)]
  }

  /** The position of the `n`-th ledger call (counting from 0), if there
      are that many. */
  function NthCall(effects: seq<Effect>, n: nat): (r: Option<nat>)
    ensures r.Some? ==> r.value < |effects| && effects[r.value].Call?
    decreases |effects|
  {
    if effects == [] then None
    else if effects[0].Call? && n == 0 then Some(0)
    else match NthCall(effects[1..], if effects[0].Call? then n - 1 else n)
      case None => None
      case Some(i) => Some(i + 1)
  }

  function CountCalls(effects: seq<Effect>): nat {
    if effects == [] then 0 else (if effects[0].Call? then 1 else 0) + CountCalls(effects[1..])
  }

  /** The `n`-th call is made exactly when there are more than `n` calls. */
  lemma {:induction false} NthCallIffCount(effects: seq<Effect>, n: nat)
    ensures NthCall(effects, n).Some? <==> n < CountCalls(effects)
    decreases |effects|
  {
    if effects != [] && !(effects[0].Call? && n == 0) {
      NthCallIffCount(effects[1..], if effects[0].Call? then n - 1 else n);
    }
  }

  /** The effects up to and including the call that throws, then the error
      status; everything when the fault names no call that is made. */
  function CutAtFault(effects: seq<Effect>, fault: Option<Fault>): (r: seq<Effect>)
    ensures fault.None? ==> r == effects
    ensures fault.Some? && NthCall(effects, fault.value.callIndex).Some? ==>
      var i := NthCall(effects, fault.value.callIndex).value;
      |r| == i + 2 && r[..i + 1] == effects[..i + 1] && r[i + 1] == SetStatus("Error: " + fault.value.reason)
  {
    if fault.None? then effects
    else match NthCall(effects, fault.value.callIndex)
      case None => effects
      case Some(i) => effects[..i + 1] + [SetStatus("Error: " + fault.value.reason)]
  }

  /** `joinQueue`: alerts unless exactly three cards are selected;
      otherwise shows the approving status and runs the join. */
  function JoinQueueEffects(selected: seq<string>, approved: bool, fault: Option<Fault>): seq<Effect> {
    if |selected| != MaxSelected then [Alert("Select exactly 3 cards")]
    else [SetStatus(ApprovingStatus)] + CutAtFault(JoinSteps(selected, approved), fault)
  }

  /** Without exactly three cards the join makes no ledger call and leaves
      the status alone. */
  lemma JoinNeedsThree(selected: seq<string>, approved: bool, fault: Option<Fault>, status: string)
    requires |selected| != MaxSelected
    ensures forall e :: e in JoinQueueEffects(selected, approved, fault) ==> !e.Call?
    ensures StatusAfter(status, JoinQueueEffects(selected, approved, fault)) == status
  {
    assert StatusAfter(status, [Alert("Select exactly 3 cards")]) == StatusAfter(status, []);
  }

  /** A surviving effect that is not a status change sits where it sat,
      and so does everything before it. */
  lemma CutAtFaultKeeps(effects: seq<Effect>, fault: Option<Fault>, k: nat)
    requires k < |CutAtFault(effects, fault)| && !CutAtFault(effects, fault)[k].SetStatus?
    ensures k < |effects| && CutAtFault(effects, fault)[..k + 1] == effects[..k + 1]
    ensures CutAtFault(effects, fault)[k] == effects[k]
  {
    if fault.Some? && NthCall(effects, fault.value.callIndex).Some? {
      var i := NthCall(effects, fault.value.callIndex).value;
      var r := CutAtFault(effects, fault);
      assert k <= i;
      assert r[..k + 1] == r[..i + 1][..k + 1];
    }
  }

  /** Where the approval write and the registration sit in the join. */
  lemma JoinStepsLayout(selected: seq<string>, approved: bool)
    ensures
      var s := JoinSteps(selected, approved);
      && |s| == (if approved then 7 else 9)
      && (forall k :: 0 <= k < |s| && s[k] == Call(SetApprovalForAll) ==> !approved && k == 2)
      && (forall k :: 0 <= k < |s| && s[k].Call? && s[k].call.RegisterForBattle? ==> k == |s| - 4)
      && (!approved ==> s[2] == Call(SetApprovalForAll))
  {
    var s := JoinSteps(selected, approved);
    if approved {
      assert s == [Call(GetSigner), Call(IsApprovedForAll), SetStatus(JoiningStatus), Call(RegisterForBattle(selected)),
                   SetStatus(WaitingStatus), Call(WaitRegistration), SetStatus(RegisteredStatus)];
    } else {
      assert s == [Call(GetSigner), Call(IsApprovedForAll), Call(SetApprovalForAll), Call(WaitApproval),
                   SetStatus(JoiningStatus), Call(RegisterForBattle(selected)),
                   SetStatus(WaitingStatus), Call(WaitRegistration), SetStatus(RegisteredStatus)];
    }
  }

  /** The approval write is issued only when the cards were not approved,
      and before the registration. (With other than three cards there is no
      ledger call at all: `JoinNeedsThree`.) */
  lemma ApprovalBeforeRegister(selected: seq<string>, approved: bool, fault: Option<Fault>, i: nat, j: nat)
    requires |selected| == MaxSelected
    requires
      var r := JoinQueueEffects(selected, approved, fault);
      i < |r| && j < |r| && r[i] == Call(SetApprovalForAll) && r[j].Call? && r[j].call.RegisterForBattle?
    ensures !approved && i < j
  {
    var r := JoinQueueEffects(selected, approved, fault);
    var steps := JoinSteps(selected, approved);
    var cut := CutAtFault(steps, fault);
    assert r == [SetStatus(ApprovingStatus)] + cut;
    assert i > 0 && j > 0;
    assert r[i] == cut[i - 1] && r[j] == cut[j - 1];
    CutAtFaultKeeps(steps, fault, i - 1);
    CutAtFaultKeeps(steps, fault, j - 1);
    JoinStepsLayout(selected, approved);
  }

  /** When the cards were not approved, a registration call is preceded by
      the approval write. */
  lemma RegisterAfterApproval(selected: seq<string>, fault: Option<Fault>, j: nat)
    requires |selected| == MaxSelected
    requires
      var r := JoinQueueEffects(selected, false, fault);
      j < |r| && r[j].Call? && r[j].call.RegisterForBattle?
    ensures Call(SetApprovalForAll) in JoinQueueEffects(selected, false, fault)[..j]
  {
    var r := JoinQueueEffects(selected, false, fault);
    var steps := JoinSteps(selected, false);
    var cut := CutAtFault(steps, fault);
    assert r == [SetStatus(ApprovingStatus)] + cut;
    CutAtFaultKeeps(steps, fault, j - 1);
    assert cut[j - 1] == steps[j - 1];
    JoinStepsLayout(selected, false);
    assert cut[2] == steps[2] == Call(SetApprovalForAll);
    assert r[..j][3] == r[3];
  }

  /** With nothing thrown, the join ends registered and waiting for an
      opponent. */
  lemma JoinSucceeds(selected: seq<string>, approved: bool, status: string)
    requires |selected| == MaxSelected
    ensures StatusAfter(status, JoinQueueEffects(selected, approved, None)) == RegisteredStatus
  {
  }

  /** A throw ends the join on the error status. */
  lemma JoinFails(effects: seq<Effect>, fault: Fault, status: string)
    requires CountCalls(effects) > fault.callIndex
    ensures StatusAfter(status, CutAtFault(effects, Some(fault))) == "Error: " + fault.reason
  {
    NthCallIffCount(effects, fault.callIndex);
  }

  /** A throw at any ledger call of the join ends it on the error status. */
  lemma JoinQueueFails(selected: seq<string>, approved: bool, fault: Fault, status: string)
    requires |selected| == MaxSelected
    requires fault.callIndex < CountCalls(JoinSteps(selected, approved))
    ensures StatusAfter(status, JoinQueueEffects(selected, approved, Some(fault))) == "Error: " + fault.reason
  {
    var steps := JoinSteps(selected, approved);
    JoinFails(steps, fault, StatusAfter(status, [SetStatus(ApprovingStatus)]));
    StatusAfterAppend(status, [SetStatus(ApprovingStatus)], CutAtFault(steps, Some(fault)));
  }

  // ---------------------------------------------------------------------
  // The Find Match button

  /** The button is enabled only with three cards selected and a status
      that mentions neither waiting nor approving. */
  predicate FindMatchEnabled(selected: seq<string>, status: string) {
    |selected| == MaxSelected && !Contains(status, "Waiting") && !Contains(status, "Approving")
  }

  /** The button shows the status, or "Find Match" while there is none. */
  function ButtonLabel(status: string): (s: string)
    ensures status != "" ==> s == status
    ensures |s| > 0
  {
    if status == "" then "Find Match" else status
  }

  /** While a join waits for the approval, for the registration to be
      mined, and for an opponent, the button is disabled. */
  lemma FindMatchDisabledWhileWaiting(selected: seq<string>)
    ensures !FindMatchEnabled(selected, ApprovingStatus)
    ensures !FindMatchEnabled(selected, WaitingStatus)
    ensures !FindMatchEnabled(selected, RegisteredStatus)
  {
    ApprovingMentionsApproving();
    WaitingMentionsWaiting();
    RegisteredMentionsWaiting();
  }

  lemma ApprovingMentionsApproving()
    ensures Contains(ApprovingStatus, "Approving")
  {
    assert ApprovingStatus == [] + "Approving" + " cards...";
    ContainsInMiddle([], "Approving", " cards...");
  }

  lemma WaitingMentionsWaiting()
    ensures Contains(WaitingStatus, "Waiting")
  {
    assert WaitingStatus == [] + "Waiting" + " for transaction...";
    ContainsInMiddle([], "Waiting", " for transaction...");
  }

  lemma RegisteredMentionsWaiting()
    ensures Contains(RegisteredStatus, "Waiting")
  {
    assert RegisteredStatus == "Registered! " + "Waiting" + " for opponent...";
    ContainsInMiddle("Registered! ", "Waiting", " for opponent...");
  }

  /** No character of `s` is a capital W or A. */
  predicate NoCapitals(s: string) {
    forall k :: 0 <= k < |s| ==> s[k] != 'W' && s[k] != 'A'
  }

  /** A status without a capital W or A mentions neither word. */
  lemma NoCapitalsNoWords(s: string)
    requires NoCapitals(s)
    ensures !Contains(s, "Waiting") && !Contains(s, "Approving")
  {
    LacksFirstChar(s, "Waiting");
    LacksFirstChar(s, "Approving");
  }

  lemma JoiningNoCapitals()
    ensures NoCapitals(JoiningStatus)
  {
  }

  /** The status shown while the registration is being sent mentions
      neither word, so the button is enabled then, as it is before any
      status is shown, whenever three cards are selected. */
  lemma FindMatchEnabledWhileJoining(selected: seq<string>)
    ensures FindMatchEnabled(selected, JoiningStatus) <==> |selected| == MaxSelected
    ensures FindMatchEnabled(selected, "") <==> |selected| == MaxSelected
  {
    JoiningNoCapitals();
    NoCapitalsNoWords(JoiningStatus);
    assert !Contains("", "Waiting") && !Contains("", "Approving");
  }

  // ---------------------------------------------------------------------
  // Battle events

  /** The local address is one of the battle's two players. */
  predicate Involves(address: string, p1: string, p2: string) {
    SameAddress(p1, address) || SameAddress(p2, address)
  }

  function StartedStatus(battleId: nat): string {
    "Battle Started! ID: " + NatToString(battleId) + ". Resolving..."
  }

  /** `onBattleCreated`: a battle of the local player's is announced and
      resolved; any other battle is ignored. */
  function CreatedEffects(address: string, battleId: nat, p1: string, p2: string): seq<Effect> {
    if Involves(address, p1, p2) then [SetStatus(StartedStatus(battleId)), Call(ResolveBattle(battleId))] else []
  }

  /** Resolve is called exactly for battles naming the local address on
      either side, compared without regard to letter case; and the
      announcement names the battle. */
  lemma CreatedResolvesOwnBattles(address: string, battleId: nat, p1: string, p2: string, address': string, p1': string, p2': string)
    requires SameAddress(address, address') && SameAddress(p1, p1') && SameAddress(p2, p2')
    ensures Call(ResolveBattle(battleId)) in CreatedEffects(address, battleId, p1, p2) <==> Involves(address, p1, p2)
    ensures forall e :: e in CreatedEffects(address, battleId, p1, p2) && e.Call? ==> e.call == ResolveBattle(battleId)
    ensures CreatedEffects(address, battleId, p1, p2) == CreatedEffects(address', battleId, p1', p2')
    ensures Involves(address, p1, p2) ==> Contains(StatusAfter("", CreatedEffects(address, battleId, p1, p2)), NatToString(battleId))
  {
    if Involves(address, p1, p2) {
      var effects := CreatedEffects(address, battleId, p1, p2);
      assert effects[..1] == [SetStatus(StartedStatus(battleId))];
      assert StatusAfter("", effects) == StartedStatus(battleId);
      ContainsInMiddle("Battle Started! ID: ", NatToString(battleId), ". Resolving...");
    }
  }

  /** The announcement of a started battle mentions neither waiting nor
      approving, so it re-enables the button for a full selection. */
  lemma StartedStatusEnablesButton(selected: seq<string>, battleId: nat)
    ensures FindMatchEnabled(selected, StartedStatus(battleId)) <==> |selected| == MaxSelected
  {
    var d := NatToString(battleId);
    var s := StartedStatus(battleId);
    forall k | 0 <= k < |s| ensures s[k] != 'W' && s[k] != 'A' {
      var a := "Battle Started! ID: ";
      if k < |a| {
        assert s[k] == a[k];
      } else if k < |a| + |d| {
        assert s[k] == d[k - |a|];
      } else {
        assert s[k] == ". Resolving..."[k - |a| - |d|];
      }
    }
    NoCapitalsNoWords(s);
  }

  const WonStatus := "You Won! You stole a card!"
  const LostStatus := "You Lost! You lost a card."

  /** `onBattleResolved`: the winner is checked first, then the loser; a
      battle of other players leaves the status as it was. */
  function ResolvedStatus(address: string, status: string, winner: string, loser: string): (r: string)
    ensures SameAddress(winner, address) ==> r == WonStatus
    ensures !SameAddress(winner, address) && SameAddress(loser, address) ==> r == LostStatus
    ensures !SameAddress(winner, address) && !SameAddress(loser, address) ==> r == status
  {
    if SameAddress(winner, address) then WonStatus
    else if SameAddress(loser, address) then LostStatus
    else status
  }

  /** The outcome depends on the addresses only up to letter case. */
  lemma ResolvedStatusIgnoresCase(address: string, status: string, winner: string, loser: string, address': string, winner': string, loser': string)
    requires SameAddress(address, address') && SameAddress(winner, winner') && SameAddress(loser, loser')
    ensures ResolvedStatus(address, status, winner, loser) == ResolvedStatus(address', status, winner', loser')
  {
  }

  const ResolvedOkStatus := "Battle Resolved! Checking winner..."
  const ProcessingStatus := "Battle processing... (check console)"

  /** `resolveBattle`'s own status: whether its transaction went through or
      threw (perhaps because the other player resolved first). */
  function ResolveStatus(succeeded: bool): string {
    if succeeded then ResolvedOkStatus else ProcessingStatus
  }

  lemma ResolvedOkNoCapitals()
    ensures NoCapitals(ResolvedOkStatus)
  {
  }

  lemma ProcessingNoCapitals()
    ensures NoCapitals(ProcessingStatus)
  {
  }

  /** Either way the battle's resolution ends, the status mentions neither
      waiting nor approving, so Find Match is enabled again for a full
      selection. */
  lemma ResolveReenablesButton(selected: seq<string>, succeeded: bool)
    ensures FindMatchEnabled(selected, ResolveStatus(succeeded)) <==> |selected| == MaxSelected
  {
    if succeeded {
      ResolvedOkNoCapitals();
      NoCapitalsNoWords(ResolvedOkStatus);
    } else {
      ProcessingNoCapitals();
      NoCapitalsNoWords(ProcessingStatus);
    }
  }

  // ---------------------------------------------------------------------
  // The cold-start scan

  datatype LedgerEvent =
    | BattleCreated(block: nat, battleId: nat, p1: string, p2: string)
    | BattleResolved(block: nat, battleId: nat, winner: string, loser: string)

  /** How far back the scan looks: the last 1000 blocks, or from block 0
      when the ledger is shorter than that. */
  function ScanStart(currentBlock: nat): (start: nat)
    ensures start <= currentBlock && currentBlock - start <= 1000
    ensures currentBlock - 1000 > 0 ==> start == currentBlock - 1000
    ensures currentBlock - 1000 <= 0 ==> start == 0
  {
    if currentBlock - 1000 > 0 then currentBlock - 1000 else 0
  }

  /** The creation events from block `from` on, in ledger order. */
  function CreatedSince(events: seq<LedgerEvent>, from: nat): (r: seq<LedgerEvent>)
    ensures forall e :: e in r <==> e in events && e.BattleCreated? && e.block >= from
  {
    if events == [] then []
    else
      var head := if events[0].BattleCreated? && events[0].block >= from then [events[0]] else [];
      head + CreatedSince(events[1..], from)
  }

  /** A resolution of battle `id` is recorded from block `from` on. */
  predicate ResolvedSince(events: seq<LedgerEvent>, id: nat, from: nat) {
    exists k :: 0 <= k < |events| && events[k].BattleResolved? && events[k].battleId == id && events[k].block >= from
  }

  /** A created battle of the local player's with no recorded resolution. */
  predicate Pending(e: LedgerEvent, events: seq<LedgerEvent>, from: nat, address: string) {
    e.BattleCreated? && Involves(address, e.p1, e.p2) && !ResolvedSince(events, e.battleId, from)
  }

  /** The first pending battle among `created`, by position. */
  function FirstPending(created: seq<LedgerEvent>, events: seq<LedgerEvent>, from: nat, address: string): (r: Option<nat>)
    ensures r.Some? ==> r.value < |created| && Pending(created[r.value], events, from, address)
    ensures r.Some? ==> forall j :: 0 <= j < r.value ==> !Pending(created[j], events, from, address)
    ensures r.None? <==> forall j :: 0 <= j < |created| ==> !Pending(created[j], events, from, address)
  {
    if created == [] then None
    else if Pending(created[0], events, from, address) then Some(0)
    else match FirstPending(created[1..], events, from, address)
      case None => None
      case Some(k) => Some(k + 1)
  }

  function FoundStatus(battleId: nat): string {
    "Found active battle " + NatToString(battleId) + ". Resolving..."
  }

  /** The scan's loop: each creation event of the local player's asks for
      its resolutions; the first one without any is announced and resolved,
      and nothing after it is examined. */
  function ScanEffects(created: seq<LedgerEvent>, events: seq<LedgerEvent>, from: nat, address: string): seq<Effect>
    requires forall e :: e in created ==> e.BattleCreated?
  {
    if created == [] then []
    else
      var e := created[0];
      if Involves(address, e.p1, e.p2) then
        [Call(QueryResolved(e.battleId, from))]
        + if !ResolvedSince(events, e.battleId, from) then [SetStatus(FoundStatus(e.battleId)), Call(ResolveBattle(e.battleId))]
          else ScanEffects(created[1..], events, from, address)
      else ScanEffects(created[1..], events, from, address)
  }

  /** `checkPastEvents`, when no ledger read throws. */
  function CheckPastEventsEffects(events: seq<LedgerEvent>, currentBlock: nat, address: string): seq<Effect> {
    var start := ScanStart(currentBlock);
    [Call(GetBlockNumber), Call(QueryCreated(start))] + ScanEffects(CreatedSince(events, start), events, start, address)
  }

  /** Every effect is a query for a battle's resolutions. */
  predicate OnlyQueries(r: seq<Effect>) {
    forall m :: 0 <= m < |r| ==> r[m].Call? && r[m].call.QueryResolved?
  }

  /** Queries for resolutions, then the announcement of battle `id` and the
      call that resolves it, as the last two effects. */
  predicate Resumes(r: seq<Effect>, id: nat) {
    && |r| >= 2 && OnlyQueries(r[..|r| - 2])
    && r[|r| - 2] == SetStatus(FoundStatus(id)) && r[|r| - 1] == Call(ResolveBattle(id))
  }

  /** Skipping a battle that is not pending shifts the first pending one. */
  lemma FirstPendingSkip(created: seq<LedgerEvent>, events: seq<LedgerEvent>, from: nat, address: string)
    requires created != [] && !Pending(created[0], events, from, address)
    ensures
      var p, p' := FirstPending(created, events, from, address), FirstPending(created[1..], events, from, address);
      (p.None? <==> p'.None?) && (p.Some? ==> p.value == p'.value + 1 && created[p.value] == created[1..][p'.value])
  {
  }

  /** The scan stops at a pending battle. */
  lemma ScanHeadPending(created: seq<LedgerEvent>, events: seq<LedgerEvent>, from: nat, address: string)
    requires forall e :: e in created ==> e.BattleCreated?
    requires created != [] && Pending(created[0], events, from, address)
    ensures
      var id := created[0].battleId;
      ScanEffects(created, events, from, address)
        == [Call(QueryResolved(id, from)), SetStatus(FoundStatus(id)), Call(ResolveBattle(id))]
  {
  }

  /** What the scan asks about a battle before looking at its resolutions:
      one query when it is the player's, nothing otherwise. */
  function HeadQuery(e: LedgerEvent, from: nat, address: string): (q: seq<Effect>)
    requires e.BattleCreated?
    ensures OnlyQueries(q)
  {
    if Involves(address, e.p1, e.p2) then [Call(QueryResolved(e.battleId, from))] else []
  }

  /** The scan passes a battle that is not pending, querying it if it is
      the player's. */
  lemma ScanHeadSkip(created: seq<LedgerEvent>, events: seq<LedgerEvent>, from: nat, address: string)
    requires forall e :: e in created ==> e.BattleCreated?
    requires created != [] && !Pending(created[0], events, from, address)
    ensures forall e :: e in created[1..] ==> e.BattleCreated?
    ensures ScanEffects(created, events, from, address)
      == HeadQuery(created[0], from, address) + ScanEffects(created[1..], events, from, address)
  {
    assert forall x :: x in created[1..] ==> x in created;
  }

  lemma QueriesThenResumes(q: seq<Effect>, r: seq<Effect>, id: nat)
    requires OnlyQueries(q) && Resumes(r, id)
    ensures Resumes(q + r, id)
  {
    assert (q + r)[..|q + r| - 2] == q + r[..|r| - 2];
  }

  lemma QueriesThenQueries(q: seq<Effect>, r: seq<Effect>)
    requires OnlyQueries(q) && OnlyQueries(r)
    ensures OnlyQueries(q + r)
  {
  }

  /** The scan resumes the first pending battle in query order and nothing
      after it, so it resolves at most one battle; when no battle is pending
      it only queries. */
  lemma {:induction false} ScanResumesFirstPending(created: seq<LedgerEvent>, events: seq<LedgerEvent>, from: nat, address: string)
    requires forall e :: e in created ==> e.BattleCreated?
    ensures
      var r, p := ScanEffects(created, events, from, address), FirstPending(created, events, from, address);
      && (p.Some? ==> Resumes(r, created[p.value].battleId))
      && (p.None? ==> OnlyQueries(r))
    decreases |created|
  {
    if created != [] {
      var p := FirstPending(created, events, from, address);
      if Pending(created[0], events, from, address) {
        ScanHeadPending(created, events, from, address);
        var id := created[0].battleId;
        var r := [Call(QueryResolved(id, from)), SetStatus(FoundStatus(id)), Call(ResolveBattle(id))];
        assert r[..1] == [Call(QueryResolved(id, from))];
        assert Resumes(r, id);
      } else {
        ScanHeadSkip(created, events, from, address);
        ScanResumesFirstPending(created[1..], events, from, address);
        FirstPendingSkip(created, events, from, address);
        var q, r' := HeadQuery(created[0], from, address), ScanEffects(created[1..], events, from, address);
        if p.Some? {
          QueriesThenResumes(q, r', created[p.value].battleId);
        } else {
          QueriesThenQueries(q, r');
        }
      }
    }
  }

  /** A list without status changes leaves the status as it was. */
  lemma {:induction false} NoStatusChangeKeepsStatus(status: string, r: seq<Effect>)
    requires forall m :: 0 <= m < |r| ==> !r[m].SetStatus?
    ensures StatusAfter(status, r) == status
    decreases |r|
  {
    if r != [] {
      NoStatusChangeKeepsStatus(status, r[..|r| - 1]);
    }
  }

  /** A resuming scan leaves the announcement of the resumed battle. */
  lemma ResumesStatus(status: string, r: seq<Effect>, id: nat)
    requires Resumes(r, id)
    ensures StatusAfter(status, r) == FoundStatus(id)
  {
    var r' := r[..|r| - 1];
    assert r'[|r'| - 1] == SetStatus(FoundStatus(id));
  }

  /** The scan leaves the status announcing the first pending battle, or
      as it was when none is pending. */
  lemma ScanStatus(status: string, created: seq<LedgerEvent>, events: seq<LedgerEvent>, from: nat, address: string)
    requires forall e :: e in created ==> e.BattleCreated?
    ensures
      var p := FirstPending(created, events, from, address);
      StatusAfter(status, ScanEffects(created, events, from, address))
        == if p.Some? then FoundStatus(created[p.value].battleId) else status
  {
    var p := FirstPending(created, events, from, address);
    var r := ScanEffects(created, events, from, address);
    ScanResumesFirstPending(created, events, from, address);
    if p.Some? {
      ResumesStatus(status, r, created[p.value].battleId);
    } else {
      NoStatusChangeKeepsStatus(status, r);
    }
  }

  /** After the scan the status announces the resumed battle, or is what it
      was when no battle was resumed. */
  lemma CheckPastEventsStatus(events: seq<LedgerEvent>, currentBlock: nat, address: string, status: string)
    ensures
      var start := ScanStart(currentBlock);
      var created := CreatedSince(events, start);
      var p := FirstPending(created, events, start, address);
      StatusAfter(status, CheckPastEventsEffects(events, currentBlock, address))
        == if p.Some? then FoundStatus(created[p.value].battleId) else status
  {
    var start := ScanStart(currentBlock);
    var created := CreatedSince(events, start);
    var r := ScanEffects(created, events, start, address);
    var head := [Call(GetBlockNumber), Call(QueryCreated(start))];
    assert CheckPastEventsEffects(events, currentBlock, address) == head + r;
    StatusAfterAppend(status, head, r);
    NoStatusChangeKeepsStatus(status, head);
    ScanStatus(status, created, events, start, address);
  }

  /** The scan's effects from the `i`-th creation event on: a pending
      battle ends them; any other adds its query, if any, to the rest. */
  lemma ScanStep(created: seq<LedgerEvent>, events: seq<LedgerEvent>, from: nat, address: string, i: nat)
    requires forall e :: e in created ==> e.BattleCreated?
    requires i < |created|
    ensures forall e :: e in created[i..] ==> e.BattleCreated?
    ensures forall e :: e in created[i + 1..] ==> e.BattleCreated?
    ensures
      var e := created[i];
      Pending(e, events, from, address) ==>
        ScanEffects(created[i..], events, from, address)
          == [Call(QueryResolved(e.battleId, from)), SetStatus(FoundStatus(e.battleId)), Call(ResolveBattle(e.battleId))]
    ensures !Pending(created[i], events, from, address) ==>
      ScanEffects(created[i..], events, from, address)
        == HeadQuery(created[i], from, address) + ScanEffects(created[i + 1..], events, from, address)
  {
    assert forall e :: e in created[i..] ==> e in created;
    assert created[i..][1..] == created[i + 1..];
    if Pending(created[i], events, from, address) {
      ScanHeadPending(created[i..], events, from, address);
    } else {
      ScanHeadSkip(created[i..], events, from, address);
    }
  }

  /** The scan ends at a pending `i`-th battle with its query, its
      announcement and its resolution. */
  lemma ScanResumeHere(created: seq<LedgerEvent>, events: seq<LedgerEvent>, from: nat, address: string, i: nat, done: seq<Effect>)
    requires forall e :: e in created ==> e.BattleCreated?
    requires i < |created| && Pending(created[i], events, from, address)
    requires forall e :: e in created[i..] ==> e.BattleCreated?
    requires done + ScanEffects(created[i..], events, from, address) == ScanEffects(created, events, from, address)
    ensures
      var id := created[i].battleId;
      done + ([Call(QueryResolved(id, from))] + [SetStatus(FoundStatus(id)), Call(ResolveBattle(id))])
        == ScanEffects(created, events, from, address)
  {
    ScanStep(created, events, from, address, i);
  }

  /** The scan passes an `i`-th battle that is not pending: what it has
      done grows by that battle's query, if any, and what is left starts
      after it. */
  lemma ScanPassHere(created: seq<LedgerEvent>, events: seq<LedgerEvent>, from: nat, address: string, i: nat, done: seq<Effect>)
    requires forall e :: e in created ==> e.BattleCreated?
    requires i < |created| && !Pending(created[i], events, from, address)
    requires forall e :: e in created[i..] ==> e.BattleCreated?
    requires done + ScanEffects(created[i..], events, from, address) == ScanEffects(created, events, from, address)
    ensures forall e :: e in created[i + 1..] ==> e.BattleCreated?
    ensures (done + HeadQuery(created[i], from, address)) + ScanEffects(created[i + 1..], events, from, address)
      == ScanEffects(created, events, from, address)
  {
    ScanStep(created, events, from, address, i);
    var q, rest := HeadQuery(created[i], from, address), ScanEffects(created[i + 1..], events, from, address);
    assert (done + q) + rest == done + (q + rest);
  }

  /** No battle before the `i`-th is pending. */
  predicate NonePendingBefore(created: seq<LedgerEvent>, events: seq<LedgerEvent>, from: nat, address: string, i: nat)
    requires i <= |created|
  {
    forall j :: 0 <= j < i ==> !Pending(created[j], events, from, address)
  }

  /** Cards owned by the player, as the selection shows them. */
  datatype OwnedCard = OwnedCard(id: string, name: string, attack: int, health: int)

  class BattlePanel {
    /** The local player's address. */
    const address: string
    var myCards: seq<OwnedCard>
    var selected: seq<string>
    var status: string
    /** Everything the page has done, in order. */
    var effects: seq<Effect>

    ghost predicate Valid()
      reads this
    {
      NoDup(selected) && |selected| <= MaxSelected
    }

    constructor (address: string)
      ensures Valid() && this.address == address
      ensures myCards == [] && selected == [] && status == "" && effects == []
    {
      this.address := address;
      myCards, selected, status, effects := [], [], "", [];
    }

    /** `loadMyCards`: one entry per owned token, in the order the ledger
        lists them, with the id in decimal; `stats` gives each token's
        attack and health. Distinct tokens give distinct entry ids. */
    method LoadMyCards(ids: seq<nat>, stats: nat -> (int, int))
      modifies this
      ensures |myCards| == |ids|
      ensures forall i :: 0 <= i < |ids| ==>
        myCards[i] == OwnedCard(NatToString(ids[i]), "Card #" + NatToString(ids[i]), stats(ids[i]).0, stats(ids[i]).1)
      ensures NoDup(ids) ==> forall i, j :: 0 <= i < j < |ids| ==> myCards[i].id != myCards[j].id
      ensures selected == old(selected) && status == old(status) && effects == old(effects)
    {
      var loaded: seq<OwnedCard> := [];
      for i := 0 to |ids|
        invariant |loaded| == i
        invariant forall k :: 0 <= k < i ==>
          loaded[k] == OwnedCard(NatToString(ids[k]), "Card #" + NatToString(ids[k]), stats(ids[k]).0, stats(ids[k]).1)
      {
        var c := stats(ids[i]);
        loaded := loaded + [OwnedCard(NatToString(ids[i]), "Card #" + NatToString(ids[i]), c.0, c.1)];
      }
      myCards := loaded;
      forall i, j | 0 <= i < j < |ids| && myCards[i].id == myCards[j].id
        ensures ids[i] == ids[j]
      {
        NatToStringInjective(ids[i], ids[j]);
      }
    }

    method Toggle(id: string)
      requires Valid()
      modifies this
      ensures Valid() && selected == ToggleSelect(old(selected), id)
      ensures myCards == old(myCards) && status == old(status) && effects == old(effects)
    {
      ToggleSelectKeepsBound(selected, id);
      if id in selected {
        selected := Without(selected, id);
      } else if |selected| < MaxSelected {
        selected := selected + [id];
      }
    }

    /** `approved` is what the approval read returns; `fault` names the
        ledger call that throws, if any. */
    method JoinQueue(approved: bool, fault: Option<Fault>)
      requires Valid()
      modifies this
      ensures Valid() && selected == old(selected) && myCards == old(myCards)
      ensures effects == old(effects) + JoinQueueEffects(selected, approved, fault)
      ensures status == StatusAfter(old(status), JoinQueueEffects(selected, approved, fault))
    {
      var done := JoinQueueEffects(selected, approved, fault);
      effects := effects + done;
      status := StatusAfter(status, done);
    }

    method OnBattleCreated(battleId: nat, p1: string, p2: string)
      requires Valid()
      modifies this
      ensures Valid() && selected == old(selected) && myCards == old(myCards)
      ensures effects == old(effects) + CreatedEffects(address, battleId, p1, p2)
      ensures status == StatusAfter(old(status), CreatedEffects(address, battleId, p1, p2))
    {
      if SameAddress(p1, address) || SameAddress(p2, address) {
        status := StartedStatus(battleId);
        effects := effects + [SetStatus(status), Call(ResolveBattle(battleId))];
      }
    }

    method OnBattleResolved(battleId: nat, winner: string, loser: string)
      requires Valid()
      modifies this
      ensures Valid() && selected == old(selected) && myCards == old(myCards)
      ensures status == ResolvedStatus(address, old(status), winner, loser)
      ensures effects == old(effects) + if status != old(status) then [SetStatus(status)] else []
    {
      var before := status;
      if SameAddress(winner, address) {
        status := WonStatus;
      } else if SameAddress(loser, address) {
        status := LostStatus;
      }
      if status != before {
        effects := effects + [SetStatus(status)];
      }
    }

    /** `resolveBattle(battleId)` run to its end; `succeeded` says whether
        its transaction went through. */
    method Resolve(battleId: nat, succeeded: bool)
      requires Valid()
      modifies this
      ensures Valid() && selected == old(selected) && myCards == old(myCards)
      ensures status == ResolveStatus(succeeded)
      ensures effects == old(effects) + [Call(GetSigner), Call(ResolveBattle(battleId)), SetStatus(status)]
    {
      status := if succeeded then ResolvedOkStatus else ProcessingStatus;
      effects := effects + [Call(GetSigner), Call(ResolveBattle(battleId)), SetStatus(status)];
    }

    /** `checkPastEvents` over the ledger's `events` at block `currentBlock`,
        when no ledger read throws. */
    method CheckPastEvents(events: seq<LedgerEvent>, currentBlock: nat) returns (resumed: Option<nat>)
      requires Valid()
      modifies this
      ensures Valid() && selected == old(selected) && myCards == old(myCards)
      ensures effects == old(effects) + CheckPastEventsEffects(events, currentBlock, address)
      ensures status == StatusAfter(old(status), CheckPastEventsEffects(events, currentBlock, address))
      ensures resumed == ResumedBattle(events, currentBlock, address)
    {
      var start := ScanStart(currentBlock);
      var created := CreatedSince(events, start);
      CheckPastEventsStatus(events, currentBlock, address, status);
      var done;
      resumed, done := ScanCreated(created, events, start, address);
      effects := effects + ([Call(GetBlockNumber), Call(QueryCreated(start))] + done);
      if resumed.Some? {
        status := FoundStatus(resumed.value);
      }
    }
  }

  /** The battle the scan resumes, if any. */
  function ResumedBattle(events: seq<LedgerEvent>, currentBlock: nat, address: string): Option<nat> {
    var start := ScanStart(currentBlock);
    var created := CreatedSince(events, start);
    var p := FirstPending(created, events, start, address);
    if p.Some? then Some(created[p.value].battleId) else None
  }

  /** The scan's loop: walks the creation events in order and stops at the
      first one of the player's that has no resolution. */
  method ScanCreated(created: seq<LedgerEvent>, events: seq<LedgerEvent>, from: nat, address: string)
    returns (resumed: Option<nat>, done: seq<Effect>)
    requires forall e :: e in created ==> e.BattleCreated?
    ensures done == ScanEffects(created, events, from, address)
    ensures
      var p := FirstPending(created, events, from, address);
      resumed == if p.Some? then Some(created[p.value].battleId) else None
  {
    done := [];
    var i := 0;
    while i < |created|
      invariant 0 <= i <= |created|
      invariant forall e :: e in created[i..] ==> e.BattleCreated?
      invariant done + ScanEffects(created[i..], events, from, address) == ScanEffects(created, events, from, address)
      invariant NonePendingBefore(created, events, from, address, i)
    {
      var e := created[i];
      if Involves(address, e.p1, e.p2) {
        var query := [Call(QueryResolved(e.battleId, from))];
        if !ResolvedSince(events, e.battleId, from) {
          ScanResumeHere(created, events, from, address, i, done);
          done := done + (query + [SetStatus(FoundStatus(e.battleId)), Call(ResolveBattle(e.battleId))]);
          resumed := Some(e.battleId);
          FirstPendingAt(created, events, from, address, i);
          return;
        }
        ScanPassHere(created, events, from, address, i, done);
        done := done + query;
      } else {
        ScanPassHere(created, events, from, address, i, done);
        assert done + [] == done;
      }
      i := i + 1;
    }
    assert created[i..] == [];
    resumed := None;
  }

  /** A pending battle with none pending before it is the first pending one. */
  lemma FirstPendingAt(created: seq<LedgerEvent>, events: seq<LedgerEvent>, from: nat, address: string, i: nat)
    requires i < |created| && Pending(created[i], events, from, address)
    requires NonePendingBefore(created, events, from, address, i)
    ensures FirstPending(created, events, from, address) == Some(i)
  {
  }
}
