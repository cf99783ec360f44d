/** The quiz backend's reward endpoint (backend/server.js, `/quiz/submit`):
    a submission names a player address and lists answered questions; each
    answer that matches the expected one earns a pull, and each pull is a
    freshly generated card whose rarity is drawn first and whose stats are
    then drawn inside ranges set by that rarity.

    `Math.random` is a parameter: `rand(k)` is the k-th number it returns,
    each in [0,1). Generating a card draws six of them, in this order:
    rarity, attribute, animal name, attack, health, speed. */
module QuizServer {
  import opened Util

  /** One answered question; an answer that is absent is `None`. */
  datatype QuizResult = QuizResult(userAnswer: Option<string>, correctAnswer: Option<string>)

  /** A request body: the address and the results list, each absent when
      missing; a `results` that is not an array is `None`. */
  datatype Body = Body(address: Option<string>, results: Option<seq<QuizResult>>)

  datatype GeneratedCard = GeneratedCard(name: string, attack: int, health: int, speed: int, attribute: string, rarity: string)

  datatype Response =
    | BadRequest
    | Rewarded(pulls: nat, results: seq<GeneratedCard>)

  /** A string is truthy when present and not empty. */
  predicate Truthy(s: Option<string>) {
    s.Some? && s.value != ""
  }

  /** The request is rejected when the body, the address or the results
      array is missing, or the address is empty. */
  predicate WellFormed(body: Option<Body>) {
    body.Some? && Truthy(body.value.address) && body.value.results.Some?
  }

  /** An answer counts when both answers are given and are the same. */
  predicate IsCorrect(it: QuizResult) {
    Truthy(it.userAnswer) && Truthy(it.correctAnswer) && it.userAnswer == it.correctAnswer
  }

  /** How many answers count. */
  function CorrectCount(results: seq<QuizResult>): (n: nat)
    ensures n <= |results|
  {
    if results == [] then 0
    else CorrectCount(results[..|results| - 1]) + if IsCorrect(results[|results| - 1]) then 1 else 0
  }

  /** Every answer counts exactly when the count is the number of answers,
      and none counts exactly when it is zero. */
  lemma {:induction false} CorrectCountExtremes(results: seq<QuizResult>)
    ensures CorrectCount(results) == |results| <==> forall k :: 0 <= k < |results| ==> IsCorrect(results[k])
    ensures CorrectCount(results) == 0 <==> forall k :: 0 <= k < |results| ==> !IsCorrect(results[k])
    decreases |results|
  {
    if results != [] {
      var init := results[..|results| - 1];
      CorrectCountExtremes(init);
      assert forall k :: 0 <= k < |init| ==> init[k] == results[k];
    }
  }

  // ---------------------------------------------------------------------
  // Card generation

  /** `randRange(min, max)` given the number drawn. */
  function RandRange(min: int, max: int, r: real): int {
    (r * (max - min + 1) as real).Floor + min
  }

  /** A draw in [0,1) gives an integer between the bounds, both included. */
  lemma RandRangeBounds(min: int, max: int, r: real)
    requires min <= max && 0.0 <= r < 1.0
    ensures min <= RandRange(min, max, r) <= max
  {
    var width := (max - min + 1) as real;
    assert 0.0 <= r * width < width by {
      assert r * width < 1.0 * width;
    }
  }

  /** Every integer between the bounds is given by some draw. */
  lemma RandRangeOnto(min: int, max: int, v: int)
    requires min <= v <= max
    ensures
      var r := (v - min) as real / (max - min + 1) as real;
      0.0 <= r < 1.0 && RandRange(min, max, r) == v
  {
    var width := (max - min + 1) as real;
    var r := (v - min) as real / width;
    assert r * width == (v - min) as real;
  }

  /** The rarity drawn: below 0.01 Mythic, then Legendary below 0.05, Epic
      below 0.15, Rare below 0.40, and Common otherwise. */
  function PickRarity(r: real): string {
    if r < 0.01 then "Mythic"
    else if r < 0.05 then "Legendary"
    else if r < 0.15 then "Epic"
    else if r < 0.40 then "Rare"
    else "Common"
  }

  const Rarities: seq<string> := ["Common", "Rare", "Epic", "Legendary", "Mythic"]
  const AnimalNames: seq<string> := ["Fox", "Bear", "Otter", "Tiger", "Eagle", "Wolf", "Panda", "Lion", "Raven", "Boar"]
  const Attributes: seq<string> := ["Fire", "Water", "Earth", "Steel", "Nature"]

  /** The thresholds split [0,1) into five bands, one per rarity, with
      widths 1%, 4%, 10%, 25% and 60%. */
  lemma PickRarityBands(r: real)
    ensures PickRarity(r) in Rarities
    ensures PickRarity(r) == "Mythic" <==> r < 0.01
    ensures PickRarity(r) == "Legendary" <==> 0.01 <= r < 0.05
    ensures PickRarity(r) == "Epic" <==> 0.05 <= r < 0.15
    ensures PickRarity(r) == "Rare" <==> 0.15 <= r < 0.40
    ensures PickRarity(r) == "Common" <==> 0.40 <= r
  {
  }

  /** An inclusive range of a stat. */
  datatype Range = Range(lo: int, hi: int)

  datatype StatRanges = StatRanges(attack: Range, health: Range, speed: Range)

  /** The ranges each rarity's stats are drawn from. */
  function RangesFor(rarity: string): StatRanges {
    match rarity
    case "Rare" => StatRanges(Range(3, 6), Range(5, 9), Range(2, 6))
    case "Epic" => StatRanges(Range(6, 9), Range(8, 12), Range(4, 8))
    case "Legendary" => StatRanges(Range(9, 13), Range(12, 18), Range(6, 10))
    case "Mythic" => StatRanges(Range(12, 18), Range(16, 24), Range(8, 14))
    case _ => StatRanges(Range(1, 4), Range(3, 7), Range(1, 4))
  }

  /** Each rarer card's ranges start higher and end higher. */
  lemma RangesRiseWithRarity(i: nat, j: nat)
    requires i < j < |Rarities|
    ensures
      var a, b := RangesFor(Rarities[i]), RangesFor(Rarities[j]);
      && a.attack.lo < b.attack.lo && a.attack.hi < b.attack.hi
      && a.health.lo < b.health.lo && a.health.hi < b.health.hi
      && a.speed.lo < b.speed.lo && a.speed.hi < b.speed.hi
  {
  }

  /** The index a draw picks in a list of `n` names. */
  function PickIndex(r: real, n: nat): (i: int)
    requires Unit(r) && n > 0
    ensures 0 <= i < n
  {
    RandRangeBounds(0, n - 1, r);
    (r * n as real).Floor
  }

  predicate Unit(r: real) {
    0.0 <= r < 1.0
  }

  /** The card generated from the six draws starting at `at`. */
  function Generated(rand: nat -> real, at: nat): GeneratedCard
    requires forall k :: Unit(rand(k))
  {
    var rarity := PickRarity(rand(at));
    var ranges := RangesFor(rarity);
    GeneratedCard(
      AnimalNames[PickIndex(rand(at + 2), |AnimalNames|)] + " " + rarity,
      RandRange(ranges.attack.lo, ranges.attack.hi, rand(at + 3)),
      RandRange(ranges.health.lo, ranges.health.hi, rand(at + 4)),
      RandRange(ranges.speed.lo, ranges.speed.hi, rand(at + 5)),
      Attributes[PickIndex(rand(at + 1), |Attributes|)],
      rarity)
  }

  /** `generateCard`: the default ranges, overridden branch by branch. */
  method GenerateCard(rand: nat -> real, at: nat) returns (card: GeneratedCard)
    requires forall k :: Unit(rand(k))
    ensures card == Generated(rand, at)
    ensures WellFormedCard(card)
  {
    var rarity := PickRarity(rand(at));
    var attr := Attributes[PickIndex(rand(at + 1), |Attributes|)];
    var atkRange, hpRange, spdRange := Range(1, 4), Range(3, 7), Range(1, 4);
    if rarity == "Rare" { atkRange, hpRange, spdRange := Range(3, 6), Range(5, 9), Range(2, 6); }
    if rarity == "Epic" { atkRange, hpRange, spdRange := Range(6, 9), Range(8, 12), Range(4, 8); }
    if rarity == "Legendary" { atkRange, hpRange, spdRange := Range(9, 13), Range(12, 18), Range(6, 10); }
    if rarity == "Mythic" { atkRange, hpRange, spdRange := Range(12, 18), Range(16, 24), Range(8, 14); }
    card := GeneratedCard(
      AnimalNames[PickIndex(rand(at + 2), |AnimalNames|)] + " " + rarity,
      RandRange(atkRange.lo, atkRange.hi, rand(at + 3)),
      RandRange(hpRange.lo, hpRange.hi, rand(at + 4)),
      RandRange(spdRange.lo, spdRange.hi, rand(at + 5)),
      attr,
      rarity);
    GeneratedIsWellFormed(rand, at);
  }

  /** What every generated card satisfies: a listed rarity, a listed
      attribute, a name made of a listed animal and the rarity, and each
      stat inside its rarity's range. */
  predicate WellFormedCard(card: GeneratedCard) {
    var ranges := RangesFor(card.rarity);
    && card.rarity in Rarities
    && card.attribute in Attributes
    && (exists a :: a in AnimalNames && card.name == a + " " + card.rarity)
    && ranges.attack.lo <= card.attack <= ranges.attack.hi
    && ranges.health.lo <= card.health <= ranges.health.hi
    && ranges.speed.lo <= card.speed <= ranges.speed.hi
  }

  lemma GeneratedIsWellFormed(rand: nat -> real, at: nat)
    requires forall k :: Unit(rand(k))
    ensures WellFormedCard(Generated(rand, at))
  {
    var card := Generated(rand, at);
    var ranges := RangesFor(card.rarity);
    PickRarityBands(rand(at));
    assert Unit(rand(at + 3)) && Unit(rand(at + 4)) && Unit(rand(at + 5));
    RandRangeBounds(ranges.attack.lo, ranges.attack.hi, rand(at + 3));
    RandRangeBounds(ranges.health.lo, ranges.health.hi, rand(at + 4));
    RandRangeBounds(ranges.speed.lo, ranges.speed.hi, rand(at + 5));
    var animal := AnimalNames[PickIndex(rand(at + 2), |AnimalNames|)];
    assert animal in AnimalNames && card.name == animal + " " + card.rarity;
  }

  // ---------------------------------------------------------------------
  // The endpoint

  /** The scoring loop: one for each answer that counts. */
  method ScoreAnswers(results: seq<QuizResult>) returns (correct: nat)
    ensures correct == CorrectCount(results)
  {
    correct := 0;
    for i := 0 to |results|
      invariant correct == CorrectCount(results[..i])
    {
      assert results[..i + 1][..i] == results[..i];
      if IsCorrect(results[i]) {
        correct := correct + 1;
      }
    }
    assert results[..|results|] == results;
  }

  /** The pull loop: `pulls` cards, the k-th from the draws 6k to 6k+5. */
  method GeneratePulls(rand: nat -> real, pulls: nat) returns (cards: seq<GeneratedCard>)
    requires forall k :: Unit(rand(k))
    ensures |cards| == pulls
    ensures forall k :: 0 <= k < pulls ==> cards[k] == Generated(rand, 6 * k)
  {
    cards := [];
    for i := 0 to pulls
      invariant |cards| == i
      invariant forall k :: 0 <= k < i ==> cards[k] == Generated(rand, 6 * k)
    {
      var card := GenerateCard(rand, 6 * i);
      cards := cards + [card];
    }
  }

  /** `/quiz/submit`: a malformed request is refused; otherwise one pull
      per correct answer, the k-th card generated from the draws 6k to
      6k+5. */
  method Submit(body: Option<Body>, rand: nat -> real) returns (response: Response)
    requires forall k :: Unit(rand(k))
    ensures response.BadRequest? <==> !WellFormed(body)
    ensures response.Rewarded? ==>
      && response.pulls == CorrectCount(body.value.results.value)
      && |response.results| == response.pulls
      && forall k :: 0 <= k < response.pulls ==>
           response.results[k] == Generated(rand, 6 * k) && WellFormedCard(response.results[k])
  {
    if body.None? || !Truthy(body.value.address) || body.value.results.None? {
      return BadRequest;
    }
    var correct := ScoreAnswers(body.value.results.value);
    var pulls := correct;
    var pullsResults := GeneratePulls(rand, pulls);
    forall k | 0 <= k < pulls
      ensures WellFormedCard(pullsResults[k])
    {
      GeneratedIsWellFormed(rand, 6 * k);
    }
    return Rewarded(pulls, pullsResults);
  }
}
