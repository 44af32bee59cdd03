/** The preflop hand table and the two-card score (`evaluate_two`), which
    both versions of the client share, together with the card vocabulary the
    postflop evaluator conversions accept. */
module Cards {
  import opened Wire

  /** card_array in hundredths. Row and column are rank indices, A = 0 down
      to 2 = 12; the upper triangle holds suited hands, the lower triangle
      offsuit hands and the diagonal pairs. */
  const Table: seq<seq<int>> := [
    [85, 76, 66, 65, 65, 63, 62, 61, 60, 60, 59, 58, 57],
    [65, 82, 63, 63, 62, 60, 58, 58, 57, 56, 55, 54, 53],
    [64, 61, 80, 60, 59, 58, 56, 54, 54, 53, 52, 51, 50],
    [64, 61, 58, 77, 58, 56, 54, 52, 51, 50, 49, 48, 47],
    [63, 59, 57, 55, 75, 54, 52, 51, 49, 47, 47, 46, 45],
    [61, 58, 55, 53, 52, 72, 51, 49, 47, 46, 44, 43, 42],
    [60, 56, 54, 51, 50, 48, 69, 48, 46, 45, 43, 41, 40],
    [59, 55, 52, 50, 48, 46, 45, 66, 45, 44, 42, 40, 38],
    [58, 54, 51, 48, 46, 44, 43, 42, 63, 43, 41, 40, 38],
    [58, 53, 50, 47, 44, 43, 41, 41, 40, 60, 41, 40, 38],
    [57, 52, 49, 46, 44, 41, 39, 39, 38, 38, 57, 39, 37],
    [56, 51, 48, 45, 43, 40, 37, 37, 36, 36, 35, 54, 36],
    [55, 51, 47, 44, 42, 39, 37, 35, 34, 34, 33, 32, 50]]

  /** card_array_map: the rank index of each point name. */
  const RankIndex: map<string, int> := map[
    "A" := 0, "K" := 1, "Q" := 2, "J" := 3, "10" := 4, "9" := 5, "8" := 6,
    "7" := 7, "6" := 8, "5" := 9, "4" := 10, "3" := 11, "2" := 12]

  /** colors: the suit names the evaluator conversion accepts. */
  const Colors: map<string, int> := map["SPADES" := 1, "HEARTS" := 2, "CLUBS" := 3, "DIAMONDS" := 4]

  /** points: the point names the evaluator conversion accepts. */
  const Points: map<string, int> := map[
    "2" := 2, "3" := 3, "4" := 4, "5" := 5, "6" := 6, "7" := 7, "8" := 8,
    "9" := 9, "10" := 10, "J" := 11, "Q" := 12, "K" := 13, "A" := 14]

  /** A card tuple `(colour, point)` that `for c, p in ...` unpacks and both
      conversion tables know. */
  predicate IsCard(t: seq<string>)
  {
    |t| == 2 && t[0] in Colors && t[1] in Points
  }

  predicate AllCards(ts: seq<seq<string>>)
  {
    forall i :: 0 <= i < |ts| ==> IsCard(ts[i])
  }

  /** The hole cards `evaluate_two` can read: two tuples of at least two
      words whose second word is a rank name. */
  predicate Readable(cards: seq<seq<string>>)
  {
    |cards| >= 2 && |cards[0]| >= 2 && |cards[1]| >= 2
    && cards[0][1] in RankIndex && cards[1][1] in RankIndex
  }

  lemma RankIndexRange(p: string)
    requires p in RankIndex
    ensures 0 <= RankIndex[p] < 13
  {
  }

  /** evaluate_two: look up both ranks, put the larger index first, and swap
      back when the suits are equal. */
  function EvaluateTwo(cards: seq<seq<string>>): (r: Result<int>)
    ensures r.Ok? <==> Readable(cards)
    ensures r.Ok? ==>
      var x, y := RankIndex[cards[0][1]], RankIndex[cards[1][1]];
      var lo, hi := if x < y then x else y, if x < y then y else x;
      0 <= lo <= hi < 13
      && r.value == (if cards[0][0] == cards[1][0] then Table[lo][hi] else Table[hi][lo])
  {
    if !Readable(cards) then Err(BadCards)
    else
      RankIndexRange(cards[0][1]);
      RankIndexRange(cards[1][1]);
      var cx, cy := RankIndex[cards[0][1]], RankIndex[cards[1][1]];
      var (cx, cy) := if cx < cy then (cy, cx) else (cx, cy);
      var (cx, cy) := if cards[0][0] == cards[1][0] then (cy, cx) else (cx, cy);
      Ok(Table[cx][cy])
  }

  /** Every entry of the table lies between 0.32 and 0.85. */
  lemma TableBounds(i: int, j: int)
    requires 0 <= i < 13 && 0 <= j < 13
    ensures 32 <= Table[i][j] <= 85
  {
  }

  /** Above the diagonal (suited) no entry is below its mirror (offsuit). */
  lemma UpperDominates(i: int, j: int)
    requires 0 <= i < j < 13
    ensures Table[i][j] >= Table[j][i]
  {
  }

  /** The order of the two hole cards does not matter. */
  lemma EvaluateTwoSymmetric(a: seq<string>, b: seq<string>, rest: seq<seq<string>>)
    ensures EvaluateTwo([a, b] + rest) == EvaluateTwo([b, a] + rest)
  {
    var ab, ba := [a, b] + rest, [b, a] + rest;
    assert ab[0] == a && ab[1] == b && ba[0] == b && ba[1] == a;
  }

  /** The same two ranks score at least as much suited as offsuit, and both
      scores lie between 0.32 and 0.85. */
  lemma SuitedNoWorse(s: string, t: string, p: string, q: string)
    requires p in RankIndex && q in RankIndex && s != t
    ensures var suited, offsuit := EvaluateTwo([[s, p], [s, q]]), EvaluateTwo([[s, p], [t, q]]);
      suited.Ok? && offsuit.Ok? && suited.value >= offsuit.value
      && 32 <= offsuit.value && suited.value <= 85
  {
    RankIndexRange(p);
    RankIndexRange(q);
    var x, y := RankIndex[p], RankIndex[q];
    var lo, hi := if x < y then x else y, if x < y then y else x;
    TableBounds(lo, hi);
    TableBounds(hi, lo);
    if lo < hi {
      UpperDominates(lo, hi);
    }
  }

  /** A pair of aces of different suits reads the top-left entry, 0.85, the
      best score of the table. */
  lemma PocketAces()
    ensures EvaluateTwo([["SPADES", "A"], ["HEARTS", "A"]]) == Ok(85)
  {
    var cards := [["SPADES", "A"], ["HEARTS", "A"]];
    assert cards[0][1] == "A" && cards[1][1] == "A" && RankIndex["A"] == 0;
    assert cards[0][0] != cards[1][0] by { assert cards[0][0][0] != cards[1][0][0]; }
  }
}
