/** The read-only queries and the decision rules of the preliminary client:
    get_madness under Python 2 integer division, and the branch logic of
    action_two and action_other. */
module PreliminaryQueries {
  import opened Wire
  import opened Ledger
  import opened Cards
  import SemifinalQueries

  // ---------------------------------------------------------------------------
  // get_madness

  /** At least ten counted actions, and (all_in + raise + call) / total >= 0.95
      where both operands are integers: the floor quotient is 0 or more, so
      the test holds only when the quotient reaches 1. */
  predicate Mad(s: Stats)
  {
    s.total >= 10 && (s.allIn + s.raise + s.call) / s.total >= 1
  }

  function Madness(actions: map<int, Stats>): set<int>
  {
    set p | p in actions && Mad(actions[p])
  }

  /** The loop of get_madness over the counter dictionary. */
  method GetMadness(actions: map<int, Stats>) returns (mad: set<int>)
    ensures mad == Madness(actions)
  {
    mad := {};
    var rest := actions.Keys;
    while rest != {}
      invariant rest <= actions.Keys
      invariant mad == Madness(actions) - rest
      decreases |rest|
    {
      ghost var w := Member(rest);
      var k :| k in rest;
      var v := actions[k];
      if v.total >= 10 && (v.allIn + v.raise + v.call) / v.total >= 1 {
        mad := mad + {k};
      }
      rest := rest - {k};
    }
  }

  /** With counters that add up, a player is mad exactly when it has ten or
      more actions and has never folded or checked: the integer division
      turns the 0.95 threshold into 1. */
  lemma MadMeansNeverPassive(s: Stats)
    requires Consistent(s)
    ensures Mad(s) <==> s.total >= 10 && s.fold == 0 && s.check == 0
  {
    var aggressive := s.allIn + s.raise + s.call;
    if s.total >= 10 {
      if aggressive < s.total {
        assert aggressive / s.total == 0;
      } else {
        assert aggressive / s.total == 1;
      }
    }
  }

  /** Every player the preliminary test finds mad is mad under the semifinal
      client's true division too, not conversely: 19 aggressive actions and
      one check out of 20 pass only the latter. */
  lemma MadStricterThanTrueDivision(s: Stats)
    requires Consistent(s)
    ensures Mad(s) ==> SemifinalQueries.Mad(s)
    ensures var t := Stats(20, 0, 19, 0, 0, 1); Consistent(t) && SemifinalQueries.Mad(t) && !Mad(t)
  {
    MadMeansNeverPassive(s);
    var t := Stats(20, 0, 19, 0, 0, 1);
    MadMeansNeverPassive(t);
  }

  // ---------------------------------------------------------------------------
  // action_two

  /** action_two once the score and the seat are known. A strong hand (0.74
      and up) raises a tenth of the stack while the own bet is below half of
      money plus jetton, and otherwise checks; any other hand checks when the
      own bet already matches; against a table of mad enemies it calls from
      0.64, and from 0.61 when is_rich says so; otherwise it calls from 0.64
      while the call costs less than 0.8 of money plus jetton, and from 0.61
      while it costs less than half; everything else folds. `rich` is what
      is_rich would answer; it is consulted only on the branch that calls
      it. */
  function PreflopChoice(score: int, bet: int, outer: int, jetton: int, money: int, allMad: bool, rich: bool): (a: Action)
    ensures score >= 74 ==> (a.Raise? <==> 2 * bet < money + jetton) && (a.Raise? || a == Check)
    ensures a.Raise? ==> score >= 74 && a.amount == Tenth(jetton)
    ensures score < 74 && bet >= outer ==> a == Check
    ensures a == Call ==> 61 <= score < 74 && bet < outer
    ensures score < 61 && bet < outer ==> a == Fold
    ensures 64 <= score < 74 && bet < outer && allMad ==> a == Call
    ensures 61 <= score < 64 && bet < outer && allMad ==> (a == Call <==> rich) && (a == Call || a == Fold)
    ensures 64 <= score < 74 && bet < outer && !allMad ==>
      (a == Call <==> 5 * (outer - bet) < 4 * (jetton + money)) && (a == Call || a == Fold)
    ensures 61 <= score < 64 && bet < outer && !allMad ==>
      (a == Call <==> 2 * (outer - bet) < jetton + money) && (a == Call || a == Fold)
  {
    var callBet := outer - bet;
    if score >= 74 then
      if 2 * bet < money + jetton then Raise(Tenth(jetton)) else Check
    else if bet >= outer then Check
    else if allMad then
      if score >= 64 then Call
      else if score >= 61 && rich then Call
      else Fold
    else if score >= 64 then
      if 5 * callBet < 4 * (jetton + money) then Call else Fold
    else if score >= 61 then
      if 2 * callBet < jetton + money then Call else Fold
    else Fold
  }

  /** Below the raise line a better hand never answers with less: if a score
      calls, every higher score under 0.74 calls too (the stacks are not
      negative). */
  lemma CallsMonotone(score: int, score2: int, bet: int, outer: int, jetton: int, money: int, allMad: bool, rich: bool)
    requires score <= score2 < 74 && 0 <= jetton && 0 <= money
    ensures Rank(PreflopChoice(score, bet, outer, jetton, money, allMad, rich))
      <= Rank(PreflopChoice(score2, bet, outer, jetton, money, allMad, rich))
  {
  }

  /** Against a mad table a hand of 0.64 or more calls whenever it would call
      against a sane one. */
  lemma MadTableCallsMore(score: int, bet: int, outer: int, jetton: int, money: int, rich: bool)
    requires score >= 64
    requires PreflopChoice(score, bet, outer, jetton, money, false, rich) == Call
    ensures PreflopChoice(score, bet, outer, jetton, money, true, rich) == Call
  {
  }

  /** Off the branch that calls is_rich its answer does not matter. */
  lemma RichIdle(score: int, bet: int, outer: int, jetton: int, money: int, allMad: bool, rich: bool, rich2: bool)
    requires score >= 74 || bet >= outer || !allMad || score >= 64 || score < 61
    ensures PreflopChoice(score, bet, outer, jetton, money, allMad, rich)
      == PreflopChoice(score, bet, outer, jetton, money, allMad, rich2)
  {
  }

  /** What action_two decides for the player `me`: the pair table score of
      the hole cards, the own seat's bet and stack, whether every enemy is
      mad and whether the own stack is rich against them, with the exception
      the source raises first. */
  function Preflop(cards: seq<seq<string>>, seats: seq<Seat>, pos: map<int, nat>, me: int, outer: int,
                   actions: map<int, Stats>, enemy: set<int>): (r: Result<Action>)
    requires Indexes(seats, pos) && enemy <= pos.Keys
    ensures r.Err? <==> !Readable(cards) || me !in pos
    ensures !Readable(cards) ==> r == Err(BadCards)
    ensures Readable(cards) && me !in pos ==> r == Err(NotSeated(me))
    ensures r.Ok? ==> var own := seats[pos[me]];
      r.value == PreflopChoice(EvaluateTwo(cards).value, own.bet, outer, own.jetton, own.money,
        enemy <= Madness(actions), Rich(seats, pos, me, enemy))
  {
    match EvaluateTwo(cards)
    case Err(f) => Err(f)
    case Ok(score) =>
      if me !in pos then Err(NotSeated(me))
      else
        var own := seats[pos[me]];
        Ok(PreflopChoice(score, own.bet, outer, own.jetton, own.money, enemy <= Madness(actions),
          Rich(seats, pos, me, enemy)))
  }

  /** The body of action_two up to its send: the madness set is computed by
      its loop every time, is_rich by its loop only on the branch that
      consults it. */
  method PreflopDecide(cards: seq<seq<string>>, seats: seq<Seat>, pos: map<int, nat>, me: int, outer: int,
                       actions: map<int, Stats>, enemy: set<int>) returns (d: Result<Action>)
    requires Indexes(seats, pos) && enemy <= pos.Keys
    ensures d == Preflop(cards, seats, pos, me, outer, actions, enemy)
  {
    var score := EvaluateTwo(cards);
    if score.Err? {
      return Err(score.fault);
    }
    if me !in pos {
      return Err(NotSeated(me));
    }
    var own := seats[pos[me]];
    var mad := GetMadness(actions);
    var allMad := enemy <= mad;
    var rich := false;
    if score.value < 74 && own.bet < outer && allMad && score.value < 64 && score.value >= 61 {
      rich := IsRich(seats, pos, me, enemy);
    } else {
      RichIdle(score.value, own.bet, outer, own.jetton, own.money, allMad, rich, Rich(seats, pos, me, enemy));
    }
    d := Ok(PreflopChoice(score.value, own.bet, outer, own.jetton, own.money, allMad, rich));
  }

  // ---------------------------------------------------------------------------
  // action_other

  /** action_other once the evaluator has answered: check when the own bet
      already matches, raise a tenth of the stack from a score of 0.85, call
      from 0.7, fold otherwise. */
  function PostflopChoice(bet: int, outer: int, jetton: int, strength: real): (a: Action)
    ensures bet >= outer ==> a == Check
    ensures a.Raise? <==> bet < outer && strength >= 0.85
    ensures a.Raise? ==> a.amount == Tenth(jetton)
    ensures a == Call <==> bet < outer && 0.7 <= strength < 0.85
    ensures a == Fold <==> bet < outer && strength < 0.7
  {
    if bet >= outer then Check
    else if strength >= 0.85 then Raise(Tenth(jetton))
    else if strength >= 0.7 then Call
    else Fold
  }

  /** A stronger hand never gives a weaker postflop command. */
  lemma PostflopMonotone(bet: int, outer: int, jetton: int, s: real, s2: real)
    requires s <= s2
    ensures Rank(PostflopChoice(bet, outer, jetton, s)) <= Rank(PostflopChoice(bet, outer, jetton, s2))
  {
  }

  /** What action_other decides for the player `me`, given the evaluator:
      the card conversion raises before the seat lookup. */
  function Postflop(cards: seq<seq<string>>, flops: seq<seq<string>>, seats: seq<Seat>, pos: map<int, nat>, me: int,
                    outer: int, evaluate: (seq<seq<string>>, seq<seq<string>>) -> real): (r: Result<Action>)
    requires Indexes(seats, pos)
    ensures !(AllCards(cards) && AllCards(flops)) ==> r == Err(BadCards)
    ensures AllCards(cards) && AllCards(flops) && me !in pos ==> r == Err(NotSeated(me))
    ensures r.Ok? ==> var own := seats[pos[me]];
      r.value == PostflopChoice(own.bet, outer, own.jetton, evaluate(cards, flops))
  {
    if !(AllCards(cards) && AllCards(flops)) then Err(BadCards)
    else if me !in pos then Err(NotSeated(me))
    else
      var own := seats[pos[me]];
      Ok(PostflopChoice(own.bet, outer, own.jetton, evaluate(cards, flops)))
  }
}
