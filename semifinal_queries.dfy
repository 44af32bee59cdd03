/** The read-only queries and the decision rules of the semifinal client:
    get_madness, check_chicken and check_chicken_strict, the preflop
    all-fold odds of action_two, and the branch logic of action_two and
    action_other. The queries are the source's accumulator loops, each proved
    against a specification function. */
module SemifinalQueries {
  import opened Wire
  import opened Ledger
  import opened Cards

  // ---------------------------------------------------------------------------
  // get_madness

  /** At least ten counted actions, and (all_in + raise + call) / total >= 0.95
      under true division. */
  predicate Mad(s: Stats)
  {
    s.total >= 10 && 20 * (s.allIn + s.raise + s.call) >= 19 * s.total
  }

  function Madness(actions: map<int, Stats>): set<int>
  {
    set p | p in actions && Mad(actions[p])
  }

  /** The loop of get_madness over the counter dictionary. */
  method GetMadness(actions: map<int, Stats>) returns (mad: set<int>)
    ensures mad == Madness(actions)
  {
    mad := {};
    var rest := actions.Keys;
    while rest != {}
      invariant rest <= actions.Keys
      invariant mad == Madness(actions) - rest
      decreases |rest|
    {
      ghost var w := Member(rest);
      var k :| k in rest;
      if actions[k].total >= 10 && 20 * (actions[k].allIn + actions[k].raise + actions[k].call) >= 19 * actions[k].total {
        mad := mad + {k};
      }
      rest := rest - {k};
    }
  }

  /** A player with ten or more actions of which more than one in twenty is
      passive (fold or check) is never mad. */
  lemma MadNeedsAggression(s: Stats)
    requires Consistent(s) && 20 * (s.fold + s.check) > s.total
    ensures !Mad(s)
  {
  }

  // ---------------------------------------------------------------------------
  // check_chicken and check_chicken_strict

  /** fold_count / round above 1 - 0.15 (preflop) or 1 - 0.2 (later) for
      check_chicken, above 1 - 0.08 or 1 - 0.15 for check_chicken_strict; the
      doubles 1 - 0.15, 1 - 0.2 and 1 - 0.08 are those of 0.85, 0.8 and 0.92. */
  predicate Timid(count: int, round: int, phase: nat, strict: bool)
  {
    if phase == 0 then (if strict then 25 * count > 23 * round else 20 * count > 17 * round)
    else (if strict then 20 * count > 17 * round else 5 * count > 4 * round)
  }

  /** The number of seats the loop looks at before it reaches the own seat. */
  function Cut(seats: seq<Seat>, me: int): (k: nat)
    ensures k <= |seats| && (k < |seats| ==> seats[k].pid == me)
    ensures forall i :: 0 <= i < k ==> seats[i].pid != me
    decreases |seats|
  {
    if seats == [] || seats[0].pid == me then 0 else 1 + Cut(seats[1..], me)
  }

  /** The seats before the own seat, from index i on: the first alive one
      raises IndexError when phase >= 4 (the fold count is summed over slots
      0..phase of a four-slot list); otherwise the first timid alive player
      answers true. All four slots are the same map, so the count of player p
      is (phase + 1) * folds[p]. */
  function Scan(seats: seq<Seat>, i: nat, me: int, alive: set<int>, folds: map<int, nat>, phase: nat, round: int, strict: bool): (r: Result<bool>)
    requires i <= Cut(seats, me) && alive <= folds.Keys
    ensures r.Err? <==> phase >= 4 && exists j :: i <= j < Cut(seats, me) && seats[j].pid in alive
    ensures r.Err? ==> r.fault == NoPhaseSlot(4)
    ensures r == Ok(true) <==> phase < 4 && exists j :: (i <= j < Cut(seats, me) && seats[j].pid in alive
      && Timid((phase + 1) * folds[seats[j].pid], round, phase, strict))
    decreases Cut(seats, me) - i
  {
    if i == Cut(seats, me) then Ok(false)
    else
      var p := seats[i].pid;
      if p !in alive then Scan(seats, i + 1, me, alive, folds, phase, round, strict)
      else if phase >= 4 then Err(NoPhaseSlot(4))
      else if Timid((phase + 1) * folds[p], round, phase, strict) then Ok(true)
      else Scan(seats, i + 1, me, alive, folds, phase, round, strict)
  }

  /** check_chicken (strict = false) and check_chicken_strict (strict = true):
      never before round 40; otherwise whether some alive player seated
      before the own seat folds too often, or IndexError. */
  function Chicken(seats: seq<Seat>, me: int, alive: set<int>, folds: map<int, nat>, phase: nat, round: int, strict: bool): (r: Result<bool>)
    requires alive <= folds.Keys
    ensures round < 40 ==> r == Ok(false)
    ensures r == Ok(true) ==> exists j :: 0 <= j < |seats| && seats[j].pid in alive && seats[j].pid != me
  {
    if round < 40 then Ok(false) else Scan(seats, 0, me, alive, folds, phase, round, strict)
  }

  /** The loops of check_chicken and check_chicken_strict: over the seats up
      to the own one, and for each alive player over the fold-count slots
      0..phase of the four-slot list. */
  method CheckChicken(seats: seq<Seat>, me: int, alive: set<int>, folds: map<int, nat>, phase: nat, round: int, strict: bool)
    returns (r: Result<bool>)
    requires alive <= folds.Keys
    ensures r == Chicken(seats, me, alive, folds, phase, round, strict)
  {
    if round < 40 {
      return Ok(false);
    }
    var k := 0;
    while k < |seats|
      invariant 0 <= k <= Cut(seats, me)
      invariant Chicken(seats, me, alive, folds, phase, round, strict) == Scan(seats, k, me, alive, folds, phase, round, strict)
      decreases |seats| - k
    {
      var pid := seats[k].pid;
      if pid == me {
        break;
      }
      if pid in alive {
        var count := 0;
        var i := 0;
        while i < phase + 1
          invariant 0 <= i <= phase + 1 && i <= 4
          invariant count == i * folds[pid]
        {
          if i >= 4 {
            return Err(NoPhaseSlot(i));
          }
          count := count + folds[pid];
          i := i + 1;
        }
        if Timid(count, round, phase, strict) {
          return Ok(true);
        }
      }
      k := k + 1;
    }
    return Ok(false);
  }

  /** The strict test is the stricter one: whenever it finds a timid player
      the ordinary test does too. */
  lemma StrictImpliesLoose(seats: seq<Seat>, me: int, alive: set<int>, folds: map<int, nat>, phase: nat, round: int)
    requires alive <= folds.Keys
    ensures Chicken(seats, me, alive, folds, phase, round, true) == Ok(true) ==>
      Chicken(seats, me, alive, folds, phase, round, false) == Ok(true)
  {
    if Chicken(seats, me, alive, folds, phase, round, true) == Ok(true) {
      var j :| 0 <= j < Cut(seats, me) && seats[j].pid in alive
        && Timid((phase + 1) * folds[seats[j].pid], round, phase, true);
      assert Timid((phase + 1) * folds[seats[j].pid], round, phase, false);
    }
  }

  // ---------------------------------------------------------------------------
  // The all-fold odds of action_two

  /** The counter a product ranges over: the preflop folds or the preflop
      totals. */
  function Factor(s: Stats, ofFolds: bool): nat
  {
    if ofFolds then s.fold else s.total
  }

  /** The product of one counter over a set of players, in any order. */
  ghost function Product(ps: set<int>, pre: map<int, Stats>, ofFolds: bool): nat
    requires ps <= pre.Keys
    decreases ps
  {
    if ps == {} then 1
    else
      var p := Pick(ps);
      Factor(pre[p], ofFolds) * Product(ps - {p}, pre, ofFolds)
  }

  /** Some member of a non-empty set. */
  ghost function Pick<T>(ps: set<T>): (p: T)
    requires ps != {}
    ensures p in ps
  {
    var p :| p in ps; p
  }

  lemma Swap(a: int, b: int, c: int)
    ensures a * (b * c) == b * (a * c)
  {
  }

  lemma MulLe(a: nat, b: nat, c: nat, d: nat)
    requires a <= b && c <= d
    ensures a * c <= b * d
  {
  }

  /** The product does not depend on which player is taken first. */
  lemma {:induction false} ProductRemove(ps: set<int>, pre: map<int, Stats>, ofFolds: bool, q: int)
    requires ps <= pre.Keys && q in ps
    ensures Product(ps, pre, ofFolds) == Factor(pre[q], ofFolds) * Product(ps - {q}, pre, ofFolds)
    decreases ps
  {
    var p :| p in ps && Product(ps, pre, ofFolds) == Factor(pre[p], ofFolds) * Product(ps - {p}, pre, ofFolds);
    if p != q {
      ProductRemove(ps - {p}, pre, ofFolds, q);
      ProductRemove(ps - {q}, pre, ofFolds, p);
      assert ps - {p} - {q} == ps - {q} - {p};
      Swap(Factor(pre[p], ofFolds), Factor(pre[q], ofFolds), Product(ps - {p} - {q}, pre, ofFolds));
    }
  }

  lemma MulPos(a: int, b: int)
    requires a > 0 && b > 0
    ensures a * b > 0
  {
  }

  /** Folds never exceed totals, so neither does their product. */
  lemma {:induction false} ProductLe(ps: set<int>, pre: map<int, Stats>)
    requires ps <= pre.Keys && AllBounded(pre)
    ensures Product(ps, pre, true) <= Product(ps, pre, false)
    decreases ps
  {
    if ps != {} {
      var p := Pick(ps);
      ProductLe(ps - {p}, pre);
      assert Bounded(pre[p]);
      MulLe(pre[p].fold, pre[p].total, Product(ps - {p}, pre, true), Product(ps - {p}, pre, false));
    }
  }

  /** A product of non-zero totals is non-zero. */
  lemma {:induction false} ProductPositive(ps: set<int>, pre: map<int, Stats>)
    requires ps <= pre.Keys && forall p :: p in ps ==> pre[p].total != 0
    ensures Product(ps, pre, false) > 0
    decreases ps
  {
    if ps != {} {
      var p := Pick(ps);
      ProductPositive(ps - {p}, pre);
      MulPos(pre[p].total, Product(ps - {p}, pre, false));
    }
  }

  /** Adding one player multiplies in its counters. */
  lemma ProductGrow(done: set<int>, pre: map<int, Stats>, p: int)
    requires done <= pre.Keys && p in pre && p !in done
    ensures Product(done + {p}, pre, true) == pre[p].fold * Product(done, pre, true)
    ensures Product(done + {p}, pre, false) == pre[p].total * Product(done, pre, false)
  {
    ProductRemove(done + {p}, pre, true, p);
    ProductRemove(done + {p}, pre, false, p);
    assert done + {p} - {p} == done;
  }

  /** p_all_flop as the fraction num / den of the other alive players'
      preflop fold rates: 0 / 1 when one of them has no samples, otherwise
      the product of their folds over the product of their totals (1 / 1 when
      nobody else is alive). */
  ghost function FoldOdds(alive: set<int>, me: int, pre: map<int, Stats>): (int, int)
    requires alive <= pre.Keys
  {
    if exists p :: p in alive && p != me && pre[p].total == 0 then (0, 1)
    else (Product(alive - {me}, pre, true), Product(alive - {me}, pre, false))
  }

  /** The odds are a probability: 0 <= num <= den and den > 0. */
  lemma OddsAreProbability(alive: set<int>, me: int, pre: map<int, Stats>)
    requires alive <= pre.Keys && AllBounded(pre)
    ensures var (num, den) := FoldOdds(alive, me, pre); 0 <= num <= den && den > 0
  {
    if !exists p :: p in alive && p != me && pre[p].total == 0 {
      ProductLe(alive - {me}, pre);
      ProductPositive(alive - {me}, pre);
    }
  }

  /** The loop of action_two over `alive`: skip the own pid, drop to 0 and
      stop at a player without samples, and multiply the fold rates. The
      fraction is kept exact as a numerator and a denominator. */
  method AllFoldOdds(alive: set<int>, me: int, pre: map<int, Stats>) returns (num: int, den: int)
    requires alive <= pre.Keys
    ensures (num, den) == FoldOdds(alive, me, pre)
  {
    num, den := 1, 1;
    var rest := alive;
    ghost var done: set<int> := {};
    while rest != {}
      invariant rest <= alive && done <= alive && me !in done && done !! rest
      invariant forall p :: p in alive && p != me ==> p in done || p in rest
      invariant forall p :: p in done ==> pre[p].total != 0
      invariant num == Product(done, pre, true) && den == Product(done, pre, false)
      decreases |rest|
    {
      ghost var w := Member(rest);
      var pid :| pid in rest;
      rest := rest - {pid};
      if pid == me {
        continue;
      }
      if pre[pid].total == 0 {
        return 0, 1;
      }
      ProductGrow(done, pre, pid);
      num, den := pre[pid].fold * num, pre[pid].total * den;
      done := done + {pid};
    }
    assert done == alive - {me} by {
      assert forall p :: p in alive - {me} ==> p in done;
    }
  }

  // ---------------------------------------------------------------------------
  // Decisions

  /** One command with the per-hand flags it leaves: the steal flag and the
      preflop call budget. */
  datatype Decision = Decision(act: Action, stolen: bool, budget: int)

  /** The steal test: no tight raiser seen, everybody else very likely to
      fold, and no steal yet this hand. */
  predicate Steals(tight: bool, odds: (int, int), stolen: bool)
  {
    !tight && 5 * odds.0 >= 4 * odds.1 && !stolen
  }

  /** The budget tier of a preflop score: 25 * 40, 10 * 40 or 5 * 40. */
  function Cap(score: int): int
  {
    if score >= 74 then 1000 else if score >= 61 then 400 else 200
  }

  /** action_two after the steal: check a free call; with a strong hand call
      within the 1000 budget; otherwise fold to a strict chicken, call within
      the 400 or 200 budget of a fair hand, and fold a weak one. `chicken` is
      the result check_chicken_strict would return; it is consulted (and its
      IndexError raised) only on the branch that calls it. */
  function PreflopChoice(score: int, callBet: int, tight: bool, odds: (int, int), stolen: bool, budget: int, chicken: Result<bool>)
    : (r: Result<Decision>)
    ensures Steals(tight, odds, stolen) ==> r == Ok(Decision(Raise(40), true, budget))
    ensures r.Ok? && r.value.act.Raise? ==> Steals(tight, odds, stolen) && r.value.act == Raise(40)
    ensures r.Ok? && !Steals(tight, odds, stolen) ==> r.value.stolen == stolen
    ensures r.Err? ==> !Steals(tight, odds, stolen) && callBet != 0 && score < 74 && chicken.Err? && r.fault == chicken.fault
    ensures !Steals(tight, odds, stolen) && callBet == 0 ==> r == Ok(Decision(Check, stolen, budget))
    ensures r.Ok? && r.value.act == Call ==> callBet != 0 && score >= 55 && r.value.budget == budget + callBet <= Cap(score)
    ensures r.Ok? && r.value.act != Call ==> r.value.budget == budget
    ensures r.Ok? && budget <= 1000 ==> r.value.budget <= 1000
    ensures !Steals(tight, odds, stolen) && callBet != 0 && score < 74 && chicken == Ok(true) ==> r == Ok(Decision(Fold, stolen, budget))
    ensures !Steals(tight, odds, stolen) && callBet != 0 && score < 55 && chicken.Ok? ==> r == Ok(Decision(Fold, stolen, budget))
    ensures !Steals(tight, odds, stolen) && callBet != 0 && score >= 55 && (score >= 74 || chicken == Ok(false)) ==>
      r == Ok(if budget + callBet <= Cap(score) then Decision(Call, stolen, budget + callBet) else Decision(Fold, stolen, budget))
  {
    if Steals(tight, odds, stolen) then Ok(Decision(Raise(40), true, budget))
    else if callBet == 0 then Ok(Decision(Check, stolen, budget))
    else if score >= 74 then
      if budget + callBet <= 25 * 40 then Ok(Decision(Call, stolen, budget + callBet))
      else Ok(Decision(Fold, stolen, budget))
    else if chicken.Err? then Err(chicken.fault)
    else if chicken.value then Ok(Decision(Fold, stolen, budget))
    else if score >= 61 then
      if budget + callBet <= 10 * 40 then Ok(Decision(Call, stolen, budget + callBet))
      else Ok(Decision(Fold, stolen, budget))
    else if score >= 55 then
      if budget + callBet <= 5 * 40 then Ok(Decision(Call, stolen, budget + callBet))
      else Ok(Decision(Fold, stolen, budget))
    else Ok(Decision(Fold, stolen, budget))
  }

  /** What action_two decides for the player `me`: the pair table score of
      the hole cards, the call cost against the highest bet, the all-fold
      odds and the strict chicken verdict fed to the preflop rules, with the
      exception the source raises first. */
  ghost function Preflop(cards: seq<seq<string>>, seats: seq<Seat>, pos: map<int, nat>, me: int, outer: int,
                         tight: bool, alive: set<int>, preFlop: map<int, Stats>, stolen: bool, budget: int,
                         folds: map<int, nat>, phase: nat, round: int): Result<Decision>
    requires Indexes(seats, pos) && alive <= preFlop.Keys && alive <= folds.Keys
  {
    match EvaluateTwo(cards)
    case Err(f) => Err(f)
    case Ok(score) =>
      if me !in pos then Err(NotSeated(me))
      else if cards[0][0] == [] || cards[1][0] == [] then Err(BadCards)
      else
        PreflopChoice(score, outer - seats[pos[me]].bet, tight, FoldOdds(alive, me, preFlop), stolen, budget,
          Chicken(seats, me, alive, folds, phase, round, true))
  }

  /** The body of action_two up to its send: the all-fold odds and the
      strict chicken test are computed by their loops, the latter only on
      the branch that consults it. */
  method PreflopDecide(cards: seq<seq<string>>, seats: seq<Seat>, pos: map<int, nat>, me: int, outer: int,
                       tight: bool, alive: set<int>, preFlop: map<int, Stats>, stolen: bool, budget: int,
                       folds: map<int, nat>, phase: nat, round: int) returns (d: Result<Decision>)
    requires Indexes(seats, pos) && alive <= preFlop.Keys && alive <= folds.Keys
    ensures d == Preflop(cards, seats, pos, me, outer, tight, alive, preFlop, stolen, budget, folds, phase, round)
  {
    var score := EvaluateTwo(cards);
    if score.Err? {
      return Err(score.fault);
    }
    if me !in pos {
      return Err(NotSeated(me));
    }
    var callBet := outer - seats[pos[me]].bet;
    // The hand_cards list of the source: the rank map has the same keys as
    // the table's, so only an empty suit word can still fail.
    if cards[0][0] == [] || cards[1][0] == [] {
      return Err(BadCards);
    }
    var num, den := AllFoldOdds(alive, me, preFlop);
    var chicken: Result<bool> := Ok(false);
    if !Steals(tight, (num, den), stolen) && callBet != 0 && score.value < 74 {
      chicken := CheckChicken(seats, me, alive, folds, phase, round, true);
    } else {
      ChickenIdle(score.value, callBet, tight, (num, den), stolen, budget, chicken,
        Chicken(seats, me, alive, folds, phase, round, true));
    }
    d := PreflopChoice(score.value, callBet, tight, (num, den), stolen, budget, chicken);
  }

  /** Off the branch that calls check_chicken_strict its verdict does not
      matter. */
  lemma ChickenIdle(score: int, callBet: int, tight: bool, odds: (int, int), stolen: bool, budget: int,
                    chicken: Result<bool>, chicken2: Result<bool>)
    requires Steals(tight, odds, stolen) || callBet == 0 || score >= 74
    ensures PreflopChoice(score, callBet, tight, odds, stolen, budget, chicken)
      == PreflopChoice(score, callBet, tight, odds, stolen, budget, chicken2)
  {
  }

  /** A second inquire in the same hand cannot steal again: once the steal
      flag is set, no preflop decision raises. */
  lemma StealOnce(score: int, callBet: int, tight: bool, odds: (int, int), budget: int, chicken: Result<bool>,
                  score2: int, callBet2: int, tight2: bool, odds2: (int, int), chicken2: Result<bool>)
    requires PreflopChoice(score, callBet, tight, odds, false, budget, chicken) == Ok(Decision(Raise(40), true, budget))
    ensures var r := PreflopChoice(score2, callBet2, tight2, odds2, true, budget, chicken2);
      r.Ok? ==> !r.value.act.Raise? && r.value.stolen
  {
  }

  /** A better hand never calls less: if a score calls, any higher score
      facing the same bet, budget and chicken verdict calls too. */
  lemma CallsMonotone(score: int, score2: int, callBet: int, tight: bool, odds: (int, int), stolen: bool, budget: int, chicken: Result<bool>)
    requires score <= score2
    requires PreflopChoice(score, callBet, tight, odds, stolen, budget, chicken).Ok?
    requires PreflopChoice(score, callBet, tight, odds, stolen, budget, chicken).value.act == Call
    ensures PreflopChoice(score2, callBet, tight, odds, stolen, budget, chicken) == Ok(Decision(Call, stolen, budget + callBet))
  {
  }

  /** action_other once the evaluators have answered: check when the own bet
      already matches, raise a tenth of the stack with a strong hand and
      equity of at least 0.9, call a fair hand, fold otherwise. `strength` is
      the HandEvaluator score and `evMilli` the Monte-Carlo equity in
      thousandths, int(ev) as the library reports it. */
  function PostflopChoice(bet: int, outer: int, jetton: int, strength: real, evMilli: int): (a: Action)
    ensures bet >= outer ==> a == Check
    ensures a.Raise? <==> bet < outer && strength >= 0.85 && evMilli >= 900
    ensures a.Raise? ==> a.amount == Tenth(jetton)
    ensures a == Call <==> bet < outer && strength >= 0.7 && !(strength >= 0.85 && evMilli >= 900)
    ensures a == Fold <==> bet < outer && strength < 0.7
  {
    if bet >= outer then Check
    else if strength >= 0.85 && evMilli >= 900 then Raise(Tenth(jetton))
    else if strength >= 0.7 then Call
    else Fold
  }

  /** A stronger hand and a higher equity never give a weaker postflop
      command. */
  lemma PostflopMonotone(bet: int, outer: int, jetton: int, s: real, s2: real, ev: int, ev2: int)
    requires s <= s2 && ev <= ev2
    ensures Rank(PostflopChoice(bet, outer, jetton, s, ev)) <= Rank(PostflopChoice(bet, outer, jetton, s2, ev2))
  {
  }
}
