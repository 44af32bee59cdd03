/** The semifinal client: one Player object that keeps the table state the
    server's messages describe and answers every inquire with one command.
    Each handler first works out, without changing anything, whether the
    message would make the source raise an exception (and which one comes
    first), and then applies the message the way the source's loop does. */
module Semifinal {
  import opened Wire
  import opened Ledger
  import opened Cards
  import opened Framer
  import opened SemifinalQueries
  import opened SemifinalLines

  const Name: string := "paji"

  /** The registration line sent once the connection is up. */
  function Register(pid: int): string
  {
    "reg: " + Show(pid) + " " + Name + " need_notify \n"
  }

  /** The two evaluators the client calls into: HandEvaluator.evaluate_hand
      on the hole and board cards, and pokereval's Monte-Carlo equity of the
      hole cards against `opponents` unknown hands, as the integer the library
      reports (thousandths). */
  datatype Oracle = Oracle(
    strength: (seq<seq<string>>, seq<seq<string>>) -> real,
    equity: (seq<seq<string>>, seq<seq<string>>, int) -> int)

  /** What action_other decides on a table state, given the evaluators: the
      card conversion raises first, then the own seat lookup; the per-hand
      flags pass through unchanged. */
  function Postflop(cards: seq<seq<string>>, flops: seq<seq<string>>, seats: seq<Seat>, pos: map<int, nat>, me: int,
                    outer: int, alive: set<int>, stolen: bool, budget: int, oracle: Oracle): Result<Decision>
    requires Indexes(seats, pos)
  {
    if !(|cards| >= 2 && AllCards(cards) && AllCards(flops)) then Err(BadCards)
    else if me !in pos then Err(NotSeated(me))
    else
      var own := seats[pos[me]];
      Ok(Decision(PostflopChoice(own.bet, outer, own.jetton, oracle.strength(cards, flops),
        oracle.equity(cards, flops, |alive| - 1)), stolen, budget))
  }

  /** What action() decides on a table state: action_two's rules before the
      flop, action_other's after it. */
  ghost function Answer(cards: seq<seq<string>>, flops: seq<seq<string>>, seats: seq<Seat>, pos: map<int, nat>,
                        me: int, outer: int, tight: bool, alive: set<int>, preFlop: map<int, Stats>, stolen: bool,
                        budget: int, folds: map<int, nat>, phase: nat, round: int, oracle: Oracle): Result<Decision>
    requires Indexes(seats, pos) && alive <= preFlop.Keys && alive <= folds.Keys
  {
    if flops == [] then Preflop(cards, seats, pos, me, outer, tight, alive, preFlop, stolen, budget, folds, phase, round)
    else Postflop(cards, flops, seats, pos, me, outer, alive, stolen, budget, oracle)
  }

  // ---------------------------------------------------------------------------
  // The player

  class Player {
    const pid: int
    var outerBet: int
    var pot: int
    var cards: seq<seq<string>>
    var flops: seq<seq<string>>
    var seats: seq<Seat>
    var pos: map<int, nat>
    var actions: map<int, Stats>
    var enemy: set<int>
    var alive: set<int>
    var preFlop: map<int, Stats>
    var round: nat
    var phase: nat
    /** The four entries of fold_actions are one shared dictionary. */
    var folds: map<int, nat>
    var tight: bool
    var stolen: bool
    /** pre_flop_total_call: what this hand's preflop calls have cost. */
    var budget: int
    /** Every command written to the socket, in order. */
    var sent: seq<string>

    /** The bookkeeping is Kept, and the preflop calls stay within 25 big
        blinds. */
    ghost predicate Valid()
      reads this
    {
      Kept(seats, pos, actions, preFlop, folds, alive) && budget <= 1000
    }

    constructor (id: int)
      ensures Valid() && pid == id
      ensures outerBet == 0 && pot == 0 && cards == [] && flops == [] && seats == [] && pos == map[]
      ensures actions == map[] && enemy == {} && alive == {} && preFlop == map[] && round == 0 && phase == 0
      ensures folds == map[] && !tight && !stolen && budget == 0 && sent == []
    {
      pid := id;
      outerBet, pot := 0, 0;
      cards, flops, seats, pos := [], [], [], map[];
      actions, enemy, alive, preFlop := map[], {}, {}, map[];
      round, phase, folds := 0, 0, map[];
      tight, stolen, budget := false, false, 0;
      sent := [];
    }

    /** send: the command reaches the socket (retries are left out). */
    method Send(text: string)
      modifies this`sent
      ensures sent == old(sent) + [text]
    {
      sent := sent + [text];
    }

    // -------------------------------------------------------------------------
    // Handlers

    /** handle_seat: the message is parsed line by line; the first line that
        does not parse, or the missing fold slot, raises before the state
        changes (see Seat for what the lines do). */
    method HandleSeat(msg: seq<string>) returns (o: Outcome)
      requires Valid()
      modifies this`seats, this`pos, this`actions, this`preFlop, this`folds, this`alive, this`round
      ensures Valid()
      ensures var r := SeatLines(Each(ParseSeat, msg), old(phase));
        && (r.Err? ==> o == Fail(r.fault) && unchanged(this))
        && (r.Ok? ==> var ls := r.value;
              && o == Pass && seats == old(seats) + Sits(ls) && pos == Place(old(pos), |old(seats)|, ls)
              && actions == Enrol(old(actions), ls, Fresh) && preFlop == Enrol(old(preFlop), ls, Fresh)
              && folds == Enrol(old(folds), ls, 0) && alive == Pids(ls) && round == old(round) + 1)
    {
      var parsed := SeatLines(Each(ParseSeat, msg), phase);
      if parsed.Err? {
        return Fail(parsed.fault);
      }
      Seat(parsed.value);
      return Pass;
    }

    /** The seat lines of a new hand: the seats are appended (the list itself
        is emptied only by clear), each player pointed at its new seat and
        given counters and a fold entry if it has none; the seated players are
        the alive ones, and the round counter advances. */
    method Seat(ls: seq<SeatLine>)
      requires Valid()
      modifies this`seats, this`pos, this`actions, this`preFlop, this`folds, this`alive, this`round
      ensures Valid()
      ensures seats == old(seats) + Sits(ls) && pos == Place(old(pos), |old(seats)|, ls)
      ensures actions == Enrol(old(actions), ls, Fresh) && preFlop == Enrol(old(preFlop), ls, Fresh)
      ensures folds == Enrol(old(folds), ls, 0) && alive == Pids(ls) && round == old(round) + 1
    {
      var st, ps, ac, pf, fo, al := SeatLoop(ls, seats, pos, actions, preFlop, folds);
      SeatKeeps(seats, pos, actions, preFlop, folds, alive, ls, st, ps, ac, pf, fo, al);
      seats, pos, actions, preFlop, folds, alive, round := st, ps, ac, pf, fo, al, round + 1;
    }

    /** handle_blind: every line must parse and name a seated player before
        the state changes (see Blind). */
    method HandleBlind(msg: seq<string>) returns (o: Outcome)
      requires Valid()
      modifies this`seats
      ensures Valid()
      ensures var r := SeatedLines(Each(ParseBlind, msg), pos, BlindPid);
        && (r.Err? ==> o == Fail(r.fault) && seats == old(seats))
        && (r.Ok? ==> o == Pass && seats == Blinds(old(seats), pos, r.value))
    {
      var parsed := SeatedLines(Each(ParseBlind, msg), pos, BlindPid);
      if parsed.Err? {
        return Fail(parsed.fault);
      }
      Blind(parsed.value);
      return Pass;
    }

    /** The blind lines: each sets its player's bet and takes it from the
        player's stack. */
    method Blind(bs: seq<BlindLine>)
      requires Valid() && forall j :: 0 <= j < |bs| ==> bs[j].pid in pos
      modifies this`seats
      ensures Valid() && seats == Blinds(old(seats), pos, bs)
    {
      seats := BlindLoop(bs, seats, pos);
      SamePlayersIndex(old(seats), seats, pos);
    }

    /** handle_hold: the hole cards, one per line. */
    method HandleHold(msg: seq<string>)
      modifies this`cards
      ensures cards == old(cards) + Each(ParseCard, msg)
    {
      var i := 0;
      while i < |msg|
        invariant 0 <= i <= |msg|
        invariant cards == old(cards) + Each(ParseCard, msg[..i])
      {
        Prefix(msg, i);
        Assoc(old(cards), Each(ParseCard, msg[..i]), [ParseCard(msg[i])]);
        cards := cards + [ParseCard(msg[i])];
        i := i + 1;
      }
      assert msg[..|msg|] == msg;
    }

    /** handle_flop: the board cards, one per line; the phase advances. */
    method HandleFlop(msg: seq<string>)
      modifies this`flops, this`phase
      ensures flops == old(flops) + Each(ParseCard, msg) && phase == old(phase) + 1
    {
      var i := 0;
      while i < |msg|
        invariant 0 <= i <= |msg|
        invariant flops == old(flops) + Each(ParseCard, msg[..i]) && phase == old(phase)
      {
        Prefix(msg, i);
        Assoc(old(flops), Each(ParseCard, msg[..i]), [ParseCard(msg[i])]);
        flops := flops + [ParseCard(msg[i])];
        i := i + 1;
      }
      assert msg[..|msg|] == msg;
      phase := phase + 1;
    }

    /** handle_turn and handle_river (the same code): the first line is one
        more board card (IndexError on an empty message); the phase
        advances. */
    method HandleStreet(msg: seq<string>) returns (o: Outcome)
      modifies this`flops, this`phase
      ensures msg == [] ==> o == Fail(MissingLine) && flops == old(flops) && phase == old(phase)
      ensures msg != [] ==> o == Pass && flops == old(flops) + [ParseCard(msg[0])] && phase == old(phase) + 1
    {
      if msg == [] {
        return Fail(MissingLine);
      }
      flops := flops + [ParseCard(msg[0])];
      phase := phase + 1;
      return Pass;
    }

    /** clear (handle_pot_win): the hand is over. The counters, the enemy
        set and the round counter survive. */
    method Clear()
      requires Valid()
      modifies this`cards, this`flops, this`seats, this`pos, this`pot, this`outerBet
      modifies this`tight, this`stolen, this`budget, this`alive, this`phase
      ensures Valid()
      ensures cards == [] && flops == [] && seats == [] && pos == map[] && pot == 0 && outerBet == 0
      ensures !tight && !stolen && budget == 0 && alive == {} && phase == 0
    {
      ClearKeeps(seats, pos, actions, preFlop, folds, alive);
      cards, flops, seats, pos, pot, outerBet, tight, stolen, budget, alive, phase :=
        [], [], [], map[], 0, 0, false, false, 0, {}, 0;
    }

    /** The status lines of one inquire absorbed in order: each writes its
        player's seat and lifts the highest bet; a recognised action is
        counted, and counted preflop too while the board is empty; a tight
        player's raise in phase 0 is noted; a fold takes an alive player out
        and counts in the fold list; an aggressive action makes its player an
        enemy. The enemy set starts afresh, and the pot becomes the total
        the body's last line names. */
    method Absorb(ss: seq<StatusLine>, total: int)
      requires Valid() && forall i :: 0 <= i < |ss| ==> ss[i].pid in pos
      modifies this`seats, this`outerBet, this`actions, this`preFlop, this`tight, this`alive, this`folds, this`enemy
      modifies this`pot
      ensures Valid() && pot == total
      ensures seats == Posted(old(seats), old(pos), ss) && outerBet == MaxBet(old(outerBet), ss)
      ensures actions == Tally(old(actions), ss) && preFlop == PreAfter(old(preFlop), ss, old(flops) == [])
      ensures tight == (old(tight) || TightSeen(old(preFlop), ss, old(flops) == [], old(phase), pid))
      ensures alive == old(alive) - Folders(ss) && folds == FoldBumps(old(folds), old(alive), ss)
      ensures enemy == Aggressors(ss)
    {
      var st, ob, ac, pf, ti, al, fo, en :=
        InquireLoop(ss, pid, phase, flops == [], seats, pos, outerBet, actions, preFlop, tight, alive, folds);
      seats, outerBet, actions, preFlop, tight, alive, folds, enemy, pot := st, ob, ac, pf, ti, al, fo, en, total;
    }

    /** handle_inquire: absorb the status lines, read the pot, and answer.
        Nothing is changed, and nothing sent, when the message itself
        raises. */
    method HandleInquire(msg: seq<string>, oracle: Oracle) returns (o: Outcome)
      requires Valid()
      modifies this`seats, this`outerBet, this`actions, this`preFlop, this`tight, this`alive, this`folds, this`enemy
      modifies this`pot, this`stolen, this`budget, this`sent
      ensures Valid()
      ensures var b := InquireBody(msg, old(pos), old(alive), old(phase));
        && (b.Err? ==> o == Fail(b.fault) && unchanged(this))
        && (b.Ok? ==> var ss := b.value.0;
              && pot == b.value.1
              && seats == Posted(old(seats), old(pos), ss) && outerBet == MaxBet(old(outerBet), ss)
              && actions == Tally(old(actions), ss) && preFlop == PreAfter(old(preFlop), ss, old(flops) == [])
              && tight == (old(tight) || TightSeen(old(preFlop), ss, old(flops) == [], old(phase), pid))
              && alive == old(alive) - Folders(ss) && folds == FoldBumps(old(folds), old(alive), ss)
              && enemy == Aggressors(ss))
      ensures InquireBody(msg, old(pos), old(alive), old(phase)).Ok? ==>
        Answered(o, oracle, old(stolen), old(budget), old(sent))
      ensures o.Pass? ==> |sent| == |old(sent)| + 1 && sent[..|old(sent)|] == old(sent)
      ensures o.Fail? ==> sent == old(sent)
    {
      var body := InquireBody(msg, pos, alive, phase);
      if body.Err? {
        return Fail(body.fault);
      }
      o := Respond(body.value.0, body.value.1, oracle);
    }

    /** The part of handle_inquire after the message has parsed: absorb the
        status lines, store the pot and answer. */
    method Respond(ss: seq<StatusLine>, total: int, oracle: Oracle) returns (o: Outcome)
      requires Valid() && forall i :: 0 <= i < |ss| ==> ss[i].pid in pos
      modifies this`seats, this`outerBet, this`actions, this`preFlop, this`tight, this`alive, this`folds, this`enemy
      modifies this`pot, this`stolen, this`budget, this`sent
      ensures Valid() && pot == total
      ensures seats == Posted(old(seats), old(pos), ss) && outerBet == MaxBet(old(outerBet), ss)
      ensures actions == Tally(old(actions), ss) && preFlop == PreAfter(old(preFlop), ss, old(flops) == [])
      ensures tight == (old(tight) || TightSeen(old(preFlop), ss, old(flops) == [], old(phase), pid))
      ensures alive == old(alive) - Folders(ss) && folds == FoldBumps(old(folds), old(alive), ss)
      ensures enemy == Aggressors(ss)
      ensures Answered(o, oracle, old(stolen), old(budget), old(sent))
      ensures o.Pass? ==> |sent| == |old(sent)| + 1 && sent[..|old(sent)|] == old(sent)
      ensures o.Fail? ==> sent == old(sent)
    {
      Absorb(ss, total);
      ghost var seats1, outer1, actions1, preFlop1, tight1 := seats, outerBet, actions, preFlop, tight;
      ghost var alive1, folds1, enemy1 := alive, folds, enemy;
      o := Act(oracle);
      assert seats == seats1 && outerBet == outer1 && actions == actions1 && preFlop == preFlop1 && tight == tight1;
      assert alive == alive1 && folds == folds1 && enemy == enemy1;
    }

    /** handle_notify: the status lines (all but the last line) must parse
        and have counters to bump before the state changes (see Notice). */
    method HandleNotify(msg: seq<string>) returns (o: Outcome)
      requires Valid()
      modifies this`actions, this`preFlop, this`alive, this`folds
      ensures Valid()
      ensures var r := NotifyLines(Each(ParseStatus, NotifyLinesOf(msg)), old(actions), old(preFlop), old(flops) == [], old(alive), old(phase));
        && (r.Err? ==> o == Fail(r.fault) && unchanged(this))
        && (r.Ok? ==> var ss := r.value;
              && o == Pass && actions == Tally(old(actions), ss)
              && (old(flops) == [] ==> Keyed(ss) && preFlop == Noted(old(preFlop), ss))
              && (old(flops) != [] ==> preFlop == old(preFlop))
              && alive == old(alive) - Folders(ss) && folds == FoldBumps(old(folds), old(alive), ss))
    {
      var parsed := NotifyLines(Each(ParseStatus, NotifyLinesOf(msg)), actions, preFlop, flops == [], alive, phase);
      if parsed.Err? {
        return Fail(parsed.fault);
      }
      Notice(parsed.value);
      return Pass;
    }

    /** The status lines of one notify: counted like inquire's, except that
        before the flop every line is counted preflop whatever its action; a
        fold takes an alive player out and counts in the fold list. Seats,
        bets and enemies are left alone. */
    method Notice(ss: seq<StatusLine>)
      requires Valid() && forall j :: 0 <= j < |ss| ==> !Uncounted(ss[j], actions, preFlop, flops == [])
      modifies this`actions, this`preFlop, this`alive, this`folds
      ensures Valid()
      ensures actions == Tally(old(actions), ss)
      ensures old(flops) == [] ==> Keyed(ss) && preFlop == Noted(old(preFlop), ss)
      ensures old(flops) != [] ==> preFlop == old(preFlop)
      ensures alive == old(alive) - Folders(ss) && folds == FoldBumps(old(folds), old(alive), ss)
    {
      var ac, pf, al, fo := NotifyLoop(ss, flops == [], actions, preFlop, alive, folds);
      NoticeKeeps(seats, pos, actions, preFlop, folds, alive, ss, flops == [], ac, pf, fo, al);
      actions, preFlop, alive, folds := ac, pf, al, fo;
    }

    // -------------------------------------------------------------------------
    // Decisions

    /** What action_two decides in the current state, with the exception it
        raises ahead of any send. */
    ghost function PreflopPlan(): Result<Decision>
      reads this
      requires Valid()
    {
      Preflop(cards, seats, pos, pid, outerBet, tight, alive, preFlop, stolen, budget, folds, phase, round)
    }

    /** What action_other decides in the current state, given the
        evaluators. */
    ghost function PostflopPlan(oracle: Oracle): Result<Decision>
      reads this
      requires Valid()
    {
      Postflop(cards, flops, seats, pos, pid, outerBet, alive, stolen, budget, oracle)
    }

    /** What action() decides: action_two before the flop, action_other
        after it. */
    ghost function Choice(oracle: Oracle): Result<Decision>
      reads this
      requires Valid()
    {
      Answer(cards, flops, seats, pos, pid, outerBet, tight, alive, preFlop, stolen, budget, folds, phase, round, oracle)
    }

    /** One inquire has been answered from a state whose steal flag, budget
        and sent commands were stolen0, budget0 and sent0 (and whose other
        fields are the current ones): on an exception nothing is sent and the
        flags are kept; otherwise the decided command is sent and the flags
        follow the decision. */
    ghost predicate Answered(o: Outcome, oracle: Oracle, stolen0: bool, budget0: int, sent0: seq<string>)
      reads this
      requires Valid()
    {
      var d := Answer(cards, flops, seats, pos, pid, outerBet, tight, alive, preFlop, stolen0, budget0, folds, phase,
        round, oracle);
      && (d.Err? ==> o == Fail(d.fault) && sent == sent0 && stolen == stolen0 && budget == budget0)
      && (d.Ok? ==> (o == Pass && sent == sent0 + [Command(d.value.act)]
                     && stolen == d.value.stolen && budget == d.value.budget))
    }

    /** action: answer the inquire with the command Choice names; the steal
        flag and the preflop budget follow it. Nothing changes before an
        exception. */
    method Act(oracle: Oracle) returns (o: Outcome)
      requires Valid()
      modifies this`stolen, this`budget, this`sent
      ensures Valid()
      ensures old(Choice(oracle)).Err? ==> o == Fail(old(Choice(oracle)).fault) && unchanged(this)
      ensures old(Choice(oracle)).Ok? ==> var d := old(Choice(oracle)).value;
        o == Pass && sent == old(sent) + [Command(d.act)] && stolen == d.stolen && budget == d.budget
      ensures Answered(o, oracle, old(stolen), old(budget), old(sent))
      ensures o.Fail? ==> sent == old(sent)
      ensures o.Pass? ==> |sent| == |old(sent)| + 1 && sent[..|old(sent)|] == old(sent)
    {
      if flops == [] {
        o := ActionTwo();
      } else {
        o := ActionOther(oracle);
      }
    }

    /** action_two: the preflop rules on the pair table score, with the
        all-fold odds and the strict chicken test computed by their loops. */
    method ActionTwo() returns (o: Outcome)
      requires Valid() && flops == []
      modifies this`stolen, this`budget, this`sent
      ensures Valid()
      ensures old(PreflopPlan()).Err? ==> o == Fail(old(PreflopPlan()).fault) && unchanged(this)
      ensures old(PreflopPlan()).Ok? ==> var d := old(PreflopPlan()).value;
        o == Pass && sent == old(sent) + [Command(d.act)] && stolen == d.stolen && budget == d.budget
      ensures o.Fail? ==> sent == old(sent)
      ensures o.Pass? ==> |sent| == |old(sent)| + 1 && sent[..|old(sent)|] == old(sent)
    {
      var d := PreflopDecide(cards, seats, pos, pid, outerBet, tight, alive, preFlop, stolen, budget, folds, phase, round);
      if d.Err? {
        return Fail(d.fault);
      }
      stolen, budget := d.value.stolen, d.value.budget;
      Send(Command(d.value.act));
      return Pass;
    }

    /** action_other: the postflop rules on the evaluators' answers. */
    method ActionOther(oracle: Oracle) returns (o: Outcome)
      requires Valid() && flops != []
      modifies this`stolen, this`budget, this`sent
      ensures Valid()
      ensures old(PostflopPlan(oracle)).Err? ==> o == Fail(old(PostflopPlan(oracle)).fault) && unchanged(this)
      ensures old(PostflopPlan(oracle)).Ok? ==> var d := old(PostflopPlan(oracle)).value;
        o == Pass && sent == old(sent) + [Command(d.act)] && stolen == d.stolen && budget == d.budget
      ensures o.Fail? ==> sent == old(sent)
      ensures o.Pass? ==> |sent| == |old(sent)| + 1 && sent[..|old(sent)|] == old(sent)
    {
      if !(|cards| >= 2 && AllCards(cards) && AllCards(flops)) {
        return Fail(BadCards);
      }
      var ev := oracle.equity(cards, flops, |alive| - 1);
      var score := oracle.strength(cards, flops);
      if pid !in pos {
        return Fail(NotSeated(pid));
      }
      var own := seats[pos[pid]];
      var a := PostflopChoice(own.bet, outerBet, own.jetton, score, ev);
      Send(Command(a));
      return Pass;
    }

    // -------------------------------------------------------------------------
    // The run loop

    /** One framed message handed to its handler (the getattr dispatch). */
    method Dispatch(e: Event, oracle: Oracle) returns (o: Outcome)
      requires Valid()
      modifies this
      ensures Valid()
      ensures e.kind != Inquire ==> sent == old(sent)
      ensures e.kind == Inquire && o.Pass? ==> |sent| == |old(sent)| + 1 && sent[..|old(sent)|] == old(sent)
      ensures e.kind == Inquire && o.Fail? ==> sent == old(sent)
    {
      if e.kind == Inquire {
        o := HandleInquire(e.body, oracle);
      } else {
        o := Update(e);
      }
    }

    /** Every handler but handle_inquire only updates the table: nothing is
        sent. */
    method Update(e: Event) returns (o: Outcome)
      requires Valid() && e.kind != Inquire
      modifies this
      ensures Valid() && sent == old(sent)
    {
      match e.kind
      case Seat => o := HandleSeat(e.body);
      case Blind => o := HandleBlind(e.body);
      case Hold => HandleHold(e.body); o := Pass;
      case Flop => HandleFlop(e.body); o := Pass;
      case Turn => o := HandleStreet(e.body);
      case River => o := HandleStreet(e.body);
      case Showdown => o := Pass;
      case PotWin => Clear(); o := Pass;
      case Notify => o := HandleNotify(e.body);
    }

    /** run: register, frame the received chunks into messages, and handle
        them in order until one raises. Exactly one command answers each
        inquire handled. */
    method Run(chunks: seq<string>, oracle: Oracle)
      returns (o: Outcome, events: seq<Event>, final: State)
      requires Valid()
      modifies this
      ensures Valid()
      ensures Fed(final, events) == FeedChunks(Start, chunks)
      ensures |sent| > |old(sent)| && sent[|old(sent)|] == Register(pid)
      ensures o.Pass? ==> |sent| == |old(sent)| + 1 + Inquires(events)
      ensures o.Fail? ==> |sent| <= |old(sent)| + 1 + Inquires(events)
    {
      Send(Register(pid));
      ghost var registered := sent;
      events, final := Frame(chunks);
      o := Handle(events, oracle);
      assert sent[|old(sent)|] == sent[..|registered|][|old(sent)|];
    }

    /** The dispatch loop of run: the framed messages handled in order until
        one raises. What was sent before stays, and each inquire handled adds
        exactly one command. */
    method Handle(events: seq<Event>, oracle: Oracle) returns (o: Outcome)
      requires Valid()
      modifies this
      ensures Valid()
      ensures |sent| >= |old(sent)| && sent[..|old(sent)|] == old(sent)
      ensures o.Pass? ==> |sent| == |old(sent)| + Inquires(events)
      ensures o.Fail? ==> |sent| <= |old(sent)| + Inquires(events)
    {
      ghost var n0 := |sent|;
      var i := 0;
      o := Pass;
      while i < |events|
        invariant 0 <= i <= |events| && Valid()
        invariant |sent| == n0 + Inquires(events[..i]) && sent[..n0] == old(sent)
      {
        Prefix(events, i);
        ghost var before := sent;
        o := Dispatch(events[i], oracle);
        if o.Fail? {
          InquiresPrefix(events, i);
          return;
        }
        assert sent[..n0] == sent[..|before|][..n0];
        i := i + 1;
      }
      assert events[..|events|] == events;
    }
  }
}
