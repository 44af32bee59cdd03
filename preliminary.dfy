/** The preliminary client: the earlier version of the Player object, with
    fewer statistics (no preflop counters, fold list, alive set or phase),
    one evaluator and simpler decision rules. As in the semifinal client,
    each handler first works out, without changing anything, whether the
    message would make the source raise an exception (and which one comes
    first), and then applies the message the way the source's loop does. */
module Preliminary {
  import opened Wire
  import opened Ledger
  import opened Cards
  import opened Framer
  import opened PreliminaryQueries
  import opened PreliminaryLines

  const Name: string := "paji"

  /** The registration line sent once the connection is up. */
  function Register(pid: int): string
  {
    "reg: " + Show(pid) + " " + Name + " \n"
  }

  /** What action() decides on a table state: action_two's rules before the
      flop, action_other's after it. */
  function Answer(cards: seq<seq<string>>, flops: seq<seq<string>>, seats: seq<Seat>, pos: map<int, nat>, me: int,
                  outer: int, actions: map<int, Stats>, enemy: set<int>,
                  evaluate: (seq<seq<string>>, seq<seq<string>>) -> real): Result<Action>
    requires Indexes(seats, pos) && enemy <= pos.Keys
  {
    if flops == [] then Preflop(cards, seats, pos, me, outer, actions, enemy)
    else Postflop(cards, flops, seats, pos, me, outer, evaluate)
  }

  // ---------------------------------------------------------------------------
  // The player

  class Player {
    const pid: int
    var outerBet: int
    var pot: int
    var cards: seq<seq<string>>
    var flops: seq<seq<string>>
    var seats: seq<Seat>
    var pos: map<int, nat>
    var actions: map<int, Stats>
    var enemy: set<int>
    var round: nat
    /** Every command written to the socket, in order. */
    var sent: seq<string>

    /** The position index points at the seats, every seated player has
        counters, and the counters add up. */
    ghost predicate Valid()
      reads this
    {
      Books(seats, pos, actions)
    }

    constructor (id: int)
      ensures Valid() && pid == id
      ensures outerBet == 0 && pot == 0 && cards == [] && flops == [] && seats == [] && pos == map[]
      ensures actions == map[] && enemy == {} && round == 0 && sent == []
    {
      pid := id;
      outerBet, pot := 0, 0;
      cards, flops, seats, pos := [], [], [], map[];
      actions, enemy, round := map[], {}, 0;
      sent := [];
    }

    /** send: the command reaches the socket (retries are left out). */
    method Send(text: string)
      modifies this`sent
      ensures sent == old(sent) + [text]
    {
      sent := sent + [text];
    }

    // -------------------------------------------------------------------------
    // Handlers

    /** handle_seat: the first line that does not parse raises before the
        state changes (see Seat for what the lines do). */
    method HandleSeat(msg: seq<string>) returns (o: Outcome)
      requires Valid()
      modifies this`seats, this`pos, this`actions, this`round
      ensures Valid()
      ensures var r := SeatLines(Each(ParseSeat, msg));
        && (r.Err? ==> o == Fail(r.fault) && unchanged(this))
        && (r.Ok? ==> var ls := r.value;
              && o == Pass && seats == old(seats) + Sits(ls) && pos == Place(old(pos), |old(seats)|, ls)
              && actions == Enrol(old(actions), ls, Fresh) && round == old(round) + 1)
    {
      var parsed := SeatLines(Each(ParseSeat, msg));
      if parsed.Err? {
        return Fail(parsed.fault);
      }
      Seat(parsed.value);
      return Pass;
    }

    /** The seat lines of a new hand: the seats are appended (the list itself
        is emptied only by clear), each player pointed at its new seat and
        given counters if it has none, and the round counter advances. */
    method Seat(ls: seq<SeatLine>)
      requires Valid()
      modifies this`seats, this`pos, this`actions, this`round
      ensures Valid()
      ensures seats == old(seats) + Sits(ls) && pos == Place(old(pos), |old(seats)|, ls)
      ensures actions == Enrol(old(actions), ls, Fresh) && round == old(round) + 1
    {
      var st, ps, ac := SeatLoop(ls, seats, pos, actions);
      SeatKeeps(seats, pos, actions, ls);
      seats, pos, actions, round := st, ps, ac, round + 1;
    }

    /** handle_blind: every line must parse and name a seated player before
        the state changes (see Blind). */
    method HandleBlind(msg: seq<string>) returns (o: Outcome)
      requires Valid()
      modifies this`seats
      ensures Valid()
      ensures var r := SeatedLines(Each(ParseBlind, msg), pos, BlindPid);
        && (r.Err? ==> o == Fail(r.fault) && seats == old(seats))
        && (r.Ok? ==> o == Pass && seats == Blinds(old(seats), pos, r.value))
    {
      var parsed := SeatedLines(Each(ParseBlind, msg), pos, BlindPid);
      if parsed.Err? {
        return Fail(parsed.fault);
      }
      Blind(parsed.value);
      return Pass;
    }

    /** The blind lines: each sets its player's bet and takes it from the
        player's stack. */
    method Blind(bs: seq<BlindLine>)
      requires Valid() && forall j :: 0 <= j < |bs| ==> bs[j].pid in pos
      modifies this`seats
      ensures Valid() && seats == Blinds(old(seats), pos, bs)
    {
      seats := BlindLoop(bs, seats, pos);
      SamePlayersIndex(old(seats), seats, pos);
    }

    /** handle_hold: the hole cards, one per line. */
    method HandleHold(msg: seq<string>)
      modifies this`cards
      ensures cards == old(cards) + Each(ParseCard, msg)
    {
      var i := 0;
      while i < |msg|
        invariant 0 <= i <= |msg|
        invariant cards == old(cards) + Each(ParseCard, msg[..i])
      {
        Prefix(msg, i);
        Assoc(old(cards), Each(ParseCard, msg[..i]), [ParseCard(msg[i])]);
        cards := cards + [ParseCard(msg[i])];
        i := i + 1;
      }
      assert msg[..|msg|] == msg;
    }

    /** handle_flop: the board cards, one per line. */
    method HandleFlop(msg: seq<string>)
      modifies this`flops
      ensures flops == old(flops) + Each(ParseCard, msg)
    {
      var i := 0;
      while i < |msg|
        invariant 0 <= i <= |msg|
        invariant flops == old(flops) + Each(ParseCard, msg[..i])
      {
        Prefix(msg, i);
        Assoc(old(flops), Each(ParseCard, msg[..i]), [ParseCard(msg[i])]);
        flops := flops + [ParseCard(msg[i])];
        i := i + 1;
      }
      assert msg[..|msg|] == msg;
    }

    /** handle_turn and handle_river (the same code): the first line is one
        more board card (IndexError on an empty message). */
    method HandleStreet(msg: seq<string>) returns (o: Outcome)
      modifies this`flops
      ensures msg == [] ==> o == Fail(MissingLine) && flops == old(flops)
      ensures msg != [] ==> o == Pass && flops == old(flops) + [ParseCard(msg[0])]
    {
      if msg == [] {
        return Fail(MissingLine);
      }
      flops := flops + [ParseCard(msg[0])];
      return Pass;
    }

    /** clear (handle_pot_win): the hand is over. The counters, the enemy
        set and the round counter survive. */
    method Clear()
      requires Valid()
      modifies this`cards, this`flops, this`seats, this`pos, this`pot, this`outerBet
      ensures Valid()
      ensures cards == [] && flops == [] && seats == [] && pos == map[] && pot == 0 && outerBet == 0
    {
      cards, flops, seats, pos, pot, outerBet := [], [], [], map[], 0, 0;
    }

    /** The status lines of one inquire absorbed in order: each writes its
        player's seat and lifts the highest bet; a recognised action is
        counted; an aggressive action makes its player an enemy. The enemy
        set starts afresh. */
    method Absorb(ss: seq<StatusLine>)
      requires Valid() && forall i :: 0 <= i < |ss| ==> ss[i].pid in pos
      modifies this`seats, this`outerBet, this`actions, this`enemy
      ensures Valid() && enemy <= pos.Keys
      ensures seats == Posted(old(seats), pos, ss) && outerBet == MaxBet(old(outerBet), ss)
      ensures actions == Tally(old(actions), ss) && enemy == Aggressors(ss)
    {
      var st, ob, ac, en := InquireLoop(ss, seats, pos, outerBet, actions);
      seats, outerBet, actions, enemy := st, ob, ac, en;
    }

    /** handle_inquire: absorb the status lines, read the pot, and answer.
        Nothing is changed, and nothing sent, when the message itself
        raises. */
    method HandleInquire(msg: seq<string>, evaluate: (seq<seq<string>>, seq<seq<string>>) -> real) returns (o: Outcome)
      requires Valid()
      modifies this`seats, this`outerBet, this`actions, this`enemy, this`pot, this`sent
      ensures Valid()
      ensures var b := InquireBody(msg, old(pos));
        && (b.Err? ==> o == Fail(b.fault) && unchanged(this))
        && (b.Ok? ==> var ss := b.value.0;
              && pot == b.value.1 && enemy <= pos.Keys
              && seats == Posted(old(seats), old(pos), ss) && outerBet == MaxBet(old(outerBet), ss)
              && actions == Tally(old(actions), ss) && enemy == Aggressors(ss))
      ensures InquireBody(msg, old(pos)).Ok? ==>
        var c := Answer(cards, flops, seats, pos, pid, outerBet, actions, enemy, evaluate);
        && (c.Err? ==> o == Fail(c.fault) && sent == old(sent))
        && (c.Ok? ==> o == Pass && sent == old(sent) + [Command(c.value)])
      ensures o.Pass? ==> |sent| == |old(sent)| + 1 && sent[..|old(sent)|] == old(sent)
      ensures o.Fail? ==> sent == old(sent)
    {
      var body := InquireBody(msg, pos);
      if body.Err? {
        return Fail(body.fault);
      }
      o := Respond(body.value.0, body.value.1, evaluate);
    }

    /** The part of handle_inquire after the message has parsed: absorb the
        status lines, store the pot and answer. */
    method Respond(ss: seq<StatusLine>, total: int, evaluate: (seq<seq<string>>, seq<seq<string>>) -> real)
      returns (o: Outcome)
      requires Valid() && forall i :: 0 <= i < |ss| ==> ss[i].pid in pos
      modifies this`seats, this`outerBet, this`actions, this`enemy, this`pot, this`sent
      ensures Valid() && enemy <= pos.Keys && pot == total
      ensures seats == Posted(old(seats), pos, ss) && outerBet == MaxBet(old(outerBet), ss)
      ensures actions == Tally(old(actions), ss) && enemy == Aggressors(ss)
      ensures var c := Answer(cards, flops, seats, pos, pid, outerBet, actions, enemy, evaluate);
        && (c.Err? ==> o == Fail(c.fault) && sent == old(sent))
        && (c.Ok? ==> o == Pass && sent == old(sent) + [Command(c.value)])
      ensures o.Pass? ==> |sent| == |old(sent)| + 1 && sent[..|old(sent)|] == old(sent)
      ensures o.Fail? ==> sent == old(sent)
    {
      Absorb(ss);
      pot := total;
      o := Act(evaluate);
    }

    /** handle_notify: the status lines (all but the last line) must parse
        and have counters to bump before the state changes (see Notice). */
    method HandleNotify(msg: seq<string>) returns (o: Outcome)
      requires Valid()
      modifies this`actions
      ensures Valid()
      ensures var r := NotifyLines(Each(ParseStatus, NotifyLinesOf(msg)), old(actions));
        && (r.Err? ==> o == Fail(r.fault) && actions == old(actions))
        && (r.Ok? ==> o == Pass && actions == Tally(old(actions), r.value))
    {
      var parsed := NotifyLines(Each(ParseStatus, NotifyLinesOf(msg)), actions);
      if parsed.Err? {
        return Fail(parsed.fault);
      }
      Notice(parsed.value);
      return Pass;
    }

    /** The status lines of one notify: only the recognised actions are
        counted; seats, bets and enemies are left alone. */
    method Notice(ss: seq<StatusLine>)
      requires Valid() && forall j :: 0 <= j < |ss| ==> !Uncounted(ss[j], actions)
      modifies this`actions
      ensures Valid() && actions == Tally(old(actions), ss)
    {
      var ac := NotifyLoop(ss, actions);
      NoticeKeeps(seats, pos, actions, ss);
      actions := ac;
    }

    // -------------------------------------------------------------------------
    // Decisions

    /** What action() decides: action_two before the flop, action_other
        after it. */
    ghost function Choice(evaluate: (seq<seq<string>>, seq<seq<string>>) -> real): Result<Action>
      reads this
      requires Valid() && enemy <= pos.Keys
    {
      Answer(cards, flops, seats, pos, pid, outerBet, actions, enemy, evaluate)
    }

    /** action: answer the inquire with the command Choice names. Nothing
        changes before an exception. */
    method Act(evaluate: (seq<seq<string>>, seq<seq<string>>) -> real) returns (o: Outcome)
      requires Valid() && enemy <= pos.Keys
      modifies this`sent
      ensures old(Choice(evaluate)).Err? ==> o == Fail(old(Choice(evaluate)).fault) && sent == old(sent)
      ensures old(Choice(evaluate)).Ok? ==> o == Pass && sent == old(sent) + [Command(old(Choice(evaluate)).value)]
      ensures o.Fail? ==> sent == old(sent)
      ensures o.Pass? ==> |sent| == |old(sent)| + 1 && sent[..|old(sent)|] == old(sent)
    {
      if flops == [] {
        o := ActionTwo();
      } else {
        o := ActionOther(evaluate);
      }
    }

    /** action_two: the preflop rules on the pair table score, with the
        madness set and is_rich computed by their loops. */
    method ActionTwo() returns (o: Outcome)
      requires Valid() && enemy <= pos.Keys
      modifies this`sent
      ensures var d := Preflop(cards, seats, pos, pid, outerBet, actions, enemy);
        && (d.Err? ==> o == Fail(d.fault) && sent == old(sent))
        && (d.Ok? ==> o == Pass && sent == old(sent) + [Command(d.value)])
    {
      var d := PreflopDecide(cards, seats, pos, pid, outerBet, actions, enemy);
      if d.Err? {
        return Fail(d.fault);
      }
      Send(Command(d.value));
      return Pass;
    }

    /** action_other: the postflop rules on the evaluator's score. */
    method ActionOther(evaluate: (seq<seq<string>>, seq<seq<string>>) -> real) returns (o: Outcome)
      requires Valid()
      modifies this`sent
      ensures var d := Postflop(cards, flops, seats, pos, pid, outerBet, evaluate);
        && (d.Err? ==> o == Fail(d.fault) && sent == old(sent))
        && (d.Ok? ==> o == Pass && sent == old(sent) + [Command(d.value)])
    {
      if !(AllCards(cards) && AllCards(flops)) {
        return Fail(BadCards);
      }
      var score := evaluate(cards, flops);
      if pid !in pos {
        return Fail(NotSeated(pid));
      }
      var own := seats[pos[pid]];
      Send(Command(PostflopChoice(own.bet, outerBet, own.jetton, score)));
      return Pass;
    }

    // -------------------------------------------------------------------------
    // The run loop

    /** One framed message handed to its handler (the getattr dispatch). */
    method Dispatch(e: Event, evaluate: (seq<seq<string>>, seq<seq<string>>) -> real) returns (o: Outcome)
      requires Valid()
      modifies this
      ensures Valid()
      ensures e.kind != Inquire ==> sent == old(sent)
      ensures e.kind == Inquire && o.Pass? ==> |sent| == |old(sent)| + 1 && sent[..|old(sent)|] == old(sent)
      ensures e.kind == Inquire && o.Fail? ==> sent == old(sent)
    {
      match e.kind
      case Seat => o := HandleSeat(e.body);
      case Blind => o := HandleBlind(e.body);
      case Hold => HandleHold(e.body); o := Pass;
      case Inquire => o := HandleInquire(e.body, evaluate);
      case Flop => HandleFlop(e.body); o := Pass;
      case Turn => o := HandleStreet(e.body);
      case River => o := HandleStreet(e.body);
      case Showdown => o := Pass;
      case PotWin => Clear(); o := Pass;
      case Notify => o := HandleNotify(e.body);
    }

    /** run: register, frame the received chunks into messages, and handle
        them in order until one raises. Exactly one command answers each
        inquire handled. */
    method Run(chunks: seq<string>, evaluate: (seq<seq<string>>, seq<seq<string>>) -> real)
      returns (o: Outcome, events: seq<Event>, final: State)
      requires Valid()
      modifies this
      ensures Valid()
      ensures Fed(final, events) == FeedChunks(Start, chunks)
      ensures |sent| > |old(sent)| && sent[|old(sent)|] == Register(pid)
      ensures o.Pass? ==> |sent| == |old(sent)| + 1 + Inquires(events)
      ensures o.Fail? ==> |sent| <= |old(sent)| + 1 + Inquires(events)
    {
      Send(Register(pid));
      ghost var registered := sent;
      events, final := Frame(chunks);
      o := Handle(events, evaluate);
      assert sent[|old(sent)|] == sent[..|registered|][|old(sent)|];
    }

    /** The dispatch loop of run: the framed messages handled in order until
        one raises. What was sent before stays, and each inquire handled adds
        exactly one command. */
    method Handle(events: seq<Event>, evaluate: (seq<seq<string>>, seq<seq<string>>) -> real) returns (o: Outcome)
      requires Valid()
      modifies this
      ensures Valid()
      ensures |sent| >= |old(sent)| && sent[..|old(sent)|] == old(sent)
      ensures o.Pass? ==> |sent| == |old(sent)| + Inquires(events)
      ensures o.Fail? ==> |sent| <= |old(sent)| + Inquires(events)
    {
      ghost var n0 := |sent|;
      var i := 0;
      o := Pass;
      while i < |events|
        invariant 0 <= i <= |events| && Valid()
        invariant |sent| == n0 + Inquires(events[..i]) && sent[..n0] == old(sent)
      {
        Prefix(events, i);
        ghost var before := sent;
        o := Dispatch(events[i], evaluate);
        if o.Fail? {
          InquiresPrefix(events, i);
          return;
        }
        assert sent[..n0] == sent[..|before|][..n0];
        i := i + 1;
      }
      assert events[..|events|] == events;
    }
  }
}
