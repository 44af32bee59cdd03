/** What the preliminary handlers' message bodies parse to, or the first
    exception they raise, and what their loops do to the table state, stated
    on values: the Player class applies these to its fields. The preliminary
    client keeps only the action counters, the seats and the enemy set: no
    preflop counters, fold list, alive set or phase. */
module PreliminaryLines {
  import opened Wire
  import opened Ledger

  // ---------------------------------------------------------------------------
  // What a message body parses to, or the first exception it raises

  /** handle_seat, given each line parsed: every line must parse. */
  function SeatLines(rs: seq<Result<SeatLine>>): (r: Result<seq<SeatLine>>)
    ensures r.Ok? ==> |r.value| == |rs| && forall i :: 0 <= i < |rs| ==> rs[i] == Ok(r.value[i])
    ensures r.Err? ==> exists i :: 0 <= i < |rs| && rs[i].Err? && r.fault == rs[i].fault
    decreases |rs|
  {
    if rs == [] then Ok([])
    else match rs[0]
      case Err(f) => Err(f)
      case Ok(l) =>
        match SeatLines(rs[1..])
        case Err(f) => Err(f)
        case Ok(ls) => Ok([l] + ls)
  }

  /** A whole inquire body: the status lines (all but the last line), each of
      which must parse and name a seated player, then the pot as the last word
      of the last line (IndexError on an empty message). */
  function InquireBody(msg: seq<string>, pos: map<int, nat>): (r: Result<(seq<StatusLine>, int)>)
    ensures msg == [] ==> r == Err(MissingLine)
    ensures r.Ok? ==> (msg != [] && SeatedLines(Each(ParseStatus, msg[..|msg| - 1]), pos, StatusPid) == Ok(r.value.0)
      && ParsePot(msg[|msg| - 1]) == Ok(r.value.1))
    ensures msg != [] && SeatedLines(Each(ParseStatus, msg[..|msg| - 1]), pos, StatusPid).Ok? && ParsePot(msg[|msg| - 1]).Ok?
      ==> r.Ok?
  {
    if msg == [] then Err(MissingLine)
    else match SeatedLines(Each(ParseStatus, msg[..|msg| - 1]), pos, StatusPid)
      case Err(f) => Err(f)
      case Ok(ss) =>
        match ParsePot(msg[|msg| - 1])
        case Err(f) => Err(f)
        case Ok(p) => Ok((ss, p))
  }

  /** A notify status line whose recognised action names a player without
      counters: actions[pid] raises KeyError. */
  predicate Uncounted(l: StatusLine, actions: map<int, Stats>)
  {
    Recognised(l.action) && l.pid !in actions
  }

  /** The status lines of handle_notify (all but the last line), given each
      line parsed: each must have parsed and, when its action is counted,
      name a player with counters. A notify line need not name a seated
      player. */
  function NotifyLines(rs: seq<Result<StatusLine>>, actions: map<int, Stats>): (r: Result<seq<StatusLine>>)
    ensures r.Ok? ==> |r.value| == |rs| && forall i :: 0 <= i < |rs| ==> rs[i] == Ok(r.value[i]) && !Uncounted(r.value[i], actions)
    ensures r.Err? ==> exists i :: 0 <= i < |rs| && (rs[i].Err? || Uncounted(rs[i].value, actions))
    decreases |rs|
  {
    if rs == [] then Ok([])
    else match rs[0]
      case Err(f) => Err(f)
      case Ok(l) =>
        if Uncounted(l, actions) then Err(NoCounter(l.pid, l.action))
        else match NotifyLines(rs[1..], actions)
          case Err(f) => Err(f)
          case Ok(ls) => Ok([l] + ls)
  }

  // ---------------------------------------------------------------------------
  // The bookkeeping invariant

  /** The position index points at the players' seats, every seated player
      has counters, and every player's counters add up. */
  ghost predicate Books(seats: seq<Seat>, pos: map<int, nat>, actions: map<int, Stats>)
  {
    Indexes(seats, pos) && pos.Keys <= actions.Keys && AllConsistent(actions)
  }

  /** A seat message keeps the bookkeeping in shape. */
  lemma SeatKeeps(seats: seq<Seat>, pos: map<int, nat>, actions: map<int, Stats>, ls: seq<SeatLine>)
    requires Books(seats, pos, actions)
    ensures Books(seats + Sits(ls), Place(pos, |seats|, ls), Enrol(actions, ls, Fresh))
  {
    PlaceShape(seats, pos, ls);
    EnrolConsistent(actions, ls);
  }

  /** An inquire's status lines keep the bookkeeping in shape. */
  lemma InquireKeeps(seats: seq<Seat>, pos: map<int, nat>, actions: map<int, Stats>, ss: seq<StatusLine>)
    requires Books(seats, pos, actions) && forall i :: 0 <= i < |ss| ==> ss[i].pid in pos
    ensures Books(Posted(seats, pos, ss), pos, Tally(actions, ss))
  {
    SamePlayersIndex(seats, Posted(seats, pos, ss), pos);
    TallyConsistent(actions, ss);
  }

  /** A notify's status lines keep the bookkeeping in shape. */
  lemma NoticeKeeps(seats: seq<Seat>, pos: map<int, nat>, actions: map<int, Stats>, ss: seq<StatusLine>)
    requires Books(seats, pos, actions)
    ensures Books(seats, pos, Tally(actions, ss))
  {
    TallyConsistent(actions, ss);
  }

  /** The aggressors of a batch whose players are all seated are seated. */
  lemma AggressorsSeated(ss: seq<StatusLine>, pos: map<int, nat>)
    requires forall i :: 0 <= i < |ss| ==> ss[i].pid in pos
    ensures Aggressors(ss) <= pos.Keys
  {
    forall p | p in Aggressors(ss) ensures p in pos {
      AggressorsAre(ss, p);
    }
  }

  // ---------------------------------------------------------------------------
  // handle_seat's loop

  /** The loop of handle_seat over lines that all parsed: append a seat,
      point the player at it, enrol its counters. */
  method SeatLoop(ls: seq<SeatLine>, seats: seq<Seat>, pos: map<int, nat>, actions: map<int, Stats>)
    returns (st: seq<Seat>, ps: map<int, nat>, ac: map<int, Stats>)
    ensures st == seats + Sits(ls) && ps == Place(pos, |seats|, ls) && ac == Enrol(actions, ls, Fresh)
  {
    st, ps, ac := seats, pos, actions;
    SeatStart(ls, seats, pos, actions);
    var i := 0;
    while i < |ls|
      invariant 0 <= i <= |ls|
      invariant SeatSoFar(ls, i, seats, pos, actions, st, ps, ac)
    {
      var l := ls[i];
      var ps', st', ac' := ps[l.pid := |st|], st + [Sit(l)], SetDefault(ac, l.pid, Fresh);
      SeatAdvance(ls, i, seats, pos, actions, st, ps, ac, st', ps', ac');
      st, ps, ac := st', ps', ac';
      i := i + 1;
    }
    SeatDone(ls, seats, pos, actions, st, ps, ac);
  }

  /** The state of handle_seat's loop after the first i seat lines. */
  ghost predicate SeatSoFar(ls: seq<SeatLine>, i: nat, seats: seq<Seat>, pos: map<int, nat>, actions: map<int, Stats>,
                            st: seq<Seat>, ps: map<int, nat>, ac: map<int, Stats>)
  {
    && i <= |ls|
    && st == seats + Sits(ls[..i]) && ps == Place(pos, |seats|, ls[..i]) && ac == Enrol(actions, ls[..i], Fresh)
  }

  /** Before the first seat line nothing has changed. */
  lemma SeatStart(ls: seq<SeatLine>, seats: seq<Seat>, pos: map<int, nat>, actions: map<int, Stats>)
    ensures SeatSoFar(ls, 0, seats, pos, actions, seats, pos, actions)
  {
    assert ls[..0] == [];
  }

  /** After the last seat line the loop state is the whole message's. */
  lemma SeatDone(ls: seq<SeatLine>, seats: seq<Seat>, pos: map<int, nat>, actions: map<int, Stats>,
                 st: seq<Seat>, ps: map<int, nat>, ac: map<int, Stats>)
    requires SeatSoFar(ls, |ls|, seats, pos, actions, st, ps, ac)
    ensures st == seats + Sits(ls) && ps == Place(pos, |seats|, ls) && ac == Enrol(actions, ls, Fresh)
  {
    assert ls[..|ls|] == ls;
  }

  /** The i-th seat line takes the loop state from i lines to i + 1. */
  lemma SeatAdvance(ls: seq<SeatLine>, i: nat, seats: seq<Seat>, pos: map<int, nat>, actions: map<int, Stats>,
                    st: seq<Seat>, ps: map<int, nat>, ac: map<int, Stats>,
                    st': seq<Seat>, ps': map<int, nat>, ac': map<int, Stats>)
    requires i < |ls| && SeatSoFar(ls, i, seats, pos, actions, st, ps, ac)
    requires ps' == ps[ls[i].pid := |st|] && st' == st + [Sit(ls[i])] && ac' == SetDefault(ac, ls[i].pid, Fresh)
    ensures SeatSoFar(ls, i + 1, seats, pos, actions, st', ps', ac')
  {
    SeatStep(seats, pos, ls, i);
    assert |st| == |seats| + i;
    EnrolStep(actions, ls, i, Fresh);
  }

  // ---------------------------------------------------------------------------
  // handle_inquire's loop

  /** The body of handle_inquire's loop for one status line: write the seat,
      raise the outer bet, count a recognised action and note an
      aggressor. */
  method InquireLine(l: StatusLine, pos: map<int, nat>, st: seq<Seat>, ob: int, ac: map<int, Stats>, en: set<int>)
    returns (st': seq<Seat>, ob': int, ac': map<int, Stats>, en': set<int>)
    requires l.pid in pos && pos[l.pid] < |st| && l.pid in ac
    ensures st' == st[pos[l.pid] := Post(st[pos[l.pid]], l)] && ob' == (if ob >= l.bet then ob else l.bet)
    ensures ac' == Tick(ac, l) && en' == en + (if Aggressive(l.action) then {l.pid} else {})
  {
    var k := pos[l.pid];
    st' := st[k := Post(st[k], l)];
    ob' := if ob >= l.bet then ob else l.bet;
    ac', en' := ac, en;
    if Recognised(l.action) {
      ac' := ac[l.pid := Note(ac[l.pid], l.action)];
    }
    if Aggressive(l.action) {
      en' := en + {l.pid};
    }
  }

  /** The loop of handle_inquire over status lines that all parsed and name
      seated players; the enemy set starts afresh. */
  method InquireLoop(ss: seq<StatusLine>, seats: seq<Seat>, pos: map<int, nat>, outer: int, actions: map<int, Stats>)
    returns (st: seq<Seat>, ob: int, ac: map<int, Stats>, en: set<int>)
    requires Books(seats, pos, actions) && forall j :: 0 <= j < |ss| ==> ss[j].pid in pos
    ensures st == Posted(seats, pos, ss) && ob == MaxBet(outer, ss)
    ensures ac == Tally(actions, ss) && en == Aggressors(ss)
    ensures Books(st, pos, ac) && en <= pos.Keys
  {
    st, ob, ac, en := seats, outer, actions, {};
    InquireStart(ss, seats, pos, outer, actions);
    var i := 0;
    while i < |ss|
      invariant 0 <= i <= |ss|
      invariant InquireSoFar(ss, i, seats, pos, outer, actions, st, ob, ac, en)
    {
      InquireReady(ss, i, seats, pos, outer, actions, st, ob, ac, en);
      var st', ob', ac', en' := InquireLine(ss[i], pos, st, ob, ac, en);
      InquireAdvance(ss, i, seats, pos, outer, actions, st, ob, ac, en, st', ob', ac', en');
      st, ob, ac, en := st', ob', ac', en';
      i := i + 1;
    }
    InquireDone(ss, seats, pos, outer, actions, st, ob, ac, en);
    InquireKeeps(seats, pos, actions, ss);
    AggressorsSeated(ss, pos);
  }

  /** The state of handle_inquire's loop after the first i status lines. */
  ghost predicate InquireSoFar(ss: seq<StatusLine>, i: nat, seats: seq<Seat>, pos: map<int, nat>, outer: int,
                               actions: map<int, Stats>, st: seq<Seat>, ob: int, ac: map<int, Stats>, en: set<int>)
  {
    && i <= |ss| && Books(seats, pos, actions) && (forall j :: 0 <= j < |ss| ==> ss[j].pid in pos)
    && st == Posted(seats, pos, ss[..i]) && ob == MaxBet(outer, ss[..i])
    && ac == Tally(actions, ss[..i]) && en == Aggressors(ss[..i])
  }

  /** Before the first status line nothing has changed. */
  lemma InquireStart(ss: seq<StatusLine>, seats: seq<Seat>, pos: map<int, nat>, outer: int, actions: map<int, Stats>)
    requires Books(seats, pos, actions) && forall j :: 0 <= j < |ss| ==> ss[j].pid in pos
    ensures InquireSoFar(ss, 0, seats, pos, outer, actions, seats, outer, actions, {})
  {
    assert ss[..0] == [];
  }

  /** After the last status line the loop state is the whole batch's. */
  lemma InquireDone(ss: seq<StatusLine>, seats: seq<Seat>, pos: map<int, nat>, outer: int, actions: map<int, Stats>,
                    st: seq<Seat>, ob: int, ac: map<int, Stats>, en: set<int>)
    requires InquireSoFar(ss, |ss|, seats, pos, outer, actions, st, ob, ac, en)
    ensures st == Posted(seats, pos, ss) && ob == MaxBet(outer, ss)
    ensures ac == Tally(actions, ss) && en == Aggressors(ss)
  {
    assert ss[..|ss|] == ss;
  }

  /** Before the i-th status line its player is seated and has counters. */
  lemma InquireReady(ss: seq<StatusLine>, i: nat, seats: seq<Seat>, pos: map<int, nat>, outer: int,
                     actions: map<int, Stats>, st: seq<Seat>, ob: int, ac: map<int, Stats>, en: set<int>)
    requires i < |ss| && InquireSoFar(ss, i, seats, pos, outer, actions, st, ob, ac, en)
    ensures ss[i].pid in pos && pos[ss[i].pid] < |st| && ss[i].pid in ac
  {
    assert ss[i].pid in pos;
  }

  /** The i-th status line takes the loop state from i lines to i + 1. */
  lemma InquireAdvance(ss: seq<StatusLine>, i: nat, seats: seq<Seat>, pos: map<int, nat>, outer: int,
                       actions: map<int, Stats>, st: seq<Seat>, ob: int, ac: map<int, Stats>, en: set<int>,
                       st': seq<Seat>, ob': int, ac': map<int, Stats>, en': set<int>)
    requires i < |ss| && InquireSoFar(ss, i, seats, pos, outer, actions, st, ob, ac, en)
    requires pos[ss[i].pid] < |st|
    requires st' == st[pos[ss[i].pid] := Post(st[pos[ss[i].pid]], ss[i])] && ob' == (if ob >= ss[i].bet then ob else ss[i].bet)
    requires ac' == Tick(ac, ss[i]) && en' == en + (if Aggressive(ss[i].action) then {ss[i].pid} else {})
    ensures InquireSoFar(ss, i + 1, seats, pos, outer, actions, st', ob', ac', en')
  {
    PostedStep(seats, pos, ss, i);
    MaxBetStep(outer, ss, i);
    TallyStep(actions, ss, i);
    BatchStep(map[], {}, ss, i);
  }

  // ---------------------------------------------------------------------------
  // handle_notify's loop

  /** The loop of handle_notify over status lines that all parsed and have
      counters to bump: count each recognised action. */
  method NotifyLoop(ss: seq<StatusLine>, actions: map<int, Stats>) returns (ac: map<int, Stats>)
    requires forall j :: 0 <= j < |ss| ==> !Uncounted(ss[j], actions)
    ensures ac == Tally(actions, ss)
  {
    ac := actions;
    var i := 0;
    while i < |ss|
      invariant 0 <= i <= |ss| && ac.Keys == actions.Keys
      invariant ac == Tally(actions, ss[..i])
    {
      var l := ss[i];
      TallyStep(actions, ss, i);
      if Recognised(l.action) {
        assert !Uncounted(l, actions);
        ac := ac[l.pid := Note(ac[l.pid], l.action)];
      }
      i := i + 1;
    }
    assert ss[..|ss|] == ss;
  }
}
