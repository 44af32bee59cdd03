/** What the semifinal handlers' message bodies parse to, or the first
    exception they raise, and what their loops do to the table state, stated
    on values: the Player class applies these to its fields. */
module SemifinalLines {
  import opened Wire
  import opened Ledger

  // ---------------------------------------------------------------------------
  // What a message body parses to, or the first exception it raises

  /** handle_seat, given each line parsed: every line must parse; the fold
      list is indexed by the phase for every line, so with a non-empty message
      and phase >= 4 the first line raises IndexError once it has parsed. */
  function SeatLines(rs: seq<Result<SeatLine>>, phase: nat): (r: Result<seq<SeatLine>>)
    ensures r.Ok? ==> |r.value| == |rs| && forall i :: 0 <= i < |rs| ==> rs[i] == Ok(r.value[i])
    ensures r.Ok? ==> rs == [] || phase < 4
    ensures r.Err? ==> rs != [] && (phase >= 4 || exists i :: 0 <= i < |rs| && rs[i].Err?)
    decreases |rs|
  {
    if rs == [] then Ok([])
    else match rs[0]
      case Err(f) => Err(f)
      case Ok(l) =>
        if phase >= 4 then Err(NoPhaseSlot(phase))
        else match SeatLines(rs[1..], phase)
          case Err(f) => Err(f)
          case Ok(ls) => Ok([l] + ls)
  }

  /** A fold the source counts in the fold list of the current phase, which
      does not exist from phase 4 on. Only a player alive at the start of the
      batch can hit it: with phase >= 4 the first such fold raises, so no
      earlier line has removed anybody. */
  predicate NoSlot(l: StatusLine, alive: set<int>, phase: nat)
  {
    l.action == "fold" && l.pid in alive && phase >= 4
  }

  /** The status lines of handle_inquire (all but the last line), given each
      line parsed: each must have parsed, name a seated player, and not hit a
      missing fold slot. */
  function InquireLines(rs: seq<Result<StatusLine>>, pos: map<int, nat>, alive: set<int>, phase: nat): (r: Result<seq<StatusLine>>)
    ensures r.Ok? ==> |r.value| == |rs| && forall i :: 0 <= i < |rs| ==>
      rs[i] == Ok(r.value[i]) && r.value[i].pid in pos && !NoSlot(r.value[i], alive, phase)
    ensures r.Err? ==> exists i :: (0 <= i < |rs| && (rs[i].Err? || rs[i].value.pid !in pos || NoSlot(rs[i].value, alive, phase)))
    decreases |rs|
  {
    if rs == [] then Ok([])
    else match rs[0]
      case Err(f) => Err(f)
      case Ok(l) =>
        if l.pid !in pos then Err(NotSeated(l.pid))
        else if NoSlot(l, alive, phase) then Err(NoPhaseSlot(phase))
        else match InquireLines(rs[1..], pos, alive, phase)
          case Err(f) => Err(f)
          case Ok(ls) => Ok([l] + ls)
  }

  /** A whole inquire body: the status lines, then the pot as the last word of
      the last line (IndexError on an empty message). */
  function InquireBody(msg: seq<string>, pos: map<int, nat>, alive: set<int>, phase: nat): (r: Result<(seq<StatusLine>, int)>)
    ensures msg == [] ==> r == Err(MissingLine)
    ensures r.Ok? ==> (msg != [] && InquireLines(Each(ParseStatus, msg[..|msg| - 1]), pos, alive, phase) == Ok(r.value.0)
      && ParsePot(msg[|msg| - 1]) == Ok(r.value.1))
    ensures msg != [] && InquireLines(Each(ParseStatus, msg[..|msg| - 1]), pos, alive, phase).Ok? && ParsePot(msg[|msg| - 1]).Ok?
      ==> r.Ok?
  {
    if msg == [] then Err(MissingLine)
    else match InquireLines(Each(ParseStatus, msg[..|msg| - 1]), pos, alive, phase)
      case Err(f) => Err(f)
      case Ok(ss) =>
        match ParsePot(msg[|msg| - 1])
        case Err(f) => Err(f)
        case Ok(p) => Ok((ss, p))
  }

  /** A status line of handle_notify has no counter to bump: a recognised
      action of a player without counters, or, before the flop (where the
      preflop update is not guarded by the action test), a player without
      preflop counters or an action that is not a counter key. */
  predicate Uncounted(l: StatusLine, actions: map<int, Stats>, preFlop: map<int, Stats>, preflop: bool)
  {
    (Recognised(l.action) && l.pid !in actions) || (preflop && (l.pid !in preFlop || !IsKey(l.action)))
  }

  /** The status lines of handle_notify (all but the last line), given each
      line parsed. */
  function NotifyLines(rs: seq<Result<StatusLine>>, actions: map<int, Stats>, preFlop: map<int, Stats>, preflop: bool,
                       alive: set<int>, phase: nat): (r: Result<seq<StatusLine>>)
    ensures r.Ok? ==> |r.value| == |rs| && forall i :: 0 <= i < |rs| ==>
      rs[i] == Ok(r.value[i]) && !Uncounted(r.value[i], actions, preFlop, preflop) && !NoSlot(r.value[i], alive, phase)
    ensures r.Err? ==> exists i :: (0 <= i < |rs| && (rs[i].Err?
      || Uncounted(rs[i].value, actions, preFlop, preflop) || NoSlot(rs[i].value, alive, phase)))
    decreases |rs|
  {
    if rs == [] then Ok([])
    else match rs[0]
      case Err(f) => Err(f)
      case Ok(l) =>
        if Uncounted(l, actions, preFlop, preflop) then Err(NoCounter(l.pid, l.action))
        else if NoSlot(l, alive, phase) then Err(NoPhaseSlot(phase))
        else match NotifyLines(rs[1..], actions, preFlop, preflop, alive, phase)
          case Err(f) => Err(f)
          case Ok(ls) => Ok([l] + ls)
  }

  // ---------------------------------------------------------------------------
  // What a batch of status lines does to the preflop counters and flags

  /** The preflop counters of inquire after a batch: counted only while no
      flop card is on the table. */
  function PreAfter(pre: map<int, Stats>, ss: seq<StatusLine>, preflop: bool): map<int, Stats>
  {
    if preflop then Tally(pre, ss) else pre
  }

  /** A raise in phase 0 by another player whose preflop raise rate, counted
      up to and including this line, is below 0.05: a tight player raised. */
  predicate TightAt(pre: map<int, Stats>, l: StatusLine, phase: nat, me: int)
  {
    phase == 0 && l.action == "raise" && l.pid != me && l.pid in pre
    && pre[l.pid].total != 0 && 20 * pre[l.pid].raise < pre[l.pid].total
  }

  /** Whether some line of the batch shows a tight player raising. */
  function TightSeen(pre: map<int, Stats>, ss: seq<StatusLine>, preflop: bool, phase: nat, me: int): bool
    decreases |ss|
  {
    if ss == [] then false
    else TightSeen(pre, ss[..|ss| - 1], preflop, phase, me) || TightAt(PreAfter(pre, ss, preflop), ss[|ss| - 1], phase, me)
  }

  /** Only another player's raise in phase 0 marks a tight raiser. */
  lemma {:induction false} TightNeedsRaiser(pre: map<int, Stats>, ss: seq<StatusLine>, preflop: bool, phase: nat, me: int)
    ensures TightSeen(pre, ss, preflop, phase, me) ==>
      phase == 0 && exists i :: 0 <= i < |ss| && ss[i].action == "raise" && ss[i].pid != me
    decreases |ss|
  {
    if ss != [] {
      TightNeedsRaiser(pre, ss[..|ss| - 1], preflop, phase, me);
      if TightSeen(pre, ss[..|ss| - 1], preflop, phase, me) {
        var i :| 0 <= i < |ss| - 1 && ss[..|ss| - 1][i].action == "raise" && ss[..|ss| - 1][i].pid != me;
        assert ss[i] == ss[..|ss| - 1][i];
      }
    }
  }

  lemma TightStep(pre: map<int, Stats>, ss: seq<StatusLine>, preflop: bool, phase: nat, me: int, i: nat)
    requires i < |ss|
    ensures TightSeen(pre, ss[..i + 1], preflop, phase, me)
      == (TightSeen(pre, ss[..i], preflop, phase, me) || TightAt(PreAfter(pre, ss[..i + 1], preflop), ss[i], phase, me))
  {
    assert ss[..i + 1][..i] == ss[..i];
  }

  /** The loop of handle_seat over lines that all parsed: append a seat,
      point the player at it, enrol its counters and fold entry, mark it
      alive. */
  method SeatLoop(ls: seq<SeatLine>, seats: seq<Seat>, pos: map<int, nat>, actions: map<int, Stats>,
                  preFlop: map<int, Stats>, folds: map<int, nat>)
    returns (st: seq<Seat>, ps: map<int, nat>, ac: map<int, Stats>, pf: map<int, Stats>, fo: map<int, nat>, al: set<int>)
    ensures st == seats + Sits(ls) && ps == Place(pos, |seats|, ls)
    ensures ac == Enrol(actions, ls, Fresh) && pf == Enrol(preFlop, ls, Fresh)
    ensures fo == Enrol(folds, ls, 0) && al == Pids(ls)
  {
    st, ps, ac, pf, fo, al := seats, pos, actions, preFlop, folds, {};
    SeatStart(ls, seats, pos, actions, preFlop, folds);
    var i := 0;
    while i < |ls|
      invariant 0 <= i <= |ls|
      invariant SeatSoFar(ls, i, seats, pos, actions, preFlop, folds, st, ps, ac, pf, fo, al)
    {
      var l := ls[i];
      var ps' := ps[l.pid := |st|];
      var st' := st + [Sit(l)];
      var ac', pf', fo' := SetDefault(ac, l.pid, Fresh), SetDefault(pf, l.pid, Fresh), SetDefault(fo, l.pid, 0);
      var al' := al + {l.pid};
      SeatAdvance(ls, i, seats, pos, actions, preFlop, folds, st, ps, ac, pf, fo, al, st', ps', ac', pf', fo', al');
      st, ps, ac, pf, fo, al := st', ps', ac', pf', fo', al';
      i := i + 1;
    }
    SeatDone(ls, seats, pos, actions, preFlop, folds, st, ps, ac, pf, fo, al);
  }

  /** Before the first seat line nothing has changed. */
  lemma SeatStart(ls: seq<SeatLine>, seats: seq<Seat>, pos: map<int, nat>, actions: map<int, Stats>,
                  preFlop: map<int, Stats>, folds: map<int, nat>)
    ensures SeatSoFar(ls, 0, seats, pos, actions, preFlop, folds, seats, pos, actions, preFlop, folds, {})
  {
    assert ls[..0] == [];
  }

  /** After the last seat line the loop state is the whole message's. */
  lemma SeatDone(ls: seq<SeatLine>, seats: seq<Seat>, pos: map<int, nat>, actions: map<int, Stats>,
                 preFlop: map<int, Stats>, folds: map<int, nat>, st: seq<Seat>, ps: map<int, nat>,
                 ac: map<int, Stats>, pf: map<int, Stats>, fo: map<int, nat>, al: set<int>)
    requires SeatSoFar(ls, |ls|, seats, pos, actions, preFlop, folds, st, ps, ac, pf, fo, al)
    ensures st == seats + Sits(ls) && ps == Place(pos, |seats|, ls)
    ensures ac == Enrol(actions, ls, Fresh) && pf == Enrol(preFlop, ls, Fresh)
    ensures fo == Enrol(folds, ls, 0) && al == Pids(ls)
  {
    assert ls[..|ls|] == ls;
  }

  /** The state of handle_seat's loop after the first i seat lines. */
  ghost predicate SeatSoFar(ls: seq<SeatLine>, i: nat, seats: seq<Seat>, pos: map<int, nat>, actions: map<int, Stats>,
                            preFlop: map<int, Stats>, folds: map<int, nat>, st: seq<Seat>, ps: map<int, nat>,
                            ac: map<int, Stats>, pf: map<int, Stats>, fo: map<int, nat>, al: set<int>)
  {
    && i <= |ls|
    && st == seats + Sits(ls[..i]) && ps == Place(pos, |seats|, ls[..i])
    && ac == Enrol(actions, ls[..i], Fresh) && pf == Enrol(preFlop, ls[..i], Fresh)
    && fo == Enrol(folds, ls[..i], 0) && al == Pids(ls[..i])
  }

  /** The i-th seat line takes the loop state from i lines to i + 1. */
  lemma SeatAdvance(ls: seq<SeatLine>, i: nat, seats: seq<Seat>, pos: map<int, nat>, actions: map<int, Stats>,
                    preFlop: map<int, Stats>, folds: map<int, nat>, st: seq<Seat>, ps: map<int, nat>,
                    ac: map<int, Stats>, pf: map<int, Stats>, fo: map<int, nat>, al: set<int>,
                    st': seq<Seat>, ps': map<int, nat>, ac': map<int, Stats>, pf': map<int, Stats>,
                    fo': map<int, nat>, al': set<int>)
    requires i < |ls| && SeatSoFar(ls, i, seats, pos, actions, preFlop, folds, st, ps, ac, pf, fo, al)
    requires ps' == ps[ls[i].pid := |st|] && st' == st + [Sit(ls[i])]
    requires ac' == SetDefault(ac, ls[i].pid, Fresh) && pf' == SetDefault(pf, ls[i].pid, Fresh)
    requires fo' == SetDefault(fo, ls[i].pid, 0) && al' == al + {ls[i].pid}
    ensures SeatSoFar(ls, i + 1, seats, pos, actions, preFlop, folds, st', ps', ac', pf', fo', al')
  {
    var next := ls[..i + 1];
    SeatStep(seats, pos, ls, i);
    assert |st| == |seats| + i;
    assert ac' == Enrol(actions, next, Fresh) by {
      EnrolStep(actions, ls, i, Fresh);
    }
    assert pf' == Enrol(preFlop, next, Fresh) by {
      EnrolStep(preFlop, ls, i, Fresh);
    }
    assert fo' == Enrol(folds, next, 0) by {
      EnrolStep(folds, ls, i, 0);
    }
  }

  /** The body of handle_inquire's loop for one status line: write the seat,
      raise the outer bet, count a recognised action (before the flop also
      in the preflop counters), mark a tight raiser, strike a folding player
      from the alive set, and note an aggressor. */
  method InquireLine(l: StatusLine, me: int, phase: nat, preflop: bool, pos: map<int, nat>, st: seq<Seat>, ob: int,
                     ac: map<int, Stats>, pf: map<int, Stats>, ti: bool, al: set<int>, fo: map<int, nat>, en: set<int>)
    returns (st': seq<Seat>, ob': int, ac': map<int, Stats>, pf': map<int, Stats>, ti': bool, al': set<int>,
             fo': map<int, nat>, en': set<int>)
    requires l.pid in pos && pos[l.pid] < |st| && l.pid in ac && l.pid in pf && al <= fo.Keys
    ensures st' == st[pos[l.pid] := Post(st[pos[l.pid]], l)] && ob' == (if ob >= l.bet then ob else l.bet)
    ensures ac' == Tick(ac, l) && pf' == (if preflop then Tick(pf, l) else pf)
    ensures ti' == (ti || TightAt(pf', l, phase, me))
    ensures al' == al - (if l.action == "fold" then {l.pid} else {}) && fo' == Strike(fo, al, l)
    ensures en' == en + (if Aggressive(l.action) then {l.pid} else {})
  {
    var k := pos[l.pid];
    st' := st[k := Post(st[k], l)];
    ob' := if ob >= l.bet then ob else l.bet;
    ac', pf', ti', al', fo', en' := ac, pf, ti, al, fo, en;
    if Recognised(l.action) {
      ac' := ac[l.pid := Note(ac[l.pid], l.action)];
      if preflop {
        pf' := pf[l.pid := Note(pf[l.pid], l.action)];
      }
    }
    if phase == 0 && l.action == "raise" && l.pid != me {
      if pf'[l.pid].total != 0 {
        if 20 * pf'[l.pid].raise < pf'[l.pid].total {
          ti' := true;
        }
      }
    }
    if l.action == "fold" && l.pid in al {
      al' := al - {l.pid};
      fo' := fo[l.pid := fo[l.pid] + 1];
    }
    if Aggressive(l.action) {
      en' := en + {l.pid};
    }
  }

  /** The loop of handle_inquire over status lines that all parsed and name
      seated players. */
  method InquireLoop(ss: seq<StatusLine>, me: int, phase: nat, preflop: bool, seats: seq<Seat>, pos: map<int, nat>,
                     outer: int, actions: map<int, Stats>, preFlop: map<int, Stats>, tight: bool, alive: set<int>,
                     folds: map<int, nat>)
    returns (st: seq<Seat>, ob: int, ac: map<int, Stats>, pf: map<int, Stats>, ti: bool, al: set<int>,
             fo: map<int, nat>, en: set<int>)
    requires Kept(seats, pos, actions, preFlop, folds, alive) && forall j :: 0 <= j < |ss| ==> ss[j].pid in pos
    ensures st == Posted(seats, pos, ss) && ob == MaxBet(outer, ss)
    ensures ac == Tally(actions, ss) && pf == PreAfter(preFlop, ss, preflop)
    ensures ti == (tight || TightSeen(preFlop, ss, preflop, phase, me))
    ensures al == alive - Folders(ss) && fo == FoldBumps(folds, alive, ss) && en == Aggressors(ss)
    ensures Kept(st, pos, ac, pf, fo, al)
  {
    st, ob, ac, pf, ti, al, fo, en := seats, outer, actions, preFlop, tight, alive, folds, {};
    InquireStart(ss, me, phase, preflop, seats, pos, outer, actions, preFlop, tight, alive, folds);
    var i := 0;
    while i < |ss|
      invariant 0 <= i <= |ss|
      invariant InquireSoFar(ss, i, me, phase, preflop, seats, pos, outer, actions, preFlop, tight, alive, folds,
                             st, ob, ac, pf, ti, al, fo, en)
    {
      InquireReady(ss, i, me, phase, preflop, seats, pos, outer, actions, preFlop, tight, alive, folds,
                   st, ob, ac, pf, ti, al, fo, en);
      var st', ob', ac', pf', ti', al', fo', en' := InquireLine(ss[i], me, phase, preflop, pos, st, ob, ac, pf, ti, al, fo, en);
      InquireAdvance(ss, i, me, phase, preflop, seats, pos, outer, actions, preFlop, tight, alive, folds,
                     st, ob, ac, pf, ti, al, fo, en, st', ob', ac', pf', ti', al', fo', en');
      st, ob, ac, pf, ti, al, fo, en := st', ob', ac', pf', ti', al', fo', en';
      i := i + 1;
    }
    InquireDone(ss, me, phase, preflop, seats, pos, outer, actions, preFlop, tight, alive, folds,
                st, ob, ac, pf, ti, al, fo, en);
    InquireKeeps(seats, pos, actions, preFlop, folds, alive, ss, preflop, st, ac, pf, fo, al);
  }

  /** Before the first status line nothing has changed. */
  lemma InquireStart(ss: seq<StatusLine>, me: int, phase: nat, preflop: bool, seats: seq<Seat>,
                     pos: map<int, nat>, outer: int, actions: map<int, Stats>, preFlop: map<int, Stats>,
                     tight: bool, alive: set<int>, folds: map<int, nat>)
    requires Indexes(seats, pos) && forall j :: 0 <= j < |ss| ==> ss[j].pid in pos
    ensures InquireSoFar(ss, 0, me, phase, preflop, seats, pos, outer, actions, preFlop, tight, alive, folds,
                         seats, outer, actions, preFlop, tight, alive, folds, {})
  {
    assert ss[..0] == [];
  }

  /** After the last status line the loop state is the whole batch's. */
  lemma InquireDone(ss: seq<StatusLine>, me: int, phase: nat, preflop: bool, seats: seq<Seat>,
                    pos: map<int, nat>, outer: int, actions: map<int, Stats>, preFlop: map<int, Stats>,
                    tight: bool, alive: set<int>, folds: map<int, nat>,
                    st: seq<Seat>, ob: int, ac: map<int, Stats>, pf: map<int, Stats>, ti: bool, al: set<int>,
                    fo: map<int, nat>, en: set<int>)
    requires InquireSoFar(ss, |ss|, me, phase, preflop, seats, pos, outer, actions, preFlop, tight, alive, folds,
                          st, ob, ac, pf, ti, al, fo, en)
    ensures st == Posted(seats, pos, ss) && ob == MaxBet(outer, ss)
    ensures ac == Tally(actions, ss) && pf == PreAfter(preFlop, ss, preflop)
    ensures ti == (tight || TightSeen(preFlop, ss, preflop, phase, me))
    ensures al == alive - Folders(ss) && fo == FoldBumps(folds, alive, ss) && en == Aggressors(ss)
  {
    assert ss[..|ss|] == ss;
  }

  /** The state of handle_inquire's loop after the first i status lines. */
  ghost predicate InquireSoFar(ss: seq<StatusLine>, i: nat, me: int, phase: nat, preflop: bool, seats: seq<Seat>,
                               pos: map<int, nat>, outer: int, actions: map<int, Stats>, preFlop: map<int, Stats>,
                               tight: bool, alive: set<int>, folds: map<int, nat>,
                               st: seq<Seat>, ob: int, ac: map<int, Stats>, pf: map<int, Stats>, ti: bool, al: set<int>,
                               fo: map<int, nat>, en: set<int>)
  {
    && i <= |ss| && Indexes(seats, pos) && (forall j :: 0 <= j < |ss| ==> ss[j].pid in pos)
    && st == Posted(seats, pos, ss[..i]) && ob == MaxBet(outer, ss[..i])
    && ac == Tally(actions, ss[..i]) && pf == PreAfter(preFlop, ss[..i], preflop)
    && ti == (tight || TightSeen(preFlop, ss[..i], preflop, phase, me))
    && al == alive - Folders(ss[..i]) && fo == FoldBumps(folds, alive, ss[..i])
    && en == Aggressors(ss[..i])
  }

  /** Before the i-th status line the loop state meets the line's needs. */
  lemma InquireReady(ss: seq<StatusLine>, i: nat, me: int, phase: nat, preflop: bool, seats: seq<Seat>,
                     pos: map<int, nat>, outer: int, actions: map<int, Stats>, preFlop: map<int, Stats>,
                     tight: bool, alive: set<int>, folds: map<int, nat>,
                     st: seq<Seat>, ob: int, ac: map<int, Stats>, pf: map<int, Stats>, ti: bool, al: set<int>,
                     fo: map<int, nat>, en: set<int>)
    requires Indexes(seats, pos) && pos.Keys <= actions.Keys && actions.Keys == preFlop.Keys
    requires alive <= folds.Keys && forall j :: 0 <= j < |ss| ==> ss[j].pid in pos
    requires i < |ss| && InquireSoFar(ss, i, me, phase, preflop, seats, pos, outer, actions, preFlop, tight, alive,
                                      folds, st, ob, ac, pf, ti, al, fo, en)
    ensures ss[i].pid in pos && pos[ss[i].pid] < |st| && ss[i].pid in ac && ss[i].pid in pf && al <= fo.Keys
  {
    assert ss[i].pid in pos;
  }

  /** The i-th status line takes the loop state from i lines to i + 1. */
  lemma InquireAdvance(ss: seq<StatusLine>, i: nat, me: int, phase: nat, preflop: bool, seats: seq<Seat>,
                       pos: map<int, nat>, outer: int, actions: map<int, Stats>, preFlop: map<int, Stats>,
                       tight: bool, alive: set<int>, folds: map<int, nat>,
                       st: seq<Seat>, ob: int, ac: map<int, Stats>, pf: map<int, Stats>, ti: bool, al: set<int>,
                       fo: map<int, nat>, en: set<int>,
                       st': seq<Seat>, ob': int, ac': map<int, Stats>, pf': map<int, Stats>, ti': bool, al': set<int>,
                       fo': map<int, nat>, en': set<int>)
    requires Indexes(seats, pos) && forall j :: 0 <= j < |ss| ==> ss[j].pid in pos
    requires i < |ss| && InquireSoFar(ss, i, me, phase, preflop, seats, pos, outer, actions, preFlop, tight, alive,
                                      folds, st, ob, ac, pf, ti, al, fo, en)
    requires pos[ss[i].pid] < |st|
    requires st' == st[pos[ss[i].pid] := Post(st[pos[ss[i].pid]], ss[i])] && ob' == (if ob >= ss[i].bet then ob else ss[i].bet)
    requires ac' == Tick(ac, ss[i]) && pf' == (if preflop then Tick(pf, ss[i]) else pf)
    requires ti' == (ti || TightAt(pf', ss[i], phase, me))
    requires al' == al - (if ss[i].action == "fold" then {ss[i].pid} else {}) && fo' == Strike(fo, al, ss[i])
    requires en' == en + (if Aggressive(ss[i].action) then {ss[i].pid} else {})
    ensures InquireSoFar(ss, i + 1, me, phase, preflop, seats, pos, outer, actions, preFlop, tight, alive, folds,
                         st', ob', ac', pf', ti', al', fo', en')
  {
    PostedStep(seats, pos, ss, i);
    MaxBetStep(outer, ss, i);
    TallyStep(actions, ss, i);
    TallyStep(preFlop, ss, i);
    TightStep(preFlop, ss, preflop, phase, me, i);
    BatchStep(folds, alive, ss, i);
  }

  /** The body of handle_notify's loop for one status line: count a
      recognised action, before the flop count any action in the preflop
      counters, and strike a folding player from the alive set. */
  method NotifyLine(l: StatusLine, preflop: bool, ac: map<int, Stats>, pf: map<int, Stats>, al: set<int>,
                    fo: map<int, nat>)
    returns (ac': map<int, Stats>, pf': map<int, Stats>, al': set<int>, fo': map<int, nat>)
    requires !Uncounted(l, ac, pf, preflop) && al <= fo.Keys
    ensures ac' == Tick(ac, l) && pf' == (if preflop then Mark(pf, l) else pf)
    ensures al' == al - (if l.action == "fold" then {l.pid} else {}) && fo' == Strike(fo, al, l)
  {
    ac', pf', al', fo' := ac, pf, al, fo;
    if Recognised(l.action) {
      ac' := ac[l.pid := Note(ac[l.pid], l.action)];
    }
    if preflop {
      pf' := pf[l.pid := Note(pf[l.pid], l.action)];
    }
    if l.action == "fold" && l.pid in al {
      al' := al - {l.pid};
      fo' := fo[l.pid := fo[l.pid] + 1];
    }
  }

  /** The loop of handle_notify over status lines that all parsed and have
      counters to bump. */
  method NotifyLoop(ss: seq<StatusLine>, preflop: bool, actions: map<int, Stats>, preFlop: map<int, Stats>,
                    alive: set<int>, folds: map<int, nat>)
    returns (ac: map<int, Stats>, pf: map<int, Stats>, al: set<int>, fo: map<int, nat>)
    requires alive <= folds.Keys
    requires forall j :: 0 <= j < |ss| ==> !Uncounted(ss[j], actions, preFlop, preflop)
    ensures ac == Tally(actions, ss) && (preflop ==> Keyed(ss) && pf == Noted(preFlop, ss)) && (!preflop ==> pf == preFlop)
    ensures al == alive - Folders(ss) && fo == FoldBumps(folds, alive, ss)
  {
    ac, pf, al, fo := actions, preFlop, alive, folds;
    NotifyStart(ss, preflop, actions, preFlop, alive, folds);
    var i := 0;
    while i < |ss|
      invariant 0 <= i <= |ss|
      invariant NotifySoFar(ss, i, preflop, actions, preFlop, alive, folds, ac, pf, al, fo)
    {
      NotifyReady(ss, i, preflop, actions, preFlop, alive, folds, ac, pf, al, fo);
      var ac', pf', al', fo' := NotifyLine(ss[i], preflop, ac, pf, al, fo);
      NotifyAdvance(ss, i, preflop, actions, preFlop, alive, folds, ac, pf, al, fo, ac', pf', al', fo');
      ac, pf, al, fo := ac', pf', al', fo';
      i := i + 1;
    }
    NotifyDone(ss, preflop, actions, preFlop, alive, folds, ac, pf, al, fo);
  }

  /** Before the first status line nothing has changed. */
  lemma NotifyStart(ss: seq<StatusLine>, preflop: bool, actions: map<int, Stats>, preFlop: map<int, Stats>,
                    alive: set<int>, folds: map<int, nat>)
    requires alive <= folds.Keys
    requires forall j :: 0 <= j < |ss| ==> !Uncounted(ss[j], actions, preFlop, preflop)
    ensures NotifySoFar(ss, 0, preflop, actions, preFlop, alive, folds, actions, preFlop, alive, folds)
  {
    assert ss[..0] == [];
  }

  /** After the last status line the loop state is the whole batch's. */
  lemma NotifyDone(ss: seq<StatusLine>, preflop: bool, actions: map<int, Stats>, preFlop: map<int, Stats>,
                   alive: set<int>, folds: map<int, nat>,
                   ac: map<int, Stats>, pf: map<int, Stats>, al: set<int>, fo: map<int, nat>)
    requires NotifySoFar(ss, |ss|, preflop, actions, preFlop, alive, folds, ac, pf, al, fo)
    ensures ac == Tally(actions, ss) && (preflop ==> Keyed(ss) && pf == Noted(preFlop, ss)) && (!preflop ==> pf == preFlop)
    ensures al == alive - Folders(ss) && fo == FoldBumps(folds, alive, ss)
  {
    assert ss[..|ss|] == ss;
  }

  /** The state of handle_notify's loop after the first i status lines. */
  ghost predicate NotifySoFar(ss: seq<StatusLine>, i: nat, preflop: bool, actions: map<int, Stats>,
                              preFlop: map<int, Stats>, alive: set<int>, folds: map<int, nat>,
                              ac: map<int, Stats>, pf: map<int, Stats>, al: set<int>, fo: map<int, nat>)
  {
    && i <= |ss| && alive <= folds.Keys
    && (forall j :: 0 <= j < |ss| ==> !Uncounted(ss[j], actions, preFlop, preflop))
    && ac == Tally(actions, ss[..i])
    && (preflop ==> Keyed(ss[..i]) && pf == Noted(preFlop, ss[..i]))
    && (!preflop ==> pf == preFlop)
    && al == alive - Folders(ss[..i]) && fo == FoldBumps(folds, alive, ss[..i])
  }

  /** Before the i-th status line the loop state has its counters. */
  lemma NotifyReady(ss: seq<StatusLine>, i: nat, preflop: bool, actions: map<int, Stats>,
                    preFlop: map<int, Stats>, alive: set<int>, folds: map<int, nat>,
                    ac: map<int, Stats>, pf: map<int, Stats>, al: set<int>, fo: map<int, nat>)
    requires i < |ss| && NotifySoFar(ss, i, preflop, actions, preFlop, alive, folds, ac, pf, al, fo)
    ensures !Uncounted(ss[i], ac, pf, preflop) && al <= fo.Keys
  {
    assert !Uncounted(ss[i], actions, preFlop, preflop);
  }

  /** The i-th status line takes the loop state from i lines to i + 1. */
  lemma NotifyAdvance(ss: seq<StatusLine>, i: nat, preflop: bool, actions: map<int, Stats>,
                      preFlop: map<int, Stats>, alive: set<int>, folds: map<int, nat>,
                      ac: map<int, Stats>, pf: map<int, Stats>, al: set<int>, fo: map<int, nat>,
                      ac': map<int, Stats>, pf': map<int, Stats>, al': set<int>, fo': map<int, nat>)
    requires i < |ss| && NotifySoFar(ss, i, preflop, actions, preFlop, alive, folds, ac, pf, al, fo)
    requires preflop ==> IsKey(ss[i].action)
    requires ac' == Tick(ac, ss[i]) && pf' == (if preflop then Mark(pf, ss[i]) else pf)
    requires al' == al - (if ss[i].action == "fold" then {ss[i].pid} else {}) && fo' == Strike(fo, al, ss[i])
    ensures NotifySoFar(ss, i + 1, preflop, actions, preFlop, alive, folds, ac', pf', al', fo')
  {
    TallyStep(actions, ss, i);
    BatchStep(folds, alive, ss, i);
    if preflop {
      assert Keyed(ss[..i + 1]) by {
        assert !Uncounted(ss[i], actions, preFlop, preflop);
      }
      NotedStep(preFlop, ss, i);
    }
  }

  /** Every seated player has both counter dictionaries and a fold entry,
      every alive player is seated, the position index points at the
      players' seats, the action counters add up, and no preflop counter
      exceeds its total. */
  ghost predicate Kept(seats: seq<Seat>, pos: map<int, nat>, actions: map<int, Stats>, preFlop: map<int, Stats>,
                       folds: map<int, nat>, alive: set<int>)
  {
    && actions.Keys == preFlop.Keys
    && pos.Keys <= actions.Keys && pos.Keys <= folds.Keys
    && alive <= pos.Keys
    && Indexes(seats, pos)
    && AllConsistent(actions) && AllBounded(preFlop)
  }

  /** A seat message keeps the bookkeeping in shape. */
  lemma SeatKeeps(seats: seq<Seat>, pos: map<int, nat>, actions: map<int, Stats>, preFlop: map<int, Stats>,
                  folds: map<int, nat>, alive: set<int>, ls: seq<SeatLine>,
                  st: seq<Seat>, ps: map<int, nat>, ac: map<int, Stats>, pf: map<int, Stats>, fo: map<int, nat>,
                  al: set<int>)
    requires Kept(seats, pos, actions, preFlop, folds, alive)
    requires st == seats + Sits(ls) && ps == Place(pos, |seats|, ls)
    requires ac == Enrol(actions, ls, Fresh) && pf == Enrol(preFlop, ls, Fresh)
    requires fo == Enrol(folds, ls, 0) && al == Pids(ls)
    ensures Kept(st, ps, ac, pf, fo, al)
  {
    PlaceShape(seats, pos, ls);
    EnrolConsistent(actions, ls);
    EnrolBounded(preFlop, ls);
    assert ps.Keys == pos.Keys + al && ac.Keys == actions.Keys + al && pf.Keys == preFlop.Keys + al;
    assert fo.Keys == folds.Keys + al;
  }

  /** Emptying the table keeps the bookkeeping in shape. */
  lemma ClearKeeps(seats: seq<Seat>, pos: map<int, nat>, actions: map<int, Stats>, preFlop: map<int, Stats>,
                   folds: map<int, nat>, alive: set<int>)
    requires Kept(seats, pos, actions, preFlop, folds, alive)
    ensures Kept([], map[], actions, preFlop, folds, {})
  {
  }

  /** An inquire's status lines keep the bookkeeping in shape. */
  lemma InquireKeeps(seats: seq<Seat>, pos: map<int, nat>, actions: map<int, Stats>, preFlop: map<int, Stats>,
                     folds: map<int, nat>, alive: set<int>, ss: seq<StatusLine>, preflop: bool,
                     st: seq<Seat>, ac: map<int, Stats>, pf: map<int, Stats>, fo: map<int, nat>, al: set<int>)
    requires Kept(seats, pos, actions, preFlop, folds, alive) && forall i :: 0 <= i < |ss| ==> ss[i].pid in pos
    requires st == Posted(seats, pos, ss) && ac == Tally(actions, ss) && pf == PreAfter(preFlop, ss, preflop)
    requires fo == FoldBumps(folds, alive, ss) && al == alive - Folders(ss)
    ensures Kept(st, pos, ac, pf, fo, al)
  {
    SamePlayersIndex(seats, st, pos);
    TallyConsistent(actions, ss);
    TallyBounded(preFlop, ss);
  }

  /** A notify's status lines keep the bookkeeping in shape. */
  lemma NoticeKeeps(seats: seq<Seat>, pos: map<int, nat>, actions: map<int, Stats>, preFlop: map<int, Stats>,
                    folds: map<int, nat>, alive: set<int>, ss: seq<StatusLine>, preflop: bool,
                    ac: map<int, Stats>, pf: map<int, Stats>, fo: map<int, nat>, al: set<int>)
    requires Kept(seats, pos, actions, preFlop, folds, alive)
    requires ac == Tally(actions, ss) && (preflop ==> Keyed(ss) && pf == Noted(preFlop, ss)) && (!preflop ==> pf == preFlop)
    requires fo == FoldBumps(folds, alive, ss) && al == alive - Folders(ss)
    ensures Kept(seats, pos, ac, pf, fo, al)
  {
    TallyConsistent(actions, ss);
    if preflop {
      NotedKeeps(preFlop, ss);
    }
  }
}
