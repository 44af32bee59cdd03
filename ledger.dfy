/** The bookkeeping both clients keep about the table: the per-player action
    counters, the seat records and the position index, and what a batch of
    seat, blind or status lines does to them. Each batch function folds the
    lines left to right, as the handlers' for loops do. */
module Ledger {
  import opened Wire

  // ---------------------------------------------------------------------------
  // Action counters

  /** One player's counter dictionary, with the keys 'total', 'all_in',
      'raise', 'call', 'fold' and 'check'. */
  datatype Stats = Stats(total: nat, allIn: nat, raise: nat, call: nat, fold: nat, check: nat)

  const Fresh: Stats := Stats(0, 0, 0, 0, 0, 0)

  /** The action names the handlers count. */
  predicate Recognised(a: string)
  {
    a == "all_in" || a == "raise" || a == "call" || a == "fold" || a == "check"
  }

  /** The action names that put a player into `enemy`. */
  predicate Aggressive(a: string)
  {
    a == "raise" || a == "call" || a == "all_in"
  }

  /** The keys of a counter dictionary. */
  predicate IsKey(k: string)
  {
    k == "total" || Recognised(k)
  }

  function Count(s: Stats, k: string): nat
    requires IsKey(k)
  {
    if k == "total" then s.total
    else if k == "all_in" then s.allIn
    else if k == "raise" then s.raise
    else if k == "call" then s.call
    else if k == "fold" then s.fold
    else s.check
  }

  /** counter[k] += 1, for a key the dictionary has. */
  function Bump(s: Stats, k: string): (r: Stats)
    requires IsKey(k)
    ensures Count(r, k) == Count(s, k) + 1
    ensures forall k' :: IsKey(k') && k' != k ==> Count(r, k') == Count(s, k')
  {
    if k == "total" then s.(total := s.total + 1)
    else if k == "all_in" then s.(allIn := s.allIn + 1)
    else if k == "raise" then s.(raise := s.raise + 1)
    else if k == "call" then s.(call := s.call + 1)
    else if k == "fold" then s.(fold := s.fold + 1)
    else s.(check := s.check + 1)
  }

  /** `total` is the sum of the five action counters. */
  predicate Consistent(s: Stats)
  {
    s.total == s.allIn + s.raise + s.call + s.fold + s.check
  }

  /** No action counter exceeds `total`. */
  predicate Bounded(s: Stats)
  {
    s.allIn <= s.total && s.raise <= s.total && s.call <= s.total && s.fold <= s.total && s.check <= s.total
  }

  /** counter[k] += 1; counter['total'] += 1. For a recognised action this
      keeps the counters consistent; for k == 'total' it adds two to the
      total. Either way no counter overtakes the total. */
  function Note(s: Stats, k: string): (r: Stats)
    requires IsKey(k)
    ensures Recognised(k) ==> Count(r, k) == Count(s, k) + 1 && r.total == s.total + 1
    ensures k == "total" ==> r.total == s.total + 2
    ensures forall k' :: Recognised(k') && k' != k ==> Count(r, k') == Count(s, k')
    ensures Recognised(k) && Consistent(s) ==> Consistent(r)
    ensures Bounded(s) ==> Bounded(r)
  {
    Bump(Bump(s, k), "total")
  }

  predicate AllConsistent(m: map<int, Stats>)
  {
    forall p :: p in m ==> Consistent(m[p])
  }

  predicate AllBounded(m: map<int, Stats>)
  {
    forall p :: p in m ==> Bounded(m[p])
  }

  // ---------------------------------------------------------------------------
  // Seats

  /** A seat dictionary; `action` is absent until a status line sets it. */
  datatype Seat = Seated(pid: int, jetton: int, money: int, bet: int, action: Option<string>)

  /** `pos` points every key at a seat of that player. */
  predicate Indexes(seats: seq<Seat>, pos: map<int, nat>)
  {
    forall p :: p in pos ==> pos[p] < |seats| && seats[pos[p]].pid == p
  }

  /** Two seats agree on their players. */
  predicate SamePlayers(a: seq<Seat>, b: seq<Seat>)
  {
    |a| == |b| && forall i :: 0 <= i < |a| ==> a[i].pid == b[i].pid
  }

  lemma SamePlayersIndex(a: seq<Seat>, b: seq<Seat>, pos: map<int, nat>)
    requires Indexes(a, pos) && SamePlayers(a, b)
    ensures Indexes(b, pos)
  {
  }

  /** The seat a seat line creates: no bet yet and no action. */
  function Sit(l: SeatLine): Seat
  {
    Seated(l.pid, l.jetton, l.money, 0, None)
  }

  /** The seats a seat message appends, one per line. */
  function Sits(ls: seq<SeatLine>): (r: seq<Seat>)
    ensures |r| == |ls|
    decreases |ls|
  {
    if ls == [] then [] else Sits(ls[..|ls| - 1]) + [Sit(ls[|ls| - 1])]
  }

  /** The i-th appended seat is the i-th line's. */
  lemma {:induction false} SitsAt(ls: seq<SeatLine>, i: nat)
    requires i < |ls|
    ensures Sits(ls)[i] == Sit(ls[i])
    decreases |ls|
  {
    if i < |ls| - 1 {
      SitsAt(ls[..|ls| - 1], i);
    }
  }

  /** The players a seat message names. */
  function Pids(ls: seq<SeatLine>): set<int>
    decreases |ls|
  {
    if ls == [] then {} else Pids(ls[..|ls| - 1]) + {ls[|ls| - 1].pid}
  }

  /** A player is named exactly when one of the lines is its. */
  lemma {:induction false} PidsAre(ls: seq<SeatLine>, p: int)
    ensures p in Pids(ls) <==> exists i :: 0 <= i < |ls| && ls[i].pid == p
    decreases |ls|
  {
    if ls != [] {
      var init := ls[..|ls| - 1];
      PidsAre(init, p);
      if p in Pids(init) {
        var i :| 0 <= i < |init| && init[i].pid == p;
        assert ls[i] == init[i];
      }
      if exists i :: 0 <= i < |ls| && ls[i].pid == p {
        var i :| 0 <= i < |ls| && ls[i].pid == p;
        if i < |init| {
          assert init[i] == ls[i];
        }
      }
    }
  }

  /** `if p not in d: d[p] = v`. */
  function SetDefault<V>(m: map<int, V>, p: int, v: V): (r: map<int, V>)
    ensures r.Keys == m.Keys + {p} && (p in m ==> r == m) && (p !in m ==> r[p] == v)
  {
    if p in m then m else m[p := v]
  }

  /** `if pid not in d: d[pid] = v` for the pid of every line: new entries
      start at `v` and existing entries are kept. */
  function Enrol<V>(m: map<int, V>, ls: seq<SeatLine>, v: V): (r: map<int, V>)
    ensures r.Keys == m.Keys + Pids(ls)
    decreases |ls|
  {
    if ls == [] then m else SetDefault(Enrol(m, ls[..|ls| - 1], v), ls[|ls| - 1].pid, v)
  }

  /** Enrolling keeps every existing entry and gives every newly named
      player the default. */
  lemma {:induction false} EnrolAt<V>(m: map<int, V>, ls: seq<SeatLine>, v: V, p: int)
    ensures p in m ==> Enrol(m, ls, v)[p] == m[p]
    ensures p in Pids(ls) && p !in m ==> Enrol(m, ls, v)[p] == v
    decreases |ls|
  {
    if ls != [] {
      EnrolAt(m, ls[..|ls| - 1], v, p);
    }
  }

  /** Giving one player fresh counters keeps both properties. */
  lemma SetDefaultKeeps(m: map<int, Stats>, p: int)
    ensures AllConsistent(m) ==> AllConsistent(SetDefault(m, p, Fresh))
    ensures AllBounded(m) ==> AllBounded(SetDefault(m, p, Fresh))
  {
  }

  /** Enrolling with fresh counters keeps every counter set consistent. */
  lemma {:induction false} EnrolConsistent(m: map<int, Stats>, ls: seq<SeatLine>)
    requires AllConsistent(m)
    ensures AllConsistent(Enrol(m, ls, Fresh))
    decreases |ls|
  {
    if ls != [] {
      var t := Enrol(m, ls[..|ls| - 1], Fresh);
      EnrolConsistent(m, ls[..|ls| - 1]);
      SetDefaultKeeps(t, ls[|ls| - 1].pid);
    }
  }

  lemma {:induction false} EnrolBounded(m: map<int, Stats>, ls: seq<SeatLine>)
    requires AllBounded(m)
    ensures AllBounded(Enrol(m, ls, Fresh))
    decreases |ls|
  {
    if ls != [] {
      var t := Enrol(m, ls[..|ls| - 1], Fresh);
      EnrolBounded(m, ls[..|ls| - 1]);
      SetDefaultKeeps(t, ls[|ls| - 1].pid);
    }
  }

  /** One more seat line enrols its player unless it has an entry. */
  lemma EnrolStep<V>(m: map<int, V>, ls: seq<SeatLine>, i: nat, v: V)
    requires i < |ls|
    ensures Enrol(m, ls[..i + 1], v) == SetDefault(Enrol(m, ls[..i], v), ls[i].pid, v)
  {
    assert ls[..i + 1][..i] == ls[..i];
  }

  /** One more seat line, as handle_seat's loop applies it. */
  lemma SeatStep(seats: seq<Seat>, pos: map<int, nat>, ls: seq<SeatLine>, i: nat)
    requires i < |ls|
    ensures seats + Sits(ls[..i + 1]) == (seats + Sits(ls[..i])) + [Sit(ls[i])]
    ensures |seats + Sits(ls[..i])| == |seats| + i
    ensures Place(pos, |seats|, ls[..i + 1]) == Place(pos, |seats|, ls[..i])[ls[i].pid := |seats| + i]
    ensures Pids(ls[..i + 1]) == Pids(ls[..i]) + {ls[i].pid}
  {
    assert ls[..i + 1][..i] == ls[..i];
    Assoc(seats, Sits(ls[..i]), [Sit(ls[i])]);
  }

  /** `pos[pid] = len(seats)` before each append, starting from `n` seats. */
  function Place(pos: map<int, nat>, n: nat, ls: seq<SeatLine>): map<int, nat>
    decreases |ls|
  {
    if ls == [] then pos
    else Place(pos, n, ls[..|ls| - 1])[ls[|ls| - 1].pid := n + |ls| - 1]
  }

  /** The index of the last line of `ls` for player p. */
  function LastSeat(ls: seq<SeatLine>, p: int): (k: int)
    ensures -1 <= k < |ls| && (k >= 0 ==> ls[k].pid == p) && (k >= 0 <==> p in Pids(ls))
    ensures forall i :: k < i < |ls| ==> ls[i].pid != p
    decreases |ls|
  {
    if ls == [] then -1
    else if ls[|ls| - 1].pid == p then |ls| - 1
    else LastSeat(ls[..|ls| - 1], p)
  }

  /** Seating appends one fresh seat per line and points each seated player
      at the seat of its last line, so every seated player's record carries
      its own pid and a zero bet; players already indexed and not seated again
      keep their position. */
  lemma {:induction false} PlaceIndexes(seats: seq<Seat>, pos: map<int, nat>, ls: seq<SeatLine>)
    requires Indexes(seats, pos)
    ensures var pos', seats' := Place(pos, |seats|, ls), seats + Sits(ls);
      && pos'.Keys == pos.Keys + Pids(ls)
      && Indexes(seats', pos')
      && (forall p :: p in Pids(ls) ==> pos'[p] == |seats| + LastSeat(ls, p) && seats'[pos'[p]] == Sit(ls[LastSeat(ls, p)]))
      && (forall p :: p in pos && p !in Pids(ls) ==> pos'[p] == pos[p])
    decreases |ls|
  {
    if ls != [] {
      var init, l := ls[..|ls| - 1], ls[|ls| - 1];
      PlaceIndexes(seats, pos, init);
      var n := |seats|;
      var s0, s1 := seats + Sits(init), seats + Sits(ls);
      Assoc(seats, Sits(init), [Sit(l)]);
      forall p | p in Pids(ls) && p != l.pid ensures LastSeat(ls, p) == LastSeat(init, p) {
      }
    }
  }

  /** The part of PlaceIndexes the player's invariant needs. */
  lemma PlaceShape(seats: seq<Seat>, pos: map<int, nat>, ls: seq<SeatLine>)
    requires Indexes(seats, pos)
    ensures Place(pos, |seats|, ls).Keys == pos.Keys + Pids(ls)
    ensures Indexes(seats + Sits(ls), Place(pos, |seats|, ls))
  {
    PlaceIndexes(seats, pos, ls);
  }

  /** The position index is injective while it indexes the seats. */
  lemma IndexesInjective(seats: seq<Seat>, pos: map<int, nat>, p: int, q: int)
    requires Indexes(seats, pos) && p in pos && q in pos && p != q
    ensures pos[p] != pos[q]
  {
  }

  // ---------------------------------------------------------------------------
  // Blinds

  /** The player a blind line names. */
  function BlindPid(l: BlindLine): int { l.pid }

  /** The player a status line names. */
  function StatusPid(l: StatusLine): int { l.pid }

  /** The lookup `pos[pid]` both clients make for each parsed line of a
      blind body (handle_blind) and, in the preliminary client, of an
      inquire body: every line must parse and name a seated player, and the
      first line that does not is the fault. */
  function SeatedLines<L>(rs: seq<Result<L>>, pos: map<int, nat>, pidOf: L -> int): (r: Result<seq<L>>)
    ensures r.Ok? ==> |r.value| == |rs| && forall i :: 0 <= i < |rs| ==> rs[i] == Ok(r.value[i]) && pidOf(r.value[i]) in pos
    ensures r.Err? ==> exists i :: 0 <= i < |rs| && (rs[i].Err? || pidOf(rs[i].value) !in pos)
    decreases |rs|
  {
    if rs == [] then Ok([])
    else match rs[0]
      case Err(f) => Err(f)
      case Ok(l) =>
        if pidOf(l) !in pos then Err(NotSeated(pidOf(l)))
        else match SeatedLines(rs[1..], pos, pidOf)
          case Err(f) => Err(f)
          case Ok(ls) => Ok([l] + ls)
  }

  /** `seats[pos[pid]]['bet'] = bet; seats[pos[pid]]['jetton'] -= bet` for
      each blind line. */
  function Blinds(seats: seq<Seat>, pos: map<int, nat>, bs: seq<BlindLine>): (r: seq<Seat>)
    requires Indexes(seats, pos) && forall i :: 0 <= i < |bs| ==> bs[i].pid in pos
    ensures SamePlayers(seats, r)
    decreases |bs|
  {
    if bs == [] then seats
    else
      var t := Blinds(seats, pos, bs[..|bs| - 1]);
      var b := bs[|bs| - 1];
      SamePlayersIndex(seats, t, pos);
      var i := pos[b.pid];
      t[i := t[i].(bet := b.bet, jetton := t[i].jetton - b.bet)]
  }

  /** One more blind line, as handle_blind's loop applies it. */
  lemma BlindsStep(seats: seq<Seat>, pos: map<int, nat>, bs: seq<BlindLine>, i: nat)
    requires Indexes(seats, pos) && forall j :: 0 <= j < |bs| ==> bs[j].pid in pos
    requires i < |bs|
    ensures Indexes(Blinds(seats, pos, bs[..i]), pos)
    ensures var t := Blinds(seats, pos, bs[..i]); var k := pos[bs[i].pid];
      Blinds(seats, pos, bs[..i + 1]) == t[k := t[k].(bet := bs[i].bet, jetton := t[k].jetton - bs[i].bet)]
  {
    assert bs[..i + 1][..i] == bs[..i];
    SamePlayersIndex(seats, Blinds(seats, pos, bs[..i]), pos);
  }

  /** The loop of handle_blind over lines that all parsed. */
  method BlindLoop(bs: seq<BlindLine>, seats: seq<Seat>, pos: map<int, nat>) returns (st: seq<Seat>)
    requires Indexes(seats, pos) && forall j :: 0 <= j < |bs| ==> bs[j].pid in pos
    ensures st == Blinds(seats, pos, bs)
  {
    st := seats;
    var i := 0;
    while i < |bs|
      invariant 0 <= i <= |bs|
      invariant st == Blinds(seats, pos, bs[..i])
    {
      var b := bs[i];
      BlindsStep(seats, pos, bs, i);
      var k := pos[b.pid];
      st := st[k := st[k].(bet := b.bet, jetton := st[k].jetton - b.bet)];
      i := i + 1;
    }
    assert bs[..|bs|] == bs;
  }

  /** The blinds player p posted in a blind message. */
  function Paid(bs: seq<BlindLine>, p: int): int
  {
    if bs == [] then 0
    else Paid(bs[..|bs| - 1], p) + (if bs[|bs| - 1].pid == p then bs[|bs| - 1].bet else 0)
  }

  /** The bet the last blind line of p sets, or `bet` when p posts none. */
  function LastBlind(bs: seq<BlindLine>, p: int, bet: int): int
  {
    if bs == [] then bet
    else if bs[|bs| - 1].pid == p then bs[|bs| - 1].bet
    else LastBlind(bs[..|bs| - 1], p, bet)
  }

  /** A blind message charges each player the sum of its blinds, leaves its
      bet at its last blind, and touches nothing else of its seat. */
  lemma {:induction false} BlindsCharge(seats: seq<Seat>, pos: map<int, nat>, bs: seq<BlindLine>, p: int)
    requires Indexes(seats, pos) && forall i :: 0 <= i < |bs| ==> bs[i].pid in pos
    requires p in pos
    ensures var s, s' := seats[pos[p]], Blinds(seats, pos, bs)[pos[p]];
      s' == s.(jetton := s.jetton - Paid(bs, p), bet := LastBlind(bs, p, s.bet))
    decreases |bs|
  {
    if bs != [] {
      var init, b := bs[..|bs| - 1], bs[|bs| - 1];
      BlindsCharge(seats, pos, init, p);
      if b.pid != p {
        IndexesInjective(seats, pos, p, b.pid);
      }
    }
  }

  // ---------------------------------------------------------------------------
  // Status lines (inquire and notify)

  /** What a status line writes into the seat of its player. */
  function Post(s: Seat, l: StatusLine): Seat
  {
    s.(jetton := l.jetton, money := l.money, bet := l.bet, action := Some(l.action))
  }

  /** Every seated player's status lines written into its seat, in order. */
  function Posted(seats: seq<Seat>, pos: map<int, nat>, ss: seq<StatusLine>): (r: seq<Seat>)
    requires Indexes(seats, pos) && forall i :: 0 <= i < |ss| ==> ss[i].pid in pos
    ensures SamePlayers(seats, r)
    decreases |ss|
  {
    if ss == [] then seats
    else
      var t := Posted(seats, pos, ss[..|ss| - 1]);
      var l := ss[|ss| - 1];
      SamePlayersIndex(seats, t, pos);
      t[pos[l.pid] := Post(t[pos[l.pid]], l)]
  }

  /** One more status line, as the inquire loop writes it. */
  lemma PostedStep(seats: seq<Seat>, pos: map<int, nat>, ss: seq<StatusLine>, i: nat)
    requires Indexes(seats, pos) && forall j :: 0 <= j < |ss| ==> ss[j].pid in pos
    requires i < |ss|
    ensures Indexes(Posted(seats, pos, ss[..i]), pos)
    ensures var t := Posted(seats, pos, ss[..i]); var k := pos[ss[i].pid];
      Posted(seats, pos, ss[..i + 1]) == t[k := Post(t[k], ss[i])]
  {
    assert ss[..i + 1][..i] == ss[..i];
    SamePlayersIndex(seats, Posted(seats, pos, ss[..i]), pos);
  }

  /** The last status line of player p, if any. */
  function LastStatus(ss: seq<StatusLine>, p: int): Option<StatusLine>
  {
    if ss == [] then None
    else if ss[|ss| - 1].pid == p then Some(ss[|ss| - 1])
    else LastStatus(ss[..|ss| - 1], p)
  }

  /** After a batch each seat shows the last status line of its player, or
      is unchanged when its player has none. */
  lemma {:induction false} PostedShowsLast(seats: seq<Seat>, pos: map<int, nat>, ss: seq<StatusLine>, p: int)
    requires Indexes(seats, pos) && forall i :: 0 <= i < |ss| ==> ss[i].pid in pos
    requires p in pos
    ensures Posted(seats, pos, ss)[pos[p]] == match LastStatus(ss, p)
      case None => seats[pos[p]]
      case Some(l) => Post(seats[pos[p]], l)
    decreases |ss|
  {
    if ss != [] {
      var init, l := ss[..|ss| - 1], ss[|ss| - 1];
      PostedShowsLast(seats, pos, init, p);
      if l.pid != p {
        IndexesInjective(seats, pos, p, l.pid);
      }
    }
  }

  /** outer_bet = max(outer_bet, bet) over the batch. */
  function MaxBet(outer: int, ss: seq<StatusLine>): int
    decreases |ss|
  {
    if ss == [] then outer
    else
      var m := MaxBet(outer, ss[..|ss| - 1]);
      var b := ss[|ss| - 1].bet;
      if m >= b then m else b
  }

  /** The outer bet after a batch is the largest of the old one and the
      batch's bets, and is one of them. */
  lemma {:induction false} MaxBetBounds(outer: int, ss: seq<StatusLine>)
    ensures var r := MaxBet(outer, ss);
      && r >= outer && (forall i :: 0 <= i < |ss| ==> r >= ss[i].bet)
      && (r == outer || exists i :: 0 <= i < |ss| && r == ss[i].bet)
    decreases |ss|
  {
    if ss != [] {
      var init := ss[..|ss| - 1];
      MaxBetBounds(outer, init);
      assert forall i :: 0 <= i < |init| ==> init[i] == ss[i];
      var m := MaxBet(outer, init);
      if m >= ss[|ss| - 1].bet && m != outer {
        var i :| 0 <= i < |init| && m == init[i].bet;
        assert m == ss[i].bet;
      }
    }
  }

  lemma MaxBetStep(outer: int, ss: seq<StatusLine>, i: nat)
    requires i < |ss|
    ensures var m := MaxBet(outer, ss[..i]); MaxBet(outer, ss[..i + 1]) == if m >= ss[i].bet then m else ss[i].bet
  {
    assert ss[..i + 1][..i] == ss[..i];
  }

  /** `actions[pid][action] += 1; actions[pid]['total'] += 1` for one
      status line with a recognised action. */
  function Tick(m: map<int, Stats>, l: StatusLine): (r: map<int, Stats>)
    ensures r.Keys == m.Keys
  {
    if Recognised(l.action) && l.pid in m then m[l.pid := Note(m[l.pid], l.action)] else m
  }

  /** Tick over the batch. */
  function Tally(m: map<int, Stats>, ss: seq<StatusLine>): (r: map<int, Stats>)
    ensures r.Keys == m.Keys
    decreases |ss|
  {
    if ss == [] then m else Tick(Tally(m, ss[..|ss| - 1]), ss[|ss| - 1])
  }

  /** Counting keeps every player's counters adding up, and bounded. */
  lemma {:induction false} TallyConsistent(m: map<int, Stats>, ss: seq<StatusLine>)
    requires AllConsistent(m)
    ensures AllConsistent(Tally(m, ss))
    decreases |ss|
  {
    if ss != [] {
      TallyConsistent(m, ss[..|ss| - 1]);
    }
  }

  lemma {:induction false} TallyBounded(m: map<int, Stats>, ss: seq<StatusLine>)
    requires AllBounded(m)
    ensures AllBounded(Tally(m, ss))
    decreases |ss|
  {
    if ss != [] {
      TallyBounded(m, ss[..|ss| - 1]);
    }
  }

  lemma TallyStep(m: map<int, Stats>, ss: seq<StatusLine>, i: nat)
    requires i < |ss|
    ensures Tally(m, ss[..i + 1]) == Tick(Tally(m, ss[..i]), ss[i])
  {
    assert ss[..i + 1][..i] == ss[..i];
  }

  /** `d[pid][action] += 1; d[pid]['total'] += 1` for one line, recognised
      or not: the unguarded preflop update of the semifinal notify handler.
      The action must be a key. */
  function Mark(m: map<int, Stats>, l: StatusLine): (r: map<int, Stats>)
    requires IsKey(l.action)
    ensures r.Keys == m.Keys
  {
    if l.pid in m then m[l.pid := Note(m[l.pid], l.action)] else m
  }

  /** Every action of the batch is a counter key. */
  predicate Keyed(ss: seq<StatusLine>)
  {
    forall i :: 0 <= i < |ss| ==> IsKey(ss[i].action)
  }

  /** Mark over the batch. Every action must be a key. */
  function Noted(m: map<int, Stats>, ss: seq<StatusLine>): (r: map<int, Stats>)
    requires Keyed(ss)
    ensures r.Keys == m.Keys
    decreases |ss|
  {
    if ss == [] then m else Mark(Noted(m, ss[..|ss| - 1]), ss[|ss| - 1])
  }

  /** The unguarded update can push the total ahead of the action counters
      (a line whose action is 'total' adds two), but never behind them. */
  lemma {:induction false} NotedKeeps(m: map<int, Stats>, ss: seq<StatusLine>)
    requires Keyed(ss) && AllBounded(m)
    ensures AllBounded(Noted(m, ss))
    decreases |ss|
  {
    if ss != [] {
      NotedKeeps(m, ss[..|ss| - 1]);
    }
  }

  lemma NotedStep(m: map<int, Stats>, ss: seq<StatusLine>, i: nat)
    requires i < |ss| && Keyed(ss[..i + 1])
    ensures Keyed(ss[..i]) && Noted(m, ss[..i + 1]) == Mark(Noted(m, ss[..i]), ss[i])
  {
    assert ss[..i + 1][..i] == ss[..i];
  }

  /** How many lines of the batch report action a for player p. */
  function Times(ss: seq<StatusLine>, p: int, a: string): nat
  {
    if ss == [] then 0
    else Times(ss[..|ss| - 1], p, a) + (if ss[|ss| - 1].pid == p && ss[|ss| - 1].action == a then 1 else 0)
  }

  /** How many lines of the batch report a recognised action for player p. */
  function Acts(ss: seq<StatusLine>, p: int): nat
  {
    if ss == [] then 0
    else Acts(ss[..|ss| - 1], p) + (if ss[|ss| - 1].pid == p && Recognised(ss[|ss| - 1].action) then 1 else 0)
  }

  /** Each recognised action adds exactly one to its own counter and to the
      total of its player. */
  lemma {:induction false} TallyCounts(m: map<int, Stats>, ss: seq<StatusLine>, p: int, a: string)
    requires p in m && Recognised(a)
    ensures Count(Tally(m, ss)[p], a) == Count(m[p], a) + Times(ss, p, a)
    ensures Tally(m, ss)[p].total == m[p].total + Acts(ss, p)
    decreases |ss|
  {
    if ss != [] {
      TallyCounts(m, ss[..|ss| - 1], p, a);
    }
  }

  /** The players with an aggressive action in the batch. */
  function Aggressors(ss: seq<StatusLine>): set<int>
    decreases |ss|
  {
    if ss == [] then {}
    else Aggressors(ss[..|ss| - 1]) + (if Aggressive(ss[|ss| - 1].action) then {ss[|ss| - 1].pid} else {})
  }

  /** A player is an aggressor exactly when one of its lines is aggressive. */
  lemma {:induction false} AggressorsAre(ss: seq<StatusLine>, p: int)
    ensures p in Aggressors(ss) <==> exists i :: 0 <= i < |ss| && Aggressive(ss[i].action) && ss[i].pid == p
    decreases |ss|
  {
    if ss != [] {
      var init := ss[..|ss| - 1];
      AggressorsAre(init, p);
      if p in Aggressors(init) {
        var i :| 0 <= i < |init| && Aggressive(init[i].action) && init[i].pid == p;
        assert ss[i] == init[i];
      }
      if exists i :: 0 <= i < |ss| && Aggressive(ss[i].action) && ss[i].pid == p {
        var i :| 0 <= i < |ss| && Aggressive(ss[i].action) && ss[i].pid == p;
        if i < |init| {
          assert init[i] == ss[i];
        }
      }
    }
  }

  /** The players who fold in the batch. */
  function Folders(ss: seq<StatusLine>): set<int>
    decreases |ss|
  {
    if ss == [] then {}
    else Folders(ss[..|ss| - 1]) + (if ss[|ss| - 1].action == "fold" then {ss[|ss| - 1].pid} else {})
  }

  /** A player folds in the batch exactly when one of its lines is a fold. */
  lemma {:induction false} FoldersAre(ss: seq<StatusLine>, p: int)
    ensures p in Folders(ss) <==> exists i :: 0 <= i < |ss| && ss[i].action == "fold" && ss[i].pid == p
    decreases |ss|
  {
    if ss != [] {
      var init := ss[..|ss| - 1];
      FoldersAre(init, p);
      if p in Folders(init) {
        var i :| 0 <= i < |init| && init[i].action == "fold" && init[i].pid == p;
        assert ss[i] == init[i];
      }
      if exists i :: 0 <= i < |ss| && ss[i].action == "fold" && ss[i].pid == p {
        var i :| 0 <= i < |ss| && ss[i].action == "fold" && ss[i].pid == p;
        if i < |init| {
          assert init[i] == ss[i];
        }
      }
    }
  }

  /** `if action == 'fold' and pid in alive: alive.remove(pid);
      fold_actions[phase][pid] += 1` for one line, with `al` the players
      still alive. */
  function Strike(fo: map<int, nat>, al: set<int>, l: StatusLine): (r: map<int, nat>)
    ensures r.Keys == fo.Keys
  {
    if l.action == "fold" && l.pid in al && l.pid in fo then fo[l.pid := fo[l.pid] + 1] else fo
  }

  /** Strike over the batch: each player alive at the start who folds gains
      exactly one, once, however many fold lines it has. */
  function FoldBumps(folds: map<int, nat>, alive: set<int>, ss: seq<StatusLine>): (r: map<int, nat>)
    ensures r.Keys == folds.Keys
    decreases |ss|
  {
    if ss == [] then folds
    else Strike(FoldBumps(folds, alive, ss[..|ss| - 1]), alive - Folders(ss[..|ss| - 1]), ss[|ss| - 1])
  }

  /** Each player alive at the start who folds gains exactly one, once,
      however many fold lines it has; every other entry is unchanged. */
  lemma {:induction false} FoldBumpsCount(folds: map<int, nat>, alive: set<int>, ss: seq<StatusLine>, p: int)
    requires p in folds
    ensures FoldBumps(folds, alive, ss)[p] == folds[p] + (if p in alive && p in Folders(ss) then 1 else 0)
    decreases |ss|
  {
    if ss != [] {
      FoldBumpsCount(folds, alive, ss[..|ss| - 1], p);
    }
  }

  /** One more status line, as the inquire and notify loops see it. */
  lemma BatchStep(folds: map<int, nat>, alive: set<int>, ss: seq<StatusLine>, i: nat)
    requires i < |ss|
    ensures Folders(ss[..i + 1]) == Folders(ss[..i]) + (if ss[i].action == "fold" then {ss[i].pid} else {})
    ensures Aggressors(ss[..i + 1]) == Aggressors(ss[..i]) + (if Aggressive(ss[i].action) then {ss[i].pid} else {})
    ensures FoldBumps(folds, alive, ss[..i + 1]) == Strike(FoldBumps(folds, alive, ss[..i]), alive - Folders(ss[..i]), ss[i])
  {
    assert ss[..i + 1][..i] == ss[..i];
  }

  // ---------------------------------------------------------------------------
  // is_rich

  /** The own seat and every enemy's seat are indexed. */
  predicate CanJudge(seats: seq<Seat>, pos: map<int, nat>, me: int, enemy: set<int>)
  {
    Indexes(seats, pos) && me in pos && enemy <= pos.Keys
  }

  /** is_rich: own money above the big blind of 40, or no enemy has more
      chips than the own stack less 40. */
  predicate Rich(seats: seq<Seat>, pos: map<int, nat>, me: int, enemy: set<int>)
    requires CanJudge(seats, pos, me, enemy)
  {
    var own := seats[pos[me]];
    own.money > 40 || forall e :: e in enemy ==> seats[pos[e]].jetton <= own.jetton - 40
  }

  /** The loop of is_rich over the enemy set, which returns as soon as one
      enemy is too strong. */
  method IsRich(seats: seq<Seat>, pos: map<int, nat>, me: int, enemy: set<int>) returns (rich: bool)
    requires CanJudge(seats, pos, me, enemy)
    ensures rich == Rich(seats, pos, me, enemy)
    ensures enemy == {} ==> rich
  {
    var own := seats[pos[me]];
    if own.money > 40 {
      return true;
    }
    var rest := enemy;
    while rest != {}
      invariant rest <= enemy
      invariant forall e :: e in enemy - rest ==> seats[pos[e]].jetton <= own.jetton - 40
      decreases |rest|
    {
      ghost var w := Member(rest);
      var e :| e in rest;
      if seats[pos[e]].jetton > own.jetton - 40 {
        return false;
      }
      rest := rest - {e};
    }
    return true;
  }

  /** A member of a non-empty set. */
  lemma Member<T>(s: set<T>) returns (x: T)
    requires s != {}
    ensures x in s
  {
    x :| x in s;
  }
}
