/** Text-level helpers of the card-game protocol: the string operations the
    client applies to received lines (strip, split, int), the line grammars of
    the event bodies, the event keywords and the outgoing commands. */
module Wire {

  datatype Option<T> = None | Some(value: T)

  /** Why a handler gave up. Every fault ends the session: the client never
      catches the exception a malformed line or a missing key raises. */
  datatype Fault =
    | BadLine(line: string)              // a line that does not fit its grammar (ValueError / IndexError)
    | MissingLine                        // msg[0] or msg[-1] of an empty body (IndexError)
    | NotSeated(pid: int)                // pos[pid] for a player not seated this hand (KeyError)
    | NoCounter(pid: int, key: string)   // a counter dict without that player or that key (KeyError)
    | NoPhaseSlot(phase: int)            // fold_actions[phase] with phase >= 4 (IndexError)
    | BadCards                           // hole or board cards that cannot be read: a card missing, an unknown rank or an empty suit word

  datatype Result<T> = Ok(value: T) | Err(fault: Fault)

  datatype Outcome = Pass | Fail(fault: Fault)

  // ---------------------------------------------------------------------------
  // Characters and stripping

  /** The characters Python 2's str.strip() and str.split() treat as whitespace. */
  const Whitespace: set<char> := {' ', '\t', '\n', '\r', 11 as char, 12 as char}

  /** The characters every received line is stripped of: '/', ' ' and '\n'. */
  const LineJunk: set<char> := {'/', ' ', '\n'}

  function TrimLeft(s: string, cs: set<char>): (r: string)
    ensures |r| <= |s| && (r != [] ==> r[0] !in cs)
  {
    if s != [] && s[0] in cs then TrimLeft(s[1..], cs) else s
  }

  function TrimRight(s: string, cs: set<char>): string
  {
    if s != [] && s[|s| - 1] in cs then TrimRight(s[..|s| - 1], cs) else s
  }

  /** str.strip(chars): drop every leading and trailing character of cs. */
  function Strip(s: string, cs: set<char>): string
  {
    TrimRight(TrimLeft(s, cs), cs)
  }

  lemma {:induction false} TrimLeftShape(s: string, cs: set<char>)
    ensures var r := TrimLeft(s, cs);
      r == s[|s| - |r|..] && (r != [] ==> r[0] !in cs)
      && forall i :: 0 <= i < |s| - |r| ==> s[i] in cs
  {
    if s != [] && s[0] in cs {
      TrimLeftShape(s[1..], cs);
    }
  }

  lemma {:induction false} TrimRightShape(s: string, cs: set<char>)
    ensures var r := TrimRight(s, cs);
      |r| <= |s| && r == s[..|r|] && (r != [] ==> r[|r| - 1] !in cs)
      && forall i :: |r| <= i < |s| ==> s[i] in cs
  {
    if s != [] && s[|s| - 1] in cs {
      TrimRightShape(s[..|s| - 1], cs);
    }
  }

  /** What strip keeps is a contiguous piece of the input, everything cut off
      on either side is in cs, and the piece neither starts nor ends in cs. */
  lemma StripShape(s: string, cs: set<char>)
    ensures var r := Strip(s, cs);
      exists a, b :: 0 <= a <= b <= |s| && r == s[a..b]
        && (forall i :: 0 <= i < a ==> s[i] in cs)
        && (forall i :: b <= i < |s| ==> s[i] in cs)
        && (r != [] ==> r[0] !in cs && r[|r| - 1] !in cs)
  {
    var l := TrimLeft(s, cs);
    TrimLeftShape(s, cs);
    var r := TrimRight(l, cs);
    TrimRightShape(l, cs);
    var a := |s| - |l|;
    assert r == s[a..a + |r|];
    forall i | a + |r| <= i < |s| ensures s[i] in cs {
      assert s[i] == l[i - a];
    }
  }

  // ---------------------------------------------------------------------------
  // Splitting

  /** str.split(sep) for a non-empty separator: the pieces between the
      occurrences of sep, scanned left to right without overlap. */
  function SplitOn(s: string, sep: string): (r: seq<string>)
    requires sep != []
    ensures |r| >= 1
    decreases |s|
  {
    if |s| < |sep| then [s]
    else if s[..|sep|] == sep then [""] + SplitOn(s[|sep|..], sep)
    else
      var t := SplitOn(s[1..], sep);
      [[s[0]] + t[0]] + t[1..]
  }

  /** sep.join(parts). */
  function Join(parts: seq<string>, sep: string): string
    requires |parts| >= 1
  {
    if |parts| == 1 then parts[0] else parts[0] + sep + Join(parts[1..], sep)
  }

  /** Splitting loses nothing: joining the pieces with the separator gives
      back the line. */
  lemma {:induction false} JoinSplit(s: string, sep: string)
    requires sep != []
    ensures Join(SplitOn(s, sep), sep) == s
    decreases |s|
  {
    if |s| < |sep| {
    } else if s[..|sep|] == sep {
      JoinSplit(s[|sep|..], sep);
      var t := SplitOn(s[|sep|..], sep);
      assert SplitOn(s, sep) == [""] + t;
      assert ([""] + t)[1..] == t;
      assert s == sep + s[|sep|..];
    } else {
      JoinSplit(s[1..], sep);
      var t := SplitOn(s[1..], sep);
      var r := [[s[0]] + t[0]] + t[1..];
      assert SplitOn(s, sep) == r;
      if |t| == 1 {
        assert s == [s[0]] + s[1..];
      } else {
        assert r[1..] == t[1..];
        assert Join(t, sep) == t[0] + sep + Join(t[1..], sep);
        assert s == [s[0]] + s[1..];
      }
    }
  }

  /** Snoc unfolding of a sequence at a prefix. */
  lemma Prefix<T>(s: seq<T>, i: nat)
    requires i < |s|
    ensures s[..i + 1][..i] == s[..i] && s[..i + 1] == s[..i] + [s[i]]
  {
  }

  /** Concatenation regroups; stated once so that proofs can cite it instead
      of leaving the solver to rediscover it. */
  lemma Assoc<T>(a: seq<T>, b: seq<T>, c: seq<T>)
    ensures (a + b) + c == a + (b + c)
  {
  }

  /** A line without the separator is one piece. */
  lemma {:induction false} SplitOnAbsent(s: string, c: char)
    requires forall i :: 0 <= i < |s| ==> s[i] != c
    ensures SplitOn(s, [c]) == [s]
  {
    if |s| >= 1 {
      assert s[..1] != [c] by { assert s[..1][0] == s[0]; }
      SplitOnAbsent(s[1..], c);
      assert [s[0]] + s[1..] == s;
    }
  }

  /** The longest prefix of t without whitespace. */
  function WordPrefix(t: string): (w: string)
    ensures |w| <= |t| && w == t[..|w|]
    ensures forall i :: 0 <= i < |w| ==> w[i] !in Whitespace
    ensures |w| < |t| ==> t[|w|] in Whitespace
  {
    if t == [] || t[0] in Whitespace then [] else [t[0]] + WordPrefix(t[1..])
  }

  /** A word of str.split(): non-empty, without whitespace. */
  predicate IsWord(w: string)
  {
    w != [] && forall i :: 0 <= i < |w| ==> w[i] !in Whitespace
  }

  /** str.split() without arguments: the maximal runs of non-whitespace. */
  function Words(s: string): (r: seq<string>)
    ensures forall k :: 0 <= k < |r| ==> IsWord(r[k])
    decreases |s|
  {
    var t := TrimLeft(s, Whitespace);
    if t == [] then []
    else
      var w := WordPrefix(t);
      [w] + Words(t[|w|..])
  }

  // ---------------------------------------------------------------------------
  // Integers

  predicate IsDigit(c: char) { '0' <= c <= '9' }

  predicate AllDigits(d: string) { forall i :: 0 <= i < |d| ==> IsDigit(d[i]) }

  function DigitsValue(d: string): nat
    requires AllDigits(d)
  {
    if d == [] then 0 else DigitsValue(d[..|d| - 1]) * 10 + ((d[|d| - 1] as int) - ('0' as int))
  }

  /** Python 2's int(s) on a str: surrounding whitespace, an optional sign
      and at least one decimal digit; None where int raises ValueError.
      CPython 2 skips whitespace once more after the sign (PyOS_strtoul, and
      PyLong_FromString for large values), so "- 20" reads as -20. */
  function ParseInt(s: string): Option<int>
  {
    var t := Strip(s, Whitespace);
    var neg := t != [] && t[0] == '-';
    var ds := if t != [] && (t[0] == '-' || t[0] == '+') then TrimLeft(t[1..], Whitespace) else t;
    if ds != [] && AllDigits(ds) then
      var v: int := DigitsValue(ds);
      Some(if neg then -v else v)
    else None
  }

  /** Decimal text of a natural number, most significant digit first. */
  function ShowNat(n: nat): (d: string)
    ensures d != [] && AllDigits(d)
  {
    if n < 10 then [(('0' as int) + n) as char]
    else ShowNat(n / 10) + [(('0' as int) + n % 10) as char]
  }

  /** The text str(n) gives an integer. */
  function Show(n: int): string
  {
    if n < 0 then "-" + ShowNat(-n) else ShowNat(n)
  }

  lemma {:induction false} DigitsOfShowNat(n: nat)
    ensures DigitsValue(ShowNat(n)) == n
  {
    if n >= 10 {
      DigitsOfShowNat(n / 10);
      var d := ShowNat(n);
      assert d[..|d| - 1] == ShowNat(n / 10);
    }
  }

  lemma StripNoJunk(s: string, cs: set<char>)
    requires s != [] && s[0] !in cs && s[|s| - 1] !in cs
    ensures Strip(s, cs) == s
  {
    assert TrimLeft(s, cs) == s;
  }

  /** int(str(n)) == n. */
  lemma ParseShow(n: int)
    ensures ParseInt(Show(n)) == Some(n)
  {
    var m: nat := if n < 0 then -n else n;
    var d := ShowNat(m);
    DigitsOfShowNat(m);
    var s := Show(n);
    assert s[|s| - 1] == d[|d| - 1];
    assert IsDigit(d[|d| - 1]);
    assert s[0] == '-' || s[0] == d[0];
    assert IsDigit(d[0]);
    StripNoJunk(s, Whitespace);
    assert Strip(s, Whitespace) == s;
    if n < 0 {
      assert s[1..] == d;
      assert s[0] == '-';
      assert TrimLeft(d, Whitespace) == d;
    } else {
      assert s == d;
      assert s[0] != '-' && s[0] != '+';
    }
  }

  /** Only the leading characters of the set are trimmed. */
  lemma {:induction false} TrimLeftRun(w: string, d: string, cs: set<char>)
    requires forall i :: 0 <= i < |w| ==> w[i] in cs
    requires d == [] || d[0] !in cs
    ensures TrimLeft(w + d, cs) == d
    decreases |w|
  {
    if w == [] {
      assert w + d == d;
    } else {
      assert (w + d)[0] == w[0] && (w + d)[1..] == w[1..] + d;
      TrimLeftRun(w[1..], d, cs);
    }
  }

  /** A plain run of digits reads as its value. */
  lemma ParseDigits(d: string)
    requires d != [] && AllDigits(d)
    ensures ParseInt(d) == Some(DigitsValue(d))
  {
    assert IsDigit(d[0]) && IsDigit(d[|d| - 1]);
    StripNoJunk(d, Whitespace);
  }
  /** One sign, whitespace, then the digits. */
  lemma SignedDigits(c: char, w: string, d: string)
    requires c == '-' || c == '+'
    requires forall i :: 0 <= i < |w| ==> w[i] in Whitespace
    requires d != [] && AllDigits(d)
    ensures ParseInt([c] + w + d) == Some(if c == '-' then -(DigitsValue(d) as int) else DigitsValue(d))
  {
    var s := [c] + w + d;
    assert IsDigit(d[|d| - 1]) && s[|s| - 1] == d[|d| - 1];
    StripNoJunk(s, Whitespace);
    assert s[1..] == w + d;
    assert IsDigit(d[0]);
    TrimLeftRun(w, d, Whitespace);
  }

  /** Whitespace between the sign and the digits is allowed: int("- 20") is
      -20 and int("+ 20") is 20. */
  lemma SpaceAfterSign(w: string, d: string)
    requires forall i :: 0 <= i < |w| ==> w[i] in Whitespace
    requires d != [] && AllDigits(d)
    ensures ParseInt("-" + w + d) == Some(-(DigitsValue(d) as int))
    ensures ParseInt("+" + w + d) == Some(DigitsValue(d))
  {
    SignedDigits('-', w, d);
    SignedDigits('+', w, d);
  }

  // ---------------------------------------------------------------------------
  // Line grammars of the event bodies

  /** A seat line "<label>: <pid> <jetton> <money>"; the label may be absent. */
  datatype SeatLine = SeatLine(pid: int, jetton: int, money: int)

  /** A blind line "<pid>: <bet>". */
  datatype BlindLine = BlindLine(pid: int, bet: int)

  /** An inquire or notify status line "<pid> <jetton> <money> <bet> <action>". */
  datatype StatusLine = StatusLine(pid: int, jetton: int, money: int, bet: int, action: string)

  /** The words after the last ':' of a seat line. */
  function SeatWords(line: string): seq<string>
  {
    var pieces := SplitOn(line, ":");
    Words(pieces[|pieces| - 1])
  }

  /** line.split(':')[-1].split(), then int() of the first three words;
      extra words are ignored. */
  function ParseSeat(line: string): (r: Result<SeatLine>)
    ensures r.Ok? ==> var ws := SeatWords(line);
      |ws| >= 3 && ParseInt(ws[0]) == Some(r.value.pid)
      && ParseInt(ws[1]) == Some(r.value.jetton) && ParseInt(ws[2]) == Some(r.value.money)
    ensures r.Err? ==> var ws := SeatWords(line);
      |ws| < 3 || ParseInt(ws[0]).None? || ParseInt(ws[1]).None? || ParseInt(ws[2]).None?
  {
    var ws := SeatWords(line);
    if |ws| < 3 then Err(BadLine(line))
    else
      var p, j, m := ParseInt(ws[0]), ParseInt(ws[1]), ParseInt(ws[2]);
      if p.Some? && j.Some? && m.Some? then Ok(SeatLine(p.value, j.value, m.value))
      else Err(BadLine(line))
  }

  /** pid, bet = map(int, line.split(': ')): exactly two pieces, both integers. */
  function ParseBlind(line: string): (r: Result<BlindLine>)
    ensures r.Ok? <==> var ps := SplitOn(line, ": ");
      |ps| == 2 && ParseInt(ps[0]).Some? && ParseInt(ps[1]).Some?
    ensures r.Ok? ==> var ps := SplitOn(line, ": ");
      ParseInt(ps[0]) == Some(r.value.pid) && ParseInt(ps[1]) == Some(r.value.bet)
  {
    var ps := SplitOn(line, ": ");
    if |ps| != 2 then Err(BadLine(line))
    else
      var p, b := ParseInt(ps[0]), ParseInt(ps[1]);
      if p.Some? && b.Some? then Ok(BlindLine(p.value, b.value)) else Err(BadLine(line))
  }

  /** A text without the separator's first character is one piece. */
  lemma {:induction false} SplitFree(s: string, sep: string)
    requires sep != [] && forall i :: 0 <= i < |s| ==> s[i] != sep[0]
    ensures SplitOn(s, sep) == [s]
    decreases |s|
  {
    if |s| >= |sep| {
      assert s[..|sep|] != sep by { assert s[..|sep|][0] == s[0]; }
      SplitFree(s[1..], sep);
      assert [s[0]] + s[1..] == s;
    }
  }

  /** The text before the first separator is the first piece. */
  lemma {:induction false} SplitFirst(a: string, sep: string, b: string)
    requires sep != [] && forall i :: 0 <= i < |a| ==> a[i] != sep[0]
    ensures SplitOn(a + sep + b, sep) == [a] + SplitOn(b, sep)
    decreases |a|
  {
    var s := a + sep + b;
    if a == [] {
      assert s == sep + b && s[..|sep|] == sep && s[|sep|..] == b;
    } else {
      assert s[..|sep|] != sep by { assert s[..|sep|][0] == a[0]; }
      assert s[1..] == a[1..] + sep + b;
      SplitFirst(a[1..], sep, b);
      assert [a[0]] + a[1..] == a;
    }
  }

  /** A blind line of two pieces that both read as integers. */
  lemma BlindOfPieces(line: string, a: string, b: string, x: int, y: int)
    requires SplitOn(line, ": ") == [a, b] && ParseInt(a) == Some(x) && ParseInt(b) == Some(y)
    ensures ParseBlind(line) == Ok(BlindLine(x, y))
  {
  }

  /** The pieces of the blind line "1001: - 20". */
  lemma SpacedSignPieces()
    ensures SplitOn("1001: - 20", ": ") == ["1001", "- 20"]
  {
    SplitFree("- 20", ": ");
    SplitFirst("1001", ": ", "- 20");
    assert "1001" + ": " + "- 20" == "1001: - 20";
  }

  /** The pid of the blind line "1001: - 20". */
  lemma SpacedSignPid()
    ensures ParseInt("1001") == Some(1001)
  {
    ParseDigits("1001");
    assert "1001"[..3] == "100" && "100"[..2] == "10" && "10"[..1] == "1" && "1"[..0] == "";
  }

  /** The bet of the blind line "1001: - 20". */
  lemma SpacedSignBet()
    ensures ParseInt("- 20") == Some(-20)
  {
    SpaceAfterSign(" ", "20");
    assert "20"[..1] == "2" && "2"[..0] == "";
    assert "-" + " " + "20" == "- 20";
  }

  /** The blind line "1001: - 20", whose bet has a space after its minus
      sign, parses to a blind of -20, which the source then charges. */
  lemma BlindSpacedSign()
    ensures ParseBlind("1001: - 20") == Ok(BlindLine(1001, -20))
  {
    SpacedSignPieces();
    SpacedSignPid();
    SpacedSignBet();
    BlindOfPieces("1001: - 20", "1001", "- 20", 1001, -20);
  }

  /** seqs = line.split(); map(int, seqs[:4]) and seqs[4]: at least five words,
      the first four integers; the fifth is the action, later words ignored. */
  function ParseStatus(line: string): (r: Result<StatusLine>)
    ensures r.Ok? ==> var ws := Words(line);
      |ws| >= 5 && r.value.action == ws[4] && ParseInt(ws[0]) == Some(r.value.pid)
      && ParseInt(ws[1]) == Some(r.value.jetton) && ParseInt(ws[2]) == Some(r.value.money)
      && ParseInt(ws[3]) == Some(r.value.bet)
    ensures r.Err? ==> var ws := Words(line);
      |ws| < 5 || ParseInt(ws[0]).None? || ParseInt(ws[1]).None? || ParseInt(ws[2]).None?
      || ParseInt(ws[3]).None?
  {
    var ws := Words(line);
    if |ws| < 5 then Err(BadLine(line))
    else
      var p, j, m, b := ParseInt(ws[0]), ParseInt(ws[1]), ParseInt(ws[2]), ParseInt(ws[3]);
      if p.Some? && j.Some? && m.Some? && b.Some? then Ok(StatusLine(p.value, j.value, m.value, b.value, ws[4]))
      else Err(BadLine(line))
  }

  /** int(line.split()[-1]): the last word of the trailing "... pot: <n>" line. */
  function ParsePot(line: string): (r: Result<int>)
    ensures r.Ok? ==> Words(line) != [] && ParseInt(Words(line)[|Words(line)| - 1]) == Some(r.value)
  {
    var ws := Words(line);
    if ws == [] then Err(BadLine(line))
    else match ParseInt(ws[|ws| - 1])
      case Some(n) => Ok(n)
      case None => Err(BadLine(line))
  }

  /** tuple(line.split()): a card is the tuple of the words of its line. */
  function ParseCard(line: string): seq<string>
  {
    Words(line)
  }

  /** The status lines of a notify body; an empty body has none. */
  function NotifyLinesOf(msg: seq<string>): seq<string>
  {
    if msg == [] then [] else msg[..|msg| - 1]
  }

  /** Each line parsed on its own, in order, as the handlers' loops do. */
  function Each<T>(parse: string -> T, lines: seq<string>): (r: seq<T>)
    ensures |r| == |lines|
    decreases |lines|
  {
    if lines == [] then [] else Each(parse, lines[..|lines| - 1]) + [parse(lines[|lines| - 1])]
  }

  /** Line i of the result is line i parsed. */
  lemma {:induction false} EachAt<T>(parse: string -> T, lines: seq<string>, i: nat)
    requires i < |lines|
    ensures Each(parse, lines)[i] == parse(lines[i])
    decreases |lines|
  {
    if i < |lines| - 1 {
      EachAt(parse, lines[..|lines| - 1], i);
    }
  }

  // ---------------------------------------------------------------------------
  // Event keywords

  datatype Kind = Seat | Blind | Hold | Inquire | Flop | Turn | River | Showdown | PotWin | Notify

  /** The keyword line that opens and closes a message of each kind. */
  function Keyword(k: Kind): string
  {
    match k
    case Seat => "seat"
    case Blind => "blind"
    case Hold => "hold"
    case Inquire => "inquire"
    case Flop => "flop"
    case Turn => "turn"
    case River => "river"
    case Showdown => "showdown"
    case PotWin => "pot-win"
    case Notify => "notify"
  }

  /** msg_key, with the handler each keyword names. */
  const Handlers: map<string, Kind> := map[
    "seat" := Seat, "blind" := Blind, "hold" := Hold, "inquire" := Inquire, "flop" := Flop,
    "turn" := Turn, "river" := River, "showdown" := Showdown, "pot-win" := PotWin, "notify" := Notify]

  /** Membership in msg_key, with the handler it names. */
  function KindOf(line: string): (r: Option<Kind>)
  {
    if line in Handlers then Some(Handlers[line]) else None
  }

  /** The keyword set and the handler table agree: a line names a handler
      exactly when it is the keyword of that kind, so dispatch by name is a
      bijection, and the terminator is not a keyword. */
  lemma KeywordsNameHandlers(line: string, k: Kind)
    ensures KindOf(line) == Some(k) <==> line == Keyword(k)
    ensures KindOf("game-over") == None
  {
  }

  // ---------------------------------------------------------------------------
  // Outgoing commands

  datatype Action = Fold | Check | Call | Raise(amount: int)

  /** The text sent for each action. */
  function Command(a: Action): string
  {
    match a
    case Fold => "fold \n"
    case Check => "check \n"
    case Call => "call \n"
    case Raise(n) => "raise " + Show(n) + " \n"
  }

  /** How much a command commits, in order: fold, check, call, raise. */
  function Rank(a: Action): int
  {
    match a
    case Fold => 0
    case Check => 1
    case Call => 2
    case Raise(_) => 3
  }

  /** int(0.1 * j): a tenth of j truncated toward zero. For the stack sizes
      of the game the double product never crosses an integer, so this is
      exact. */
  function Tenth(j: int): (r: int)
    ensures 0 <= j ==> 0 <= 10 * r <= j < 10 * r + 10
    ensures j < 0 ==> 10 * r - 10 < j <= 10 * r <= 0
  {
    if j >= 0 then j / 10 else -((-j) / 10)
  }
}
