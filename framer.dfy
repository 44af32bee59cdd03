/** The message framer of the client's receive loop (`run`): received text is
    cut into lines, each line is stripped of '/', ' ' and '\n', and keyword
    lines open and close messages. Both versions of the client share this loop
    word for word. */
module Framer {
  import opened Wire

  /** A dispatched message: the handler its closing keyword names and the
      lines gathered since the previous dispatch. */
  datatype Event = Event(kind: Kind, body: seq<string>)

  /** The loop variables that survive from one read to the next: `flag`
      (a keyword line has opened a message), `single_msg` and `over_flag`. */
  datatype State = State(open: bool, body: seq<string>, over: bool)

  /** What some input did: the state afterwards and the events dispatched. */
  datatype Fed = Fed(state: State, events: seq<Event>)

  const Start := State(false, [], false)

  const GameOver := "game-over"

  /** What the loop body makes of a raw line once it is stripped. */
  datatype LineClass = Blank | Over | Key(kind: Kind) | Text(line: string)

  function Classify(raw: string): (c: LineClass)
  {
    var line := Strip(raw, LineJunk);
    if line == [] then Blank
    else if line == GameOver then Over
    else match KindOf(line)
      case Some(k) => Key(k)
      case None => Text(line)
  }

  /** The classes of the lines of one read, in order. */
  function Classes(lines: seq<string>): seq<LineClass>
  {
    seq(|lines|, i requires 0 <= i < |lines| => Classify(lines[i]))
  }

  /** One pass of the inner for loop on a line of the given class. */
  function Step(st: State, c: LineClass): Fed
  {
    match c
    case Blank => Fed(st, [])
    case Over => Fed(st.(over := true), [])
    case Key(k) =>
      if st.open then Fed(State(false, [], st.over), [Event(k, st.body)])
      else Fed(st.(open := true), [])
    case Text(l) => Fed(st.(body := st.body + [l]), [])
  }

  /** The inner for loop over a run of classified lines; it stops at
      game-over. */
  function Feed(st: State, cs: seq<LineClass>): Fed
    decreases |cs|
  {
    if st.over || cs == [] then Fed(st, [])
    else
      var a := Step(st, cs[0]);
      var b := Feed(a.state, cs[1..]);
      Fed(b.state, a.events + b.events)
  }

  /** The inner for loop over the raw lines of one read. */
  function FeedLines(st: State, lines: seq<string>): Fed
  {
    Feed(st, Classes(lines))
  }

  /** recv(...).strip().split('\n'): the lines of one read. */
  function Lines(chunk: string): seq<string>
  {
    SplitOn(Strip(chunk, Whitespace), "\n")
  }

  /** The outer while loop over successive reads; nothing is read once
      game-over has been seen. */
  function FeedChunks(st: State, chunks: seq<string>): Fed
    decreases |chunks|
  {
    if st.over || chunks == [] then Fed(st, [])
    else
      var a := FeedLines(st, Lines(chunks[0]));
      var b := FeedChunks(a.state, chunks[1..]);
      Fed(b.state, a.events + b.events)
  }

  /** One pass of the outer while loop: the for loop over the lines of one
      read, with the loop variables carried in and out. */
  method FrameRead(st: State, chunk: string) returns (f: Fed)
    requires !st.over
    ensures f == FeedLines(st, Lines(chunk))
  {
    var flag, singleMsg, overFlag := st.open, st.body, false;
    var events: seq<Event> := [];
    var lines := Lines(chunk);
    ghost var cs := Classes(lines);
    var j := 0;
    while j < |lines|
      invariant 0 <= j <= |lines|
      invariant !overFlag
      invariant var rest := Feed(State(flag, singleMsg, false), cs[j..]);
        Feed(st, cs) == Fed(rest.state, events + rest.events)
    {
      ghost var cur := State(flag, singleMsg, false);
      ghost var before := events;
      ghost var a := Step(cur, cs[j]);
      ghost var rest := Feed(a.state, cs[j + 1..]);
      assert cs[j] == Classify(lines[j]);
      FeedUnfold(cur, cs, j);
      Assoc(events, a.events, rest.events);
      var line := Strip(lines[j], LineJunk);
      if line == [] {
        assert a == Fed(cur, []);
        assert events == before + a.events;
        j := j + 1;
        continue;
      }
      if line == GameOver {
        overFlag := true;
        break;
      } else if KindOf(line).Some? {
        if flag {
          assert a == Fed(Start, [Event(KindOf(line).value, singleMsg)]);
          events := events + [Event(KindOf(line).value, singleMsg)];
          flag := false;
          singleMsg := [];
        } else {
          assert a == Fed(cur.(open := true), []);
          flag := true;
        }
      } else {
        assert a == Fed(cur.(body := singleMsg + [line]), []);
        singleMsg := singleMsg + [line];
      }
      assert events == before + a.events && a.state == State(flag, singleMsg, false);
      j := j + 1;
    }
    f := Fed(State(flag, singleMsg, overFlag), events);
  }

  /** Feeding from position j is taking line j and then the rest. */
  lemma FeedUnfold(st: State, cs: seq<LineClass>, j: nat)
    requires !st.over && j < |cs|
    ensures var a := Step(st, cs[j]); var rest := Feed(a.state, cs[j + 1..]);
      Feed(st, cs[j..]) == Fed(rest.state, a.events + rest.events)
  {
    assert cs[j..][0] == cs[j] && cs[j..][1..] == cs[j + 1..];
  }

  /** The framing part of `run`, from the reads to the messages dispatched. */
  method Frame(chunks: seq<string>) returns (events: seq<Event>, final: State)
    ensures Fed(final, events) == FeedChunks(Start, chunks)
  {
    final := Start;
    events := [];
    var i := 0;
    while i < |chunks|
      invariant 0 <= i <= |chunks|
      invariant var rest := FeedChunks(final, chunks[i..]);
        FeedChunks(Start, chunks) == Fed(rest.state, events + rest.events)
    {
      if final.over {
        break;
      }
      assert chunks[i..][0] == chunks[i] && chunks[i..][1..] == chunks[i + 1..];
      var f := FrameRead(final, chunks[i]);
      events := events + f.events;
      final := f.state;
      i := i + 1;
    }
  }

  // ---------------------------------------------------------------------------
  // Reference descriptions of the input

  /** The content a single line contributes. */
  function LineContent(c: LineClass): seq<string>
  {
    match c
    case Text(l) => [l]
    case _ => []
  }

  /** The stripped lines that are message content (non-empty, not a keyword)
      before the first game-over. */
  function Content(cs: seq<LineClass>): seq<string>
  {
    if cs == [] || cs[0] == Over then []
    else LineContent(cs[0]) + Content(cs[1..])
  }

  /** The keyword lines before the first game-over, as kinds. */
  function Keywords(cs: seq<LineClass>): seq<Kind>
  {
    if cs == [] || cs[0] == Over then []
    else (if cs[0].Key? then [cs[0].kind] else []) + Keywords(cs[1..])
  }

  /** The bodies of a run of events, one after the other. */
  function Bodies(es: seq<Event>): seq<string>
  {
    if es == [] then [] else es[0].body + Bodies(es[1..])
  }

  lemma {:induction false} BodiesAppend(a: seq<Event>, b: seq<Event>)
    ensures Bodies(a + b) == Bodies(a) + Bodies(b)
  {
    if a == [] {
      assert a + b == b;
    } else {
      assert (a + b)[0] == a[0] && (a + b)[1..] == a[1..] + b;
      BodiesAppend(a[1..], b);
    }
  }

  // ---------------------------------------------------------------------------
  // Properties of the framer

  /** How a raw line is classified: blank when nothing is left after
      stripping, game-over, a keyword naming a handler, or else content. */
  lemma ClassifyCases(raw: string, k: Kind)
    ensures Classify(raw) == Blank <==> Strip(raw, LineJunk) == []
    ensures Classify(raw) == Over <==> Strip(raw, LineJunk) == GameOver
    ensures Classify(raw) == Key(k) <==> Strip(raw, LineJunk) == Keyword(k)
    ensures Classify(raw).Text? <==>
      var l := Strip(raw, LineJunk); l != [] && l != GameOver && KindOf(l).None?
    ensures Classify(raw).Text? ==> Classify(raw).line == Strip(raw, LineJunk)
  {
    KeywordsNameHandlers(Strip(raw, LineJunk), k);
    KeywordsNameHandlers(GameOver, k);
  }

  /** Content lines as the loop classifies them. */
  function Texts(ts: seq<string>): seq<LineClass>
  {
    seq(|ts|, i requires 0 <= i < |ts| => Text(ts[i]))
  }

  /** With a message open, content lines only join the body. */
  lemma {:induction false} TextsGather(body: seq<string>, ts: seq<string>, rest: seq<LineClass>)
    ensures Feed(State(true, body, false), Texts(ts) + rest) == Feed(State(true, body + ts, false), rest)
    decreases |ts|
  {
    if ts == [] {
      assert Texts(ts) + rest == rest;
      assert body + ts == body;
    } else {
      var cs := Texts(ts) + rest;
      assert cs[0] == Text(ts[0]);
      assert cs[1..] == Texts(ts[1..]) + rest;
      TextsGather(body + [ts[0]], ts[1..], rest);
      assert body + [ts[0]] + ts[1..] == body + ts;
    }
  }

  /** One framed message: with no message open, an opening keyword, content
      lines and a closing keyword dispatch exactly one event. It is named by
      the closing keyword and carries the body left over followed by the
      content lines, and the framer is closed again with an empty body. The
      opening keyword names nothing. */
  lemma {:induction false} OneMessage(b: seq<string>, k1: Kind, ts: seq<string>, k2: Kind)
    ensures Feed(State(false, b, false), [Key(k1)] + Texts(ts) + [Key(k2)])
      == Fed(State(false, [], false), [Event(k2, b + ts)])
  {
    var cs := [Key(k1)] + Texts(ts) + [Key(k2)];
    assert cs[0] == Key(k1);
    assert cs[1..] == Texts(ts) + [Key(k2)];
    TextsGather(b, ts, [Key(k2)]);
    var last := Feed(State(true, b + ts, false), [Key(k2)]);
    assert [Key(k2)][1..] == [];
    assert last == Fed(State(false, [], false), [Event(k2, b + ts)]);
  }

  /** game-over ends everything: the lines after it in the same read and all
      later reads are ignored. */
  lemma {:induction false} GameOverStops(st: State, cs: seq<LineClass>, k: nat, later: seq<string>)
    requires !st.over && k < |cs| && cs[k] == Over
    ensures Feed(st, cs) == Feed(st, cs[..k + 1])
    ensures Feed(st, cs).state.over
    ensures FeedChunks(Feed(st, cs).state, later) == Fed(Feed(st, cs).state, [])
    decreases k
  {
    var pre := cs[..k + 1];
    assert pre[0] == cs[0] && pre[1..] == cs[1..][..k];
    var a := Step(st, cs[0]);
    if k == 0 {
      assert pre[1..] == [];
    } else if !a.state.over {
      GameOverStops(a.state, cs[1..], k - 1, later);
    }
  }

  /** One line that is not game-over moves its content, if any, to the end
      of the pending body, and whatever it dispatches is taken from the front. */
  lemma StepConservesContent(st: State, c: LineClass)
    requires !st.over && c != Over
    ensures var a := Step(st, c); !a.state.over && Bodies(a.events) + a.state.body == st.body + LineContent(c)
  {
    if c.Key? && st.open {
      assert Bodies(Step(st, c).events) == st.body + Bodies([]);
    }
  }

  /** No content line is lost or duplicated: the bodies dispatched, followed
      by the body still pending, are the pending body at the start followed by
      the content lines of the input, in order. */
  lemma {:induction false} BodiesConserveContent(st: State, cs: seq<LineClass>)
    requires !st.over
    ensures var f := Feed(st, cs); Bodies(f.events) + f.state.body == st.body + Content(cs)
    decreases |cs|
  {
    if cs != [] && cs[0] != Over {
      var a := Step(st, cs[0]);
      var b := Feed(a.state, cs[1..]);
      StepConservesContent(st, cs[0]);
      BodiesConserveContent(a.state, cs[1..]);
      BodiesAppend(a.events, b.events);
      Assoc(Bodies(a.events), Bodies(b.events), b.state.body);
      Assoc(Bodies(a.events), a.state.body, Content(cs[1..]));
      Assoc(st.body, LineContent(cs[0]), Content(cs[1..]));
    } else if cs != [] {
      assert Feed(st.(over := true), cs[1..]) == Fed(st.(over := true), []);
    }
  }

  /** The events `es` and the final `open` flag follow the alternation of the
      keyword lines `ks`, when `o` (0 or 1) messages were already open. */
  predicate Alternate(es: seq<Event>, open: bool, ks: seq<Kind>, o: nat)
  {
    && o <= 1
    && |es| == (|ks| + o) / 2
    && open == ((|ks| + o) % 2 == 1)
    && forall i :: 0 <= i < |es| ==> 2 * i + 1 - o < |ks| && es[i].kind == ks[2 * i + 1 - o]
  }

  /** A closing keyword in front adds the event it names in front. */
  lemma AlternateClose(e: Event, es: seq<Event>, open: bool, ks: seq<Kind>)
    requires Alternate(es, open, ks, 0)
    ensures Alternate([e] + es, open, [e.kind] + ks, 1)
  {
    var es', ks' := [e] + es, [e.kind] + ks;
    forall i | 0 <= i < |es'| ensures 2 * i < |ks'| && es'[i].kind == ks'[2 * i] {
      if i > 0 {
        assert es'[i] == es[i - 1];
      }
    }
  }

  /** An opening keyword in front shifts the alternation by one. */
  lemma AlternateOpen(k: Kind, es: seq<Event>, open: bool, ks: seq<Kind>)
    requires Alternate(es, open, ks, 1)
    ensures Alternate(es, open, [k] + ks, 0)
  {
  }

  /** The events are named by every second keyword line: with no message
      open at the start, the i-th event is named by keyword line 2i+1 (the
      closing one), so the number of events is half the number of keyword
      lines, and a message is left open exactly when that number is odd. */
  lemma {:induction false} EventsCloseAlternateKeywords(st: State, cs: seq<LineClass>)
    requires !st.over
    ensures var f := Feed(st, cs); Alternate(f.events, f.state.open, Keywords(cs), if st.open then 1 else 0)
    decreases |cs|
  {
    if cs != [] && cs[0] != Over {
      var a := Step(st, cs[0]);
      var b := Feed(a.state, cs[1..]);
      EventsCloseAlternateKeywords(a.state, cs[1..]);
      if cs[0].Key? {
        assert Keywords(cs) == [cs[0].kind] + Keywords(cs[1..]);
        if st.open {
          AlternateClose(Event(cs[0].kind, st.body), b.events, b.state.open, Keywords(cs[1..]));
        } else {
          assert a.events + b.events == b.events;
          AlternateOpen(cs[0].kind, b.events, b.state.open, Keywords(cs[1..]));
        }
      } else {
        assert a.events + b.events == b.events;
        assert Keywords(cs) == Keywords(cs[1..]);
      }
    } else if cs != [] {
      assert Feed(st.(over := true), cs[1..]) == Fed(st.(over := true), []);
    }
  }

  /** A read boundary always ends a line: framing a run of reads is framing
      the concatenation of their lines. */
  function AllLines(chunks: seq<string>): seq<string>
  {
    if chunks == [] then [] else Lines(chunks[0]) + AllLines(chunks[1..])
  }

  lemma {:induction false} FeedAppend(st: State, a: seq<LineClass>, b: seq<LineClass>)
    ensures var fa := Feed(st, a); var fb := Feed(fa.state, b);
      Feed(st, a + b) == Fed(fb.state, fa.events + fb.events)
    decreases |a|
  {
    if st.over {
    } else if a == [] {
      assert a + b == b;
    } else {
      assert (a + b)[0] == a[0] && (a + b)[1..] == a[1..] + b;
      FeedAppend(Step(st, a[0]).state, a[1..], b);
    }
  }

  lemma {:induction false} ReadsAreLineBoundaries(st: State, chunks: seq<string>)
    ensures FeedChunks(st, chunks) == FeedLines(st, AllLines(chunks))
    decreases |chunks|
  {
    if st.over {
    } else if chunks != [] {
      var ls := Lines(chunks[0]);
      var more := AllLines(chunks[1..]);
      assert Classes(ls + more) == Classes(ls) + Classes(more);
      FeedAppend(st, Classes(ls), Classes(more));
      ReadsAreLineBoundaries(FeedLines(st, ls).state, chunks[1..]);
    }
  }

  /** A read with no line break inside and nothing to strip at its ends is a
      single line. */
  lemma OneLine(chunk: string)
    requires chunk != [] && chunk[0] !in Whitespace && chunk[|chunk| - 1] !in Whitespace
    requires forall i :: 0 <= i < |chunk| ==> chunk[i] != '\n'
    ensures Lines(chunk) == [chunk]
  {
    StripNoJunk(chunk, Whitespace);
    SplitOnAbsent(chunk, '\n');
  }

  /** A read holding one content line adds it to the pending body. */
  lemma TextRead(st: State, chunk: string)
    requires !st.over && chunk != [] && chunk !in Handlers && chunk != GameOver
    requires forall i :: 0 <= i < |chunk| ==> chunk[i] !in Whitespace && chunk[i] !in LineJunk
    ensures FeedLines(st, Lines(chunk)) == Fed(st.(body := st.body + [chunk]), [])
  {
    OneLine(chunk);
    StripNoJunk(chunk, LineJunk);
    var s1 := st.(body := st.body + [chunk]);
    assert Classes([chunk]) == [Text(chunk)];
    assert [Text(chunk)][1..] == [];
    assert Step(st, Text(chunk)) == Fed(s1, []);
    assert Feed(s1, []) == Fed(s1, []);
    assert Feed(st, [Text(chunk)]) == Fed(s1, []);
  }

  /** Consequently a keyword that arrives split over two reads, such as
      "pot-" followed by "win", is not a keyword: when neither piece names a
      handler, both pieces become body lines, in order. */
  lemma SplitReadsAreTwoLines(st: State, u: string, v: string)
    requires !st.over && u != [] && v != []
    requires u !in Handlers && u != GameOver && v !in Handlers && v != GameOver
    requires forall i :: 0 <= i < |u| ==> u[i] !in Whitespace && u[i] !in LineJunk
    requires forall i :: 0 <= i < |v| ==> v[i] !in Whitespace && v[i] !in LineJunk
    ensures FeedChunks(st, [u, v]) == Fed(st.(body := st.body + [u, v]), [])
  {
    TextRead(st, u);
    var s1 := st.(body := st.body + [u]);
    TextRead(s1, v);
    var s2 := st.(body := st.body + [u, v]);
    assert s1.body + [v] == st.body + [u, v];
    var two: seq<string> := [u, v];
    assert two[0] == u && two[1..] == [v] && [v][0] == v && [v][1..] == [];
    assert FeedChunks(s2, []) == Fed(s2, []);
    assert FeedChunks(s1, [v]) == Fed(s2, []);
  }

  /** The number of inquire events in a sequence of events. */
  function Inquires(es: seq<Event>): nat
  {
    if es == [] then 0 else Inquires(es[..|es| - 1]) + (if es[|es| - 1].kind == Inquire then 1 else 0)
  }

  /** A prefix of the events holds no more inquires than all of them. */
  lemma {:induction false} InquiresPrefix(es: seq<Event>, i: nat)
    requires i <= |es|
    ensures Inquires(es[..i]) <= Inquires(es)
    decreases |es|
  {
    if i < |es| {
      assert es[..|es| - 1][..i] == es[..i];
      InquiresPrefix(es[..|es| - 1], i);
    } else {
      assert es[..i] == es;
    }
  }
}
