/** What parseLsof makes of the output lsof prints. */
module LsofRoundTrip {
  import opened Domain
  import opened Text
  import opened Lsof
  import opened LsofOutput
  import Listeners

  lemma FirstOnlySnoc(ls: seq<Listener>, l: Listener)
    ensures FirstOnly(ls + [l]) == AddFirst(FirstOnly(ls), l)
  {
    assert (ls + [l])[..|ls|] == ls;
  }

  lemma FirstOnlyPresent(ls: seq<Listener>, o: Option<Listener>)
    ensures FirstOnly(ls + Present(o)) == if o.Some? then AddFirst(FirstOnly(ls), o.value) else FirstOnly(ls)
  {
    if o.Some? { FirstOnlySnoc(ls, o.value); } else { assert ls + [] == ls; }
  }

  lemma {:induction false} FirstOnlyKeys(ls: seq<Listener>, port: int, pid: int)
    ensures HasKey(FirstOnly(ls), port, pid) <==> Listeners.KeySeen(ls, |ls|, port, pid)
  {
    if ls != [] {
      var u, l := ls[..|ls| - 1], ls[|ls| - 1];
      FirstOnlyKeys(u, port, pid);
      FirstOnlyKeys(u, l.port, l.pid);
      KeyAdded(FirstOnly(u), l);
      assert ls == u + [l] && forall i | 0 <= i < |u| :: u[i] == ls[i];
    }
  }

  /** FirstOnly keeps exactly the first row of every key, each key once. */
  lemma {:induction false} FirstOnlyMeans(ls: seq<Listener>)
    ensures forall l :: l in FirstOnly(ls) <==> Listeners.IsFirst(ls, l)
    ensures forall i, j | 0 <= i < j < |FirstOnly(ls)| :: !Listeners.SameKey(FirstOnly(ls)[i], FirstOnly(ls)[j])
  {
    if ls != [] {
      var n, u, l := |ls| - 1, ls[..|ls| - 1], ls[|ls| - 1];
      FirstOnlyMeans(u);
      FirstOnlyKeys(u, l.port, l.pid);
      assert ls[..n + 1] == ls && u == ls[..n];
      assert Listeners.KeySeen(u, |u|, l.port, l.pid) <==> Listeners.KeySeen(ls, n, l.port, l.pid);
      forall x ensures x in FirstOnly(ls) <==> Listeners.IsFirst(ls, x) { Listeners.FirstsGrow(ls, n, x); }
    }
  }

  /** FirstOnly keeps the order. */
  lemma {:induction false} FirstOnlyOrder(ls: seq<Listener>, i: nat, j: nat)
    requires i < j < |FirstOnly(ls)|
    ensures exists p, q :: 0 <= p < q < |ls| && ls[p] == FirstOnly(ls)[i] && ls[q] == FirstOnly(ls)[j]
  {
    var u, l := ls[..|ls| - 1], ls[|ls| - 1];
    var before := FirstOnly(u);
    if j < |before| {
      FirstOnlyOrder(u, i, j);
      var p, q :| 0 <= p < q < |u| && u[p] == before[i] && u[q] == before[j];
      assert ls[p] == u[p] && ls[q] == u[q];
    } else {
      FirstOnlyMeans(u);
      var x := before[i];
      assert x in before;
      var p :| 0 <= p < |u| && u[p] == x && forall k | 0 <= k < p :: !Listeners.SameKey(u[k], x);
      assert ls[p] == x && ls[|ls| - 1] == FirstOnly(ls)[j];
    }
  }

  // ---- single lines -------------------------------------------------------------------

  lemma TrimmedStays(s: string)
    requires Trimmed(s)
    ensures TrimSpace(s) == s
  {
  }

  lemma PrefixedStays(prefix: string, s: string)
    requires prefix != "" && prefix[|prefix| - 1] != '\r' && Trimmed(s)
    ensures TrimReturns(prefix + s) == prefix + s
  {
    var t := prefix + s;
    if s == "" { assert t == prefix; } else { assert t[|t| - 1] == s[|s| - 1]; }
  }

  lemma NameLine(s: State, name: string)
    requires name != "" && Trimmed(name)
    ensures Line(s, "n" + name) == (if s.fileName != "" then Flush(s) else s).(fileName := name)
  {
    PrefixedStays("n", name);
    TrimmedStays(name);
    assert ("n" + name)[1..] == name;
  }

  lemma StateLine(s: State, st: string)
    requires st != "" && Trimmed(st)
    ensures Line(s, "TST=" + st) == (if s.fileSt != "" then Flush(s) else s).(fileSt := st)
  {
    PrefixedStays("TST=", st);
    TrimmedStays(st);
    var line := "TST=" + st;
    assert line[1..] == "ST=" + st && line[1..][3..] == st;
  }

  lemma {:induction false} FileLine(s: State, text: string)
    ensures Line(s, "f" + text) == Flush(s)
  {
    FileLineTrims(text);
  }

  lemma {:induction false} FileLineTrims(text: string)
    ensures TrimReturns("f" + text) != "" && TrimReturns("f" + text)[0] == 'f'
  {
    var t := "f" + text;
    if text != "" && text[|text| - 1] == '\r' {
      FileLineTrims(text[..|text| - 1]);
      assert t[..|t| - 1] == "f" + text[..|text| - 1];
    } else if text == "" {
      assert t == "f";
    }
  }

  lemma DigitsAreTrimmed(s: string)
    requires AllDigits(s)
    ensures Trimmed(s)
  {
  }

  lemma AtoiOfText(pid: int)
    requires 0 < pid <= MAX_INT
    ensures Atoi(IntText(pid)) == Some(pid)
  {
    DecimalRoundTrip(pid);
    var s := NatText(pid);
    assert IsDigit(s[0]);
  }

  lemma PidLine(s: State, pid: int)
    requires 0 < pid <= MAX_INT
    ensures Line(s, "p" + IntText(pid)) == State(pid, true, "", "", "", Flush(s).res)
  {
    DigitsAreTrimmed(NatText(pid));
    PrefixedStays("p", IntText(pid));
    TrimmedStays(IntText(pid));
    AtoiOfText(pid);
    assert ("p" + IntText(pid))[1..] == IntText(pid);
  }

  lemma CommandLine(s: State, command: string)
    requires Trimmed(command)
    ensures Line(s, "c" + command) == s.(command := command)
  {
    PrefixedStays("c", command);
    TrimmedStays(command);
    assert ("c" + command)[1..] == command;
  }

  // ---- runs of lines ---------------------------------------------------------------------

  lemma {:induction false} LinesConcat(s: State, a: seq<string>, b: seq<string>)
    ensures Lines(s, a + b) == Lines(Lines(s, a), b)
  {
    if b == [] {
      assert a + b == a;
    } else {
      var u := b[..|b| - 1];
      LinesConcat(s, a, u);
      assert (a + b)[..|a + b| - 1] == a + u;
    }
  }

  lemma OneLine(s: State, line: string)
    ensures Lines(s, [line]) == Line(s, line)
  {
    assert [line][..0] == [];
  }

  lemma TwoLines(s: State, x: string, y: string)
    ensures Lines(s, [x, y]) == Line(Line(s, x), y)
  {
    OneLine(s, x);
    assert [x, y][..1] == [x];
  }

  lemma SocketRun(s: State, e: Entry)
    requires IsEntry(e) && (s.fileName == "" ==> s.fileSt == "") && KeptApart(s, e.(file := None))
    ensures Lines(s, SocketLines(e)) == State(s.pid, s.haveP, s.command, e.name, e.state, Flush(s).res)
  {
    if e.state == "" {
      OneLine(s, "n" + e.name);
      NameLine(s, e.name);
    } else if e.stateFirst {
      TwoLines(s, "TST=" + e.state, "n" + e.name);
      StateLine(s, e.state);
      NameLine(Line(s, "TST=" + e.state), e.name);
    } else {
      TwoLines(s, "n" + e.name, "TST=" + e.state);
      NameLine(s, e.name);
      StateLine(Line(s, "n" + e.name), e.state);
    }
  }

  /** Whatever its layout, an entry flushes the one before it and is pending itself. */
  lemma EntryRun(s: State, e: Entry)
    requires IsEntry(e) && (s.fileName == "" ==> s.fileSt == "") && KeptApart(s, e)
    ensures Lines(s, EntryLines(e)) == State(s.pid, s.haveP, s.command, e.name, e.state, Flush(s).res)
  {
    if e.file.Some? {
      LinesConcat(s, ["f" + e.file.value], SocketLines(e));
      OneLine(s, "f" + e.file.value);
      FileLine(s, e.file.value);
      SocketRun(Flush(s), e);
    } else {
      SocketRun(s, e);
      assert [] + SocketLines(e) == SocketLines(e);
    }
  }

  lemma HeadRun(s: State, b: Block, sockets: seq<Listener>)
    requires IsBlock(b) && Flush(s).res == FirstOnly(sockets)
    ensures AtRead(Lines(s, HeadLines(b)), b.pid, CommandOf(b), sockets, [])
  {
    PidLine(s, b.pid);
    OneLine(s, "p" + IntText(b.pid));
    if b.command.Some? {
      TwoLines(s, "p" + IntText(b.pid), "c" + b.command.value);
      CommandLine(Line(s, "p" + IntText(b.pid)), b.command.value);
      assert HeadLines(b) == ["p" + IntText(b.pid), "c" + b.command.value];
    } else {
      assert HeadLines(b) == ["p" + IntText(b.pid)];
    }
  }

  ghost predicate Keeps<B, C>(P: (seq<B>, seq<C>) -> bool, x: seq<B>, y: seq<C>, u: seq<B>, v: seq<C>) {
    P(u, v) ==> P(u + x, v + y)
  }

  /** A property that each element keeps holds of the whole. */
  lemma {:induction false} ConcatInduction<A, B, C>(
    P: (seq<B>, seq<C>) -> bool, f: A -> seq<B>, g: A -> seq<C>, xs: seq<A>, n: nat, start: seq<B>, other: seq<C>)
    requires n <= |xs| && P(start, other)
    requires forall u, v, i | 0 <= i < |xs| :: Keeps(P, f(xs[i]), g(xs[i]), u, v)
    ensures P(start + Concat(f, xs, n), other + Concat(g, xs, n))
  {
    if n == 0 {
      assert start + [] == start && other + [] == other;
    } else {
      ConcatInduction(P, f, g, xs, n - 1, start, other);
      var x := xs[n - 1];
      var u, v := start + Concat(f, xs, n - 1), other + Concat(g, xs, n - 1);
      assert Keeps(P, f(xs[n - 1]), g(xs[n - 1]), u, v);
      assert u + f(x) == start + (Concat(f, xs, n - 1) + f(x));
      assert v + g(x) == other + (Concat(g, xs, n - 1) + g(x));
    }
  }

  lemma {:induction false} ConcatSame<A, B, C>(f: A -> seq<C>, xs: seq<A>, g: B -> seq<C>, ys: seq<B>, n: nat)
    requires n <= |xs| && n <= |ys| && forall i | 0 <= i < n :: f(xs[i]) == g(ys[i])
    ensures Concat(f, xs, n) == Concat(g, ys, n)
  {
    if n > 0 { ConcatSame(f, xs, g, ys, n - 1); }
  }

  /** The last name, with the state it has, is added when it is flushed. */
  lemma FlushAtRead(t: State, pid: int, command: string, before: seq<Listener>, rs: seq<Tagged>)
    requires AtRead(t, pid, command, before, rs)
    ensures Flush(t).res == FirstOnly(before + Concat(TaggedSockets(pid, command), rs, |rs|))
  {
    var g := TaggedSockets(pid, command);
    if rs == [] {
      assert before + [] == before;
    } else {
      var done, last := before + Concat(g, rs, |rs| - 1), rs[|rs| - 1];
      FirstOnlyPresent(done, SocketOf(pid, command, last.name, last.state));
      assert before + Concat(g, rs, |rs|) == done + g(last);
    }
  }

  lemma EntryApart(t: State, pid: int, command: string, before: seq<Listener>, rs: seq<Tagged>, e: Entry)
    requires AtRead(t, pid, command, before, rs) && IsEntry(e) && !Taken(rs, e)
    ensures AtRead(Lines(t, EntryLines(e)), pid, command, before, rs + [Tagged(e.name, e.state)])
  {
    var g := TaggedSockets(pid, command);
    EntryRun(t, e);
    FlushAtRead(t, pid, command, before, rs);
    ConcatSame(g, rs, g, rs + [Tagged(e.name, e.state)], |rs|);
  }

  lemma TakenLines(t: State, e: Entry)
    requires IsEntry(e) && e.stateFirst && e.file.None? && t.fileName != "" && t.fileSt == ""
    ensures
      var u := Flush(t.(fileSt := e.state));
      Lines(t, EntryLines(e)) == u.(fileName := e.name)
  {
    var x, y := "TST=" + e.state, "n" + e.name;
    assert EntryLines(e) == [x, y];
    TwoLines(t, x, y);
    StateLine(t, e.state);
    NameLine(t.(fileSt := e.state), e.name);
  }

  /** The state is taken for that of the last name of rs, which makes it full. */
  lemma EntryTakenAs(t: State, pid: int, command: string, before: seq<Listener>, rs: seq<Tagged>, full: seq<Tagged>,
                     st: string)
    requires AtRead(t, pid, command, before, rs) && rs != [] && |full| == |rs|
    requires Concat(TaggedSockets(pid, command), full, |rs| - 1) == Concat(TaggedSockets(pid, command), rs, |rs| - 1)
    requires full[|rs| - 1] == Tagged(rs[|rs| - 1].name, st)
    ensures AtRead(t.(fileSt := st), pid, command, before, full)
  {
  }

  lemma NewNamePending(u: State, pid: int, command: string, before: seq<Listener>, full: seq<Tagged>, name: string)
    requires AtRead(u, pid, command, before, full) && name != ""
    ensures AtRead(Flush(u).(fileName := name), pid, command, before, full + [Tagged(name, "")])
  {
    var g := TaggedSockets(pid, command);
    FlushAtRead(u, pid, command, before, full);
    ConcatSame(g, full, g, full + [Tagged(name, "")], |full|);
  }

  lemma EntryTaken(t: State, pid: int, command: string, before: seq<Listener>, rs: seq<Tagged>, e: Entry)
    requires AtRead(t, pid, command, before, rs) && IsEntry(e) && Taken(rs, e)
    ensures AtRead(Lines(t, EntryLines(e)), pid, command, before, ReadEntry(rs, e))
  {
    var n := |rs| - 1;
    var full := rs[..n] + [rs[n].(state := e.state)];
    TakenLines(t, e);
    ConcatSame(TaggedSockets(pid, command), full, TaggedSockets(pid, command), rs, n);
    EntryTakenAs(t, pid, command, before, rs, full, e.state);
    NewNamePending(t.(fileSt := e.state), pid, command, before, full, e.name);
  }

  ghost predicate KeptBy(P: (seq<string>, seq<Tagged>) -> bool, e: Entry, u: seq<string>, rs: seq<Tagged>) {
    P(u, rs) ==> P(u + EntryLines(e), ReadEntry(rs, e))
  }

  lemma {:induction false} ReadsInduction(P: (seq<string>, seq<Tagged>) -> bool, es: seq<Entry>, n: nat)
    requires n <= |es| && P([], []) && forall u, rs, i | 0 <= i < |es| :: KeptBy(P, es[i], u, rs)
    ensures P(Concat(EntryLines, es, n), Reads(es, n))
  {
    if n > 0 {
      ReadsInduction(P, es, n - 1);
      assert KeptBy(P, es[n - 1], Concat(EntryLines, es, n - 1), Reads(es, n - 1));
    }
  }

  /** Whatever the layouts, the entries are read as Reads says. */
  lemma EntriesRun(s: State, b: Block, before: seq<Listener>)
    requires IsBlock(b) && AtRead(s, b.pid, CommandOf(b), before, [])
    ensures
      var n := |b.entries|;
      AtRead(Lines(s, Concat(EntryLines, b.entries, n)), b.pid, CommandOf(b), before, Reads(b.entries, n))
  {
    var P := (u: seq<string>, rs: seq<Tagged>) => AtRead(Lines(s, u), b.pid, CommandOf(b), before, rs);
    forall u, rs, i | 0 <= i < |b.entries| ensures KeptBy(P, b.entries[i], u, rs) {
      if P(u, rs) { EntryStep(s, b, before, i, u, rs); }
    }
    ReadsInduction(P, b.entries, |b.entries|);
  }

  lemma EntryStep(s: State, b: Block, before: seq<Listener>, n: nat, u: seq<string>, rs: seq<Tagged>)
    requires IsBlock(b) && n < |b.entries| && AtRead(Lines(s, u), b.pid, CommandOf(b), before, rs)
    ensures AtRead(Lines(s, u + EntryLines(b.entries[n])), b.pid, CommandOf(b), before, ReadEntry(rs, b.entries[n]))
  {
    var e := b.entries[n];
    LinesConcat(s, u, EntryLines(e));
    if Taken(rs, e) {
      EntryTaken(Lines(s, u), b.pid, CommandOf(b), before, rs, e);
    } else {
      EntryApart(Lines(s, u), b.pid, CommandOf(b), before, rs, e);
    }
  }

  lemma BlockRun(s: State, b: Block, sockets: seq<Listener>)
    requires IsBlock(b) && Yields(s, sockets)
    ensures Yields(Lines(s, BlockLines(b)), sockets + ReadSockets(b))
  {
    var n, t := |b.entries|, Lines(s, HeadLines(b));
    HeadRun(s, b, sockets);
    LinesConcat(s, HeadLines(b), Concat(EntryLines, b.entries, n));
    EntriesRun(t, b, sockets);
    FlushAtRead(Lines(t, Concat(EntryLines, b.entries, n)), b.pid, CommandOf(b), sockets, Reads(b.entries, n));
  }

  lemma BlocksRun(start: State, bs: seq<Block>)
    requires AllBlocks(bs) && Yields(start, [])
    ensures Yields(Lines(start, Concat(BlockLines, bs, |bs|)), Concat(ReadSockets, bs, |bs|))
  {
    var P := (u: seq<string>, v: seq<Listener>) => Yields(Lines(start, u), v);
    forall u, v, i | 0 <= i < |bs| ensures Keeps(P, BlockLines(bs[i]), ReadSockets(bs[i]), u, v) {
      if P(u, v) {
        var b := bs[i];
        LinesConcat(start, u, BlockLines(b));
        BlockRun(Lines(start, u), b, v);
      }
    }
    ConcatInduction(P, BlockLines, ReadSockets, bs, |bs|, [], []);
    assert [] + Concat(BlockLines, bs, |bs|) == Concat(BlockLines, bs, |bs|);
    assert [] + Concat(ReadSockets, bs, |bs|) == Concat(ReadSockets, bs, |bs|);
  }

  // ---- noise --------------------------------------------------------------------------------

  lemma {:induction false} TrimReturnsTwice(s: string)
    ensures TrimReturns(TrimReturns(s)) == TrimReturns(s)
  {
    if s != "" && s[|s| - 1] == '\r' { TrimReturnsTwice(s[..|s| - 1]); }
  }

  lemma {:induction false} CleanRun(s: State, lines: seq<string>)
    ensures Lines(s, lines) == Lines(s, Clean(lines))
  {
    if lines != [] {
      var u, line := lines[..|lines| - 1], lines[|lines| - 1];
      CleanRun(s, u);
      if IsNoise(line) {
        assert Clean(lines) == Clean(u);
      } else {
        TrimReturnsTwice(line);
        LinesConcat(s, Clean(u), [TrimReturns(line)]);
        OneLine(Lines(s, Clean(u)), TrimReturns(line));
      }
    }
  }

  /** Any process blocks, with every entry printed name first, state first or without
      a state, with or without a file line, with other lines in between and with either
      line ending, parse to the first occurrence by (port, PID) of the listening,
      non-connection sockets they are read as, in order. */
  lemma LsofIsRead(lines: seq<string>, bs: seq<Block>)
    requires AllBlocks(bs) && Clean(lines) == Concat(BlockLines, bs, |bs|)
    ensures ParseLsof(lines) == FirstOnly(Concat(ReadSockets, bs, |bs|))
  {
    CleanRun(START, lines);
    BlocksRun(START, bs);
  }

  /** The round trip gives the sockets the entries stand for if and only if these and
      the sockets the entries are read as have the same first occurrences. */
  lemma LsofRoundTrips(lines: seq<string>, bs: seq<Block>)
    requires AllBlocks(bs) && Clean(lines) == Concat(BlockLines, bs, |bs|)
    ensures ParseLsof(lines) == FirstOnly(Concat(BlockSockets, bs, |bs|)) <==>
      FirstOnly(Concat(ReadSockets, bs, |bs|)) == FirstOnly(Concat(BlockSockets, bs, |bs|))
  {
    LsofIsRead(lines, bs);
  }

  lemma {:induction false} SeparableReads(b: Block, n: nat)
    requires Separable(b) && n <= |b.entries|
    ensures |Reads(b.entries, n)| == n
    ensures forall i | 0 <= i < n :: Reads(b.entries, n)[i] == Tagged(b.entries[i].name, b.entries[i].state)
  {
    if n > 0 {
      SeparableReads(b, n - 1);
      assert n > 1 ==> !Taken(Reads(b.entries, n - 1), b.entries[n - 1]);
    }
  }

  /** Where every state stays with its entry the round trip holds: in particular when
      every entry has its state, as lsof prints them. */
  lemma SeparableRoundTrips(lines: seq<string>, bs: seq<Block>)
    requires AllBlocks(bs) && Clean(lines) == Concat(BlockLines, bs, |bs|)
    requires forall i | 0 <= i < |bs| :: Separable(bs[i])
    ensures ParseLsof(lines) == FirstOnly(Concat(BlockSockets, bs, |bs|))
  {
    LsofIsRead(lines, bs);
    forall i | 0 <= i < |bs| ensures ReadSockets(bs[i]) == BlockSockets(bs[i]) { SeparableSockets(bs[i]); }
    ConcatSame(ReadSockets, bs, BlockSockets, bs, |bs|);
  }

  lemma SeparableSockets(b: Block)
    requires Separable(b)
    ensures ReadSockets(b) == BlockSockets(b)
  {
    var n := |b.entries|;
    SeparableReads(b, n);
    ConcatSame(TaggedSockets(b.pid, CommandOf(b)), Reads(b.entries, n),
               EntrySockets(b.pid, CommandOf(b)), b.entries, n);
  }

  /** What the rest of the program sees: the normal form of the parsed list is the
      normal form of the sockets the output is read as. */
  lemma NormalOfParsed(lines: seq<string>, bs: seq<Block>, out: seq<Listener>)
    requires AllBlocks(bs) && Clean(lines) == Concat(BlockLines, bs, |bs|)
    ensures Listeners.IsNormalOf(out, ParseLsof(lines)) <==>
      Listeners.IsNormalOf(out, Concat(ReadSockets, bs, |bs|))
  {
    LsofIsRead(lines, bs);
    var ls := Concat(ReadSockets, bs, |bs|);
    FirstOnlyMeans(ls);
    forall l ensures Listeners.IsFirst(FirstOnly(ls), l) <==> l in FirstOnly(ls) {
      if l in FirstOnly(ls) {
        var i :| 0 <= i < |FirstOnly(ls)| && FirstOnly(ls)[i] == l;
        assert Listeners.IsFirst(FirstOnly(ls), l);
      }
    }
  }

  // ---- a state that is taken ------------------------------------------------------------

  /** A connection, printed with a state that is not LISTEN. */
  predicate IsClosed(e: Entry) {
    IsEntry(e) && IsConnection(e.name) && e.state != "" && !IsListen(e.state) && e.stateFirst && e.file.None?
  }

  lemma OneBlock(b: Block)
    requires IsBlock(b)
    ensures ParseLsof(BlockLines(b)) == FirstOnly(ReadSockets(b))
  {
    BlockRun(START, b, []);
    assert [] + ReadSockets(b) == ReadSockets(b);
  }

  /** An entry without a state loses its listening socket to the state of a connection
      printed right after it; with a file line between the two it does not. */
  lemma MergedWhenTaken(pid: int, addr: string, closed: Entry, fd: string)
    requires 0 < pid <= MAX_INT && addr != "" && Trimmed(addr) && SocketOf(pid, "", addr, "").Some?
    requires IsClosed(closed)
    ensures
      var open := Entry(None, addr, "", false);
      && ParseLsof(BlockLines(Block(pid, None, [open, closed]))) == []
      && ParseLsof(BlockLines(Block(pid, None, [open, closed.(file := Some(fd))])))
         == [SocketOf(pid, "", addr, "").value]
  {
    var open, apart := Entry(None, addr, "", false), closed.(file := Some(fd));
    TwoEntries(pid, open, closed, Tagged(addr, closed.state), Tagged(closed.name, ""));
    TwoEntries(pid, open, apart, Tagged(addr, ""), Tagged(closed.name, closed.state));
  }

  /** A process with two entries, read as x and y. */
  lemma TwoEntries(pid: int, first: Entry, second: Entry, x: Tagged, y: Tagged)
    requires 0 < pid <= MAX_INT && IsEntry(first) && IsEntry(second)
    requires ReadEntry([Tagged(first.name, first.state)], second) == [x, y]
    requires SocketOf(pid, "", y.name, y.state) == None
    ensures ParseLsof(BlockLines(Block(pid, None, [first, second]))) == Present(SocketOf(pid, "", x.name, x.state))
  {
    OneBlock(Block(pid, None, [first, second]));
    TwoReads(first, second);
    TwoSockets(pid, x, y);
  }

  lemma TwoReads(x: Entry, y: Entry)
    ensures Reads([x, y], 2) == ReadEntry([Tagged(x.name, x.state)], y)
  {
    assert Reads([x, y], 1) == [] + [Tagged(x.name, x.state)];
  }

  lemma TwoSockets(pid: int, x: Tagged, y: Tagged)
    requires SocketOf(pid, "", y.name, y.state) == None
    ensures FirstOnly(Concat(TaggedSockets(pid, ""), [x, y], 2)) == Present(SocketOf(pid, "", x.name, x.state))
  {
    var g := TaggedSockets(pid, "");
    assert Concat(g, [x, y], 1) == [] + g(x);
    assert Concat(g, [x, y], 2) == g(x) + [];
    assert FirstOnly([]) == [];
    FirstOnlyPresent([], SocketOf(pid, "", x.name, x.state));
    assert [] + g(x) == g(x);
  }
}
