/** What parseLsof makes of sockets printed with their addresses and ports. */
module LsofPorts {
  import opened Domain
  import opened Text
  import opened Lsof
  import opened LsofOutput
  import opened LsofRoundTrip

  lemma {:induction false} LastColonAt(s: string, n: nat, i: nat)
    requires i < n <= |s| && s[i] == ':' && forall k | i < k < n :: s[k] != ':'
    ensures LastColon(s, n) == i
  {
    if n - 1 > i { LastColonAt(s, n - 1, i); }
  }

  lemma PortOfAddress(host: string, port: nat)
    requires 1 <= port <= MAX_PORT
    ensures PortOf(Address(host, port)) == Some(port)
  {
    var a, text := Address(host, port), NatText(port);
    assert a[|host|] == ':' && a[|host| + 1..] == text;
    forall k | |host| < k < |a| ensures a[k] != ':' { assert a[k] == text[k - |host| - 1] && IsDigit(a[k]); }
    LastColonAt(a, |a|, |host|);
    AtoiOfText(port);
    assert IsDigit(text[0]);
  }

  lemma {:induction false} BeforeSpaceStops(s: string, rest: string)
    requires (forall i | 0 <= i < |s| :: s[i] != ' ') && (rest == "" || rest[0] == ' ')
    ensures BeforeSpace(s + rest) == s
  {
    if s == "" {
      assert s + rest == rest;
    } else {
      BeforeSpaceStops(s[1..], rest);
      assert (s + rest)[1..] == s[1..] + rest;
    }
  }

  predicate IsTail(s: string) {
    forall i | 0 <= i < |s| :: s[i] != '>'
  }

  lemma NoConnection(host: string, tail: string)
    requires !IsConnection(host) && IsTail(tail)
    ensures !IsConnection(host + tail)
  {
    var s := host + tail;
    forall i | 0 <= i < |s| - 1 ensures !(s[i] == '-' && s[i + 1] == '>') {
      if i + 1 >= |host| { assert s[i + 1] == tail[i + 1 - |host|]; }
    }
  }

  function Mark(marked: bool): string {
    if marked then " (LISTEN)" else ""
  }

  lemma AddressEnds(host: string, port: nat, marked: bool)
    requires IsHost(host)
    ensures BeforeSpace(Address(host, port) + Mark(marked)) == Address(host, port)
  {
    var a, text := Address(host, port), NatText(port);
    forall i | 0 <= i < |a| ensures a[i] != ' ' {
      if i < |host| { assert a[i] == host[i]; }
      if i > |host| { assert a[i] == text[i - |host| - 1] && IsDigit(a[i]); }
    }
    BeforeSpaceStops(a, Mark(marked));
  }

  lemma AddressIsNoConnection(host: string, port: nat, marked: bool)
    requires IsHost(host)
    ensures !IsConnection(Address(host, port) + Mark(marked))
  {
    var text := NatText(port);
    var tail := ":" + text + Mark(marked);
    assert forall i | 0 <= i < |text| :: IsDigit(text[i]);
    NoConnection(host, tail);
    assert Address(host, port) + Mark(marked) == host + tail;
  }

  lemma AddressIsTrimmed(host: string, port: nat, marked: bool)
    requires IsHost(host)
    ensures Address(host, port) + Mark(marked) != "" && Trimmed(Address(host, port) + Mark(marked))
  {
    var name, text := Address(host, port) + Mark(marked), NatText(port);
    assert name[0] == if host == "" then ':' else host[0];
    assert name[|name| - 1] == if marked then ')' else text[|text| - 1];
    assert IsDigit(text[|text| - 1]);
  }

  lemma ListenerIsRead(pid: int, command: string, host: string, port: nat, marked: bool)
    requires IsHost(host) && 1 <= port <= MAX_PORT
    ensures
      var name := Address(host, port) + Mark(marked);
      && name != "" && Trimmed(name)
      && SocketOf(pid, command, name, "LISTEN") == Some(Listener(port, pid, command, Address(host, port)))
  {
    AddressEnds(host, port, marked);
    AddressIsNoConnection(host, port, marked);
    AddressIsTrimmed(host, port, marked);
    PortOfAddress(host, port);
  }

  /** A socket as it is printed is read for what it is. */
  lemma SocketIsRead(pid: int, command: string, s: (Socket, Layout))
    requires IsSocket(s.0)
    ensures IsEntry(EntryFor(s)) && EntryFor(s).state != ""
    ensures EntrySockets(pid, command)(EntryFor(s)) == ListenersFor(pid, command, s.0)
  {
    if s.0.Listens? {
      ListenerIsRead(pid, command, s.0.host, s.0.port, s.0.marked);
    }
  }

  lemma ProcessIsRead(p: Process)
    requires IsProcess(p)
    ensures IsBlock(BlockFor(p)) && Separable(BlockFor(p)) && BlockSockets(BlockFor(p)) == ListenersOf(p)
  {
    var b, command := BlockFor(p), CommandOf(BlockFor(p));
    var g := (s: (Socket, Layout)) => ListenersFor(p.pid, command, s.0);
    forall i | 0 <= i < |p.sockets|
      ensures IsEntry(b.entries[i]) && b.entries[i].state != ""
      ensures EntrySockets(p.pid, command)(b.entries[i]) == g(p.sockets[i])
    {
      SocketIsRead(p.pid, command, p.sockets[i]);
    }
    ConcatSame(EntrySockets(p.pid, command), b.entries, g, p.sockets, |p.sockets|);
  }

  function ProcessLines(p: Process): seq<string> {
    BlockLines(BlockFor(p))
  }

  /** Round trip with ports: any processes, their sockets printed as host and port,
      with or without a mark, in any layout and among other sockets and other
      lines, parse to exactly the ports they listen on, each (port, PID) once. */
  lemma PortsRoundTrip(lines: seq<string>, ps: seq<Process>)
    requires forall i | 0 <= i < |ps| :: IsProcess(ps[i])
    requires Clean(lines) == Concat(ProcessLines, ps, |ps|)
    ensures ParseLsof(lines) == FirstOnly(Concat(ListenersOf, ps, |ps|))
  {
    var bs := seq(|ps|, i requires 0 <= i < |ps| => BlockFor(ps[i]));
    forall i | 0 <= i < |ps| ensures IsBlock(bs[i]) && Separable(bs[i]) && BlockSockets(bs[i]) == ListenersOf(ps[i]) {
      ProcessIsRead(ps[i]);
    }
    ConcatSame(BlockLines, bs, ProcessLines, ps, |ps|);
    ConcatSame(BlockSockets, bs, ListenersOf, ps, |ps|);
    SeparableRoundTrips(lines, bs);
  }
}
