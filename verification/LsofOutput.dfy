/** The output lsof prints, and which sockets it stands for. */
module LsofOutput {
  import opened Domain
  import opened Text
  import opened Lsof

  // ---- what lsof prints ------------------------------------------------------------

  /** One open socket: its name and TCP state, in either order, and possibly a file
      descriptor line before them. The state is empty when no line gives it. */
  datatype Entry = Entry(file: Option<string>, name: string, state: string, stateFirst: bool)

  datatype Block = Block(pid: int, command: Option<string>, entries: seq<Entry>)

  predicate IsEntry(e: Entry) {
    e.name != "" && Trimmed(e.name) && Trimmed(e.state) && (e.stateFirst ==> e.state != "")
  }

  predicate IsBlock(b: Block) {
    && 0 < b.pid <= MAX_INT && (b.command.Some? ==> Trimmed(b.command.value))
    && forall i | 0 <= i < |b.entries| :: IsEntry(b.entries[i])
  }

  function SocketLines(e: Entry): seq<string> {
    if e.state == "" then ["n" + e.name]
    else if e.stateFirst then ["TST=" + e.state, "n" + e.name]
    else ["n" + e.name, "TST=" + e.state]
  }

  function EntryLines(e: Entry): seq<string> {
    (if e.file.Some? then ["f" + e.file.value] else []) + SocketLines(e)
  }

  // ---- ports as lsof prints them -----------------------------------------------------

  /** A socket of a process: one that listens on a port, or any other - a connection
      or one in another state. */
  datatype Socket =
    | Listens(host: string, port: nat, marked: bool)      // marked: followed by " (LISTEN)"
    | Other(name: string, state: string)

  /** An address, a name, "*", or nothing. */
  predicate IsHost(h: string) {
    (h == "" || !IsSpace(h[0])) && !IsConnection(h) && forall i | 0 <= i < |h| :: h[i] != ' '
  }

  predicate IsSocket(s: Socket) {
    match s
    case Listens(host, port, _) => IsHost(host) && 1 <= port <= MAX_PORT
    case Other(name, state) =>
      name != "" && Trimmed(name) && state != "" && Trimmed(state) && (IsConnection(name) || !IsListen(state))
  }

  function Address(host: string, port: nat): string {
    host + ":" + NatText(port)
  }

  /** How the entry of a socket is laid out. */
  datatype Layout = Layout(file: Option<string>, stateFirst: bool)

  datatype Process = Process(pid: int, command: Option<string>, sockets: seq<(Socket, Layout)>)

  predicate IsProcess(p: Process) {
    && 0 < p.pid <= MAX_INT && (p.command.Some? ==> Trimmed(p.command.value))
    && forall i | 0 <= i < |p.sockets| :: IsSocket(p.sockets[i].0)
  }

  function EntryFor(s: (Socket, Layout)): Entry {
    match s.0
    case Listens(host, port, marked) =>
      Entry(s.1.file, Address(host, port) + (if marked then " (LISTEN)" else ""), "LISTEN", s.1.stateFirst)
    case Other(name, state) => Entry(s.1.file, name, state, s.1.stateFirst)
  }

  function BlockFor(p: Process): Block {
    Block(p.pid, p.command, seq(|p.sockets|, i requires 0 <= i < |p.sockets| => EntryFor(p.sockets[i])))
  }

  function ListenersFor(pid: int, command: string, s: Socket): seq<Listener> {
    if s.Listens? then [Listener(s.port, pid, command, Address(s.host, s.port))] else []
  }

  /** f of every element, one after the other. */
  function Concat<A, B>(f: A -> seq<B>, xs: seq<A>, n: nat): seq<B>
    requires n <= |xs|
  {
    if n == 0 then [] else Concat(f, xs, n - 1) + f(xs[n - 1])
  }

  function HeadLines(b: Block): seq<string> {
    ["p" + IntText(b.pid)] + if b.command.Some? then ["c" + b.command.value] else []
  }

  function BlockLines(b: Block): seq<string> {
    HeadLines(b) + Concat(EntryLines, b.entries, |b.entries|)
  }

  predicate AllBlocks(bs: seq<Block>) {
    forall i | 0 <= i < |bs| :: IsBlock(bs[i])
  }

  /** A line of no interest: empty, another field, or another TCP detail. */
  predicate IsNoise(line: string) {
    var t := TrimReturns(line);
    t == "" || t[0] !in {'p', 'c', 'f', 'n', 'T'} || (t[0] == 'T' && !("ST=" <= t[1..]))
  }

  /** The lines of interest, without carriage returns at the end. */
  function Clean(lines: seq<string>): seq<string> {
    if lines == [] then [] else
      Clean(lines[..|lines| - 1]) + if IsNoise(lines[|lines| - 1]) then [] else [TrimReturns(lines[|lines| - 1])]
  }

  // ---- what it means ----------------------------------------------------------------

  function CommandOf(b: Block): string {
    if b.command.Some? then b.command.value else ""
  }

  function Present(o: Option<Listener>): seq<Listener> {
    if o.Some? then [o.value] else []
  }

  /** The socket an entry of a process stands for, if it is a listening one. */
  function EntrySockets(pid: int, command: string): Entry -> seq<Listener> {
    (e: Entry) => Present(SocketOf(pid, command, e.name, e.state))
  }

  function BlockSockets(b: Block): seq<Listener> {
    Concat(EntrySockets(b.pid, CommandOf(b)), b.entries, |b.entries|)
  }

  // ---- how it is read ------------------------------------------------------------------

  /** A name and the state that is taken for its own. */
  datatype Tagged = Tagged(name: string, state: string)

  /** A state printed first, without a file line before it, is taken for that of the
      name read last when that one has none yet. */
  predicate Taken(rs: seq<Tagged>, e: Entry) {
    rs != [] && rs[|rs| - 1].state == "" && e.stateFirst && e.file.None?
  }

  function ReadEntry(rs: seq<Tagged>, e: Entry): seq<Tagged> {
    if Taken(rs, e) then rs[..|rs| - 1] + [rs[|rs| - 1].(state := e.state)] + [Tagged(e.name, "")]
    else rs + [Tagged(e.name, e.state)]
  }

  function Reads(es: seq<Entry>, n: nat): seq<Tagged>
    requires n <= |es|
  {
    if n == 0 then [] else ReadEntry(Reads(es, n - 1), es[n - 1])
  }

  function TaggedSockets(pid: int, command: string): Tagged -> seq<Listener> {
    (r: Tagged) => Present(SocketOf(pid, command, r.name, r.state))
  }

  /** The sockets a block is read as. */
  function ReadSockets(b: Block): seq<Listener> {
    var rs := Reads(b.entries, |b.entries|);
    Concat(TaggedSockets(b.pid, CommandOf(b)), rs, |rs|)
  }

  /** No state of the block is taken for that of another entry. */
  predicate Separable(b: Block) {
    forall i | 0 < i < |b.entries| ::
      b.entries[i - 1].state != "" || b.entries[i].file.Some? || !b.entries[i].stateFirst
  }

  function ListenersOf(p: Process): seq<Listener> {
    var command := if p.command.Some? then p.command.value else "";
    Concat((s: (Socket, Layout)) => ListenersFor(p.pid, command, s.0), p.sockets, |p.sockets|)
  }

  /** Each (port, PID) once, where it first comes up. */
  function FirstOnly(ls: seq<Listener>): seq<Listener> {
    if ls == [] then [] else AddFirst(FirstOnly(ls[..|ls| - 1]), ls[|ls| - 1])
  }

  // ---- states between two entries ------------------------------------------------------

  /** The process is known, the last of the names rs is pending, and the others have
      been added to what came before. */
  predicate AtRead(s: State, pid: int, command: string, before: seq<Listener>, rs: seq<Tagged>) {
    && s.pid == pid && s.haveP && s.command == command
    && if rs == [] then s.fileName == "" && s.fileSt == "" && s.res == FirstOnly(before)
       else
         && s.fileName == rs[|rs| - 1].name != "" && s.fileSt == rs[|rs| - 1].state
         && s.res == FirstOnly(before + Concat(TaggedSockets(pid, command), rs, |rs| - 1))
  }

  /** The entry will be kept apart from the pending one. */
  predicate KeptApart(s: State, e: Entry) {
    s.fileName == "" || s.fileSt != "" || e.file.Some? || !e.stateFirst
  }

  /** Once the pending entry is flushed the result is the first occurrences of `sockets`. */
  predicate Yields(s: State, sockets: seq<Listener>) {
    Flush(s).res == FirstOnly(sockets)
  }
}
