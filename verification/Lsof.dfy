/** internal/cli/listeners.go: parseLsof, the field-output state machine.

    The output is given as its lines, without the newlines. */
module Lsof {
  import opened Domain
  import opened Text

  // ---- strings -------------------------------------------------------------------

  function TrimReturns(s: string): string {
    if s != "" && s[|s| - 1] == '\r' then TrimReturns(s[..|s| - 1]) else s
  }

  const MAX_INT: int := 0x7FFF_FFFF_FFFF_FFFF

  /** strconv.Atoi: an optional sign, digits, and a 64-bit range. */
  function Atoi(s: string): Option<int> {
    var signed := s != "" && (s[0] == '-' || s[0] == '+');
    var digits := if signed then s[1..] else s;
    if digits == "" || !AllDigits(digits) then None
    else
      var v: int := DecimalValue(digits);
      var n := if s[0] == '-' then -v else v;
      if -MAX_INT - 1 <= n <= MAX_INT then Some(n) else None
  }

  function LastColon(s: string, n: nat): (i: int)
    requires n <= |s|
    ensures -1 <= i < n
  {
    if n == 0 then -1 else if s[n - 1] == ':' then n - 1 else LastColon(s, n - 1)
  }

  /** splitHostPort: the port after the last colon. */
  function PortOf(addr: string): Option<int> {
    var i := LastColon(addr, |addr|);
    if i < 0 then None
    else
      var text := addr[i + 1..];
      var p := Atoi(text);
      if p.None? || p.value < 1 || p.value > MAX_PORT || text[0] == '+' || text[0] == '-' then None else p
  }

  function BeforeSpace(s: string): string {
    if s == "" || s[0] == ' ' then "" else [s[0]] + BeforeSpace(s[1..])
  }

  predicate IsConnection(name: string) {
    exists i :: 0 <= i < |name| - 1 && name[i] == '-' && name[i + 1] == '>'
  }

  /** strings.EqualFold with "LISTEN": the long s folds with S. */
  predicate IsListen(st: string) {
    && |st| == 6
    && st[0] in {'L', 'l'} && st[1] in {'I', 'i'} && st[2] in {'S', 's', '\U{017F}'}
    && st[3] in {'T', 't'} && st[4] in {'E', 'e'} && st[5] in {'N', 'n'}
  }

  // ---- the state machine ----------------------------------------------------------

  /** The listener an entry stands for, None when it is not a listening socket. */
  function SocketOf(pid: int, command: string, name: string, st: string): Option<Listener> {
    if name == "" || IsConnection(name) || (st != "" && !IsListen(st)) then None
    else
      match PortOf(BeforeSpace(name))
      case None => None
      case Some(port) => Some(Listener(port, pid, command, BeforeSpace(name)))
  }

  predicate HasKey(ls: seq<Listener>, port: int, pid: int) {
    exists i :: 0 <= i < |ls| && ls[i].port == port && ls[i].pid == pid
  }

  function AddFirst(ls: seq<Listener>, l: Listener): seq<Listener> {
    if HasKey(ls, l.port, l.pid) then ls else ls + [l]
  }

  lemma KeyAdded(ls: seq<Listener>, l: Listener)
    ensures forall port, pid :: HasKey(ls + [l], port, pid) <==>
      HasKey(ls, port, pid) || (l.port == port && l.pid == pid)
  {
    forall port, pid
      ensures HasKey(ls + [l], port, pid) <==> HasKey(ls, port, pid) || (l.port == port && l.pid == pid)
    {
      var u := ls + [l];
      assert u[|ls|] == l && forall i | 0 <= i < |ls| :: u[i] == ls[i];
    }
  }

  datatype State = State(pid: int, haveP: bool, command: string, fileName: string, fileSt: string, res: seq<Listener>)

  const START: State := State(0, false, "", "", "", [])

  function Flush(s: State): State {
    var e := SocketOf(s.pid, s.command, s.fileName, s.fileSt);
    s.(fileName := "", fileSt := "", res := if s.haveP && e.Some? then AddFirst(s.res, e.value) else s.res)
  }

  function PidOf(n: Option<int>): int {
    if n.Some? then n.value else 0
  }

  /** One line that is not empty after its carriage returns are gone. */
  function Field(s: State, line: string): State
    requires line != ""
  {
    var val := line[1..];
    match line[0]
    case 'p' =>
      var n := Atoi(TrimSpace(val));
      Flush(s).(haveP := n.Some? && n.value > 0, pid := PidOf(n), command := "")
    case 'c' => s.(command := TrimSpace(val))
    case 'f' => Flush(s)
    case 'n' => (if s.fileName != "" then Flush(s) else s).(fileName := TrimSpace(val))
    case 'T' =>
      if "ST=" <= val then (if s.fileSt != "" then Flush(s) else s).(fileSt := TrimSpace(val[3..])) else s
    case _ => s
  }

  function Line(s: State, line: string): State {
    if TrimReturns(line) == "" then s else Field(s, TrimReturns(line))
  }

  function Lines(s: State, lines: seq<string>): State {
    if lines == [] then s else Line(Lines(s, lines[..|lines| - 1]), lines[|lines| - 1])
  }

  function ParseLsof(lines: seq<string>): seq<Listener> {
    Flush(Lines(START, lines)).res
  }

  /** The variables of parseLsof; flush and the loop body are its methods. */
  class Parser {
    var res: seq<Listener>
    var seen: set<(int, int)>
    var pid: int
    var haveP: bool
    var command: string
    var fileName: string
    var fileSt: string

    function Value(): State
      reads this
    {
      State(pid, haveP, command, fileName, fileSt, res)
    }

    ghost predicate Valid()
      reads this
    {
      forall port, p :: (port, p) in seen <==> HasKey(res, port, p)
    }

    constructor ()
      ensures Valid() && Value() == START
    {
      res, seen := [], {};
      pid, haveP, command, fileName, fileSt := 0, false, "", "", "";
    }

    method FlushEntry()
      requires Valid()
      modifies this
      ensures Valid() && Value() == Flush(old(Value()))
    {
      var name, st := fileName, fileSt;
      fileName, fileSt := "", "";
      if name == "" || !haveP {
        return;
      }
      if IsConnection(name) {
        return;
      }
      if st != "" && !IsListen(st) {
        return;
      }
      var local := BeforeSpace(name);
      var port := PortOf(local);
      if port.None? || (port.value, pid) in seen {
        return;
      }
      KeyAdded(res, Listener(port.value, pid, command, local));
      seen := seen + {(port.value, pid)};
      res := res + [Listener(port.value, pid, command, local)];
    }

    method ReadLine(raw: string)
      requires Valid()
      modifies this
      ensures Valid() && Value() == Line(old(Value()), raw)
    {
      var line := TrimReturns(raw);
      if line == "" {
        return;
      }
      var val := line[1..];
      match line[0]
      case 'p' =>
        FlushEntry();
        var n := Atoi(TrimSpace(val));
        haveP := n.Some? && n.value > 0;
        pid := PidOf(n);
        command := "";
      case 'c' =>
        command := TrimSpace(val);
      case 'f' =>
        FlushEntry();
      case 'n' =>
        if fileName != "" {
          FlushEntry();
        }
        fileName := TrimSpace(val);
      case 'T' =>
        if "ST=" <= val {
          if fileSt != "" {
            FlushEntry();
          }
          fileSt := TrimSpace(val[3..]);
        }
      case _ =>
    }
  }

  method Parse(lines: seq<string>) returns (res: seq<Listener>)
    ensures res == ParseLsof(lines)
  {
    var p := new Parser();
    for n := 0 to |lines|
      invariant p.Valid() && p.Value() == Lines(START, lines[..n]) && fresh(p)
    {
      assert lines[..n + 1][..n] == lines[..n];
      p.ReadLine(lines[n]);
    }
    assert lines[..|lines|] == lines;
    p.FlushEntry();
    res := p.res;
  }
}
