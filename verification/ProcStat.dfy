/** internal/cli/procid.go: reading a start time from /proc/<pid>/stat. */
module ProcStat {
  import opened Domain
  import opened Text

  const START_TIME: nat := 19      // field 22, counted from the state field after the command

  const MAX_UINT: int := 0xFFFF_FFFF_FFFF_FFFF

  /** strconv.ParseUint(s, 10, 64) succeeds. */
  predicate IsUint(s: string) {
    s != "" && AllDigits(s) && DecimalValue(s) <= MAX_UINT
  }

  /** The position of the last closing parenthesis among the first n characters. */
  function LastParen(s: string, n: nat): (i: int)
    requires n <= |s|
    ensures -1 <= i < n
    ensures i >= 0 ==> s[i] == ')'
    ensures forall k | i < k < n :: s[k] != ')'
  {
    if n == 0 then -1 else if s[n - 1] == ')' then n - 1 else LastParen(s, n - 1)
  }

  function ParseProcStat(s: string): Option<string> {
    var i := LastParen(s, |s|);
    if i < 0 then None
    else
      var fields := Fields(s[i + 1..]);
      if |fields| <= START_TIME || !IsUint(fields[START_TIME]) then None else Some(fields[START_TIME])
  }

  /** A stat line: PID, the command in parentheses, and the fields after it. */
  function Stat(pid: string, command: string, fields: seq<string>): string {
    (pid + " (" + command) + ")" + Spaced(fields)
  }

  lemma {:induction false} NoParenInSpaced(ws: seq<string>)
    requires forall i | 0 <= i < |ws| :: ')' !in ws[i]
    ensures ')' !in Spaced(ws)
  {
    if ws != [] { NoParenInSpaced(ws[1..]); }
  }

  /** The start time is found whatever the command is called: it may hold spaces,
      parentheses, or text that looks like further fields. */
  lemma StatRoundTrip(pid: string, command: string, fields: seq<string>)
    requires forall i | 0 <= i < |fields| :: IsWord(fields[i]) && ')' !in fields[i]
    ensures ParseProcStat(Stat(pid, command, fields)) ==
      if |fields| > START_TIME && IsUint(fields[START_TIME]) then Some(fields[START_TIME]) else None
  {
    var head, tail := pid + " (" + command, Spaced(fields);
    var s := Stat(pid, command, fields);
    NoParenInSpaced(fields);
    FieldsRoundTrip(fields);
    assert s[|head|] == ')' && s[|head| + 1..] == tail;
    forall k | |head| < k < |s| ensures s[k] != ')' {
      assert s[k] == tail[k - |head| - 1] && tail[k - |head| - 1] in tail;
    }
  }
}
