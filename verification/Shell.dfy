/**
 * The shell's parser (user/sh.c): tokens and commands as positions in the line,
 * the parse functions as functions over positions, nulterminate on the buffer.
 */
module Shell {
  import opened Common
  const MAXARGS: nat := 10

  predicate Space(c: char) { c == ' ' || c == '\t' || c == '\r' || c == '\n' || c == '\U{0B}' }

  predicate Symbol(c: char) { c == '<' || c == '|' || c == '>' || c == '&' || c == ';' || c == '(' || c == ')' }

  predicate WordChar(c: char) { !Space(c) && !Symbol(c) }

  // ------------------------------------------------------------------ tokens

  /** Past white space. */
  function Skip(s: string, p: nat): (r: nat)
    requires p <= |s|
    ensures p <= r <= |s| && (r < |s| ==> !Space(s[r]))
    decreases |s| - p
  {
    if p < |s| && Space(s[p]) then Skip(s, p + 1) else p
  }

  /** Past the rest of a word. */
  function WordEnd(s: string, p: nat): (r: nat)
    requires p <= |s|
    ensures p <= r <= |s| && (p < |s| && WordChar(s[p]) ==> p < r)
    decreases |s| - p
  {
    if p < |s| && WordChar(s[p]) then WordEnd(s, p + 1) else p
  }

  /** A token: its kind ('a' for a word, '+' for >>, NUL at the end), where it is, and where the next one starts. */
  datatype Tok = Tok(kind: char, q: nat, eq: nat, next: nat)

  function Token(s: string, p: nat): (t: Tok)
    requires p <= |s|
    ensures p <= t.q <= t.eq <= t.next <= |s| && (t.kind == '\0' <==> t.q == |s|) && (t.kind != '\0' ==> t.q < t.eq)
  {
    var q := Skip(s, p);
    if q == |s| then Tok('\0', q, q, q)
    else
      var c := s[q];
      if c == '>' && q + 1 < |s| && s[q + 1] == '>' then Tok('+', q, q + 2, Skip(s, q + 2))
      else if Symbol(c) then Tok(c, q, q + 1, Skip(s, q + 1))
      else Tok('a', q, WordEnd(s, q), Skip(s, WordEnd(s, q)))
  }

  /** peek: the next character that is not white space, NUL at the end. */
  function Peek(s: string, p: nat): (c: char)
    requires p <= |s|
  {
    if Skip(s, p) < |s| then s[Skip(s, p)] else '\0'
  }

  predicate IsRedir(c: char) { c == '<' || c == '>' }

  predicate EndsArgs(c: char) { c == '|' || c == ')' || c == '&' || c == ';' }

  method SkipSpace(s: string, p: nat) returns (r: nat)
    requires p <= |s|
    ensures r == Skip(s, p)
  {
    r := p;
    while r < |s| && Space(s[r])
      invariant p <= r <= |s| && Skip(s, r) == Skip(s, p)
    {
      r := r + 1;
    }
  }

  /** gettoken as the source runs it. */
  method GetToken(s: string, p: nat) returns (t: Tok)
    requires p <= |s|
    ensures t == Token(s, p)
  {
    var q := SkipSpace(s, p);
    if q == |s| {
      return Tok('\0', q, q, q);
    }
    var kind, e := s[q], q;
    if kind == '|' || kind == '(' || kind == ')' || kind == ';' || kind == '&' || kind == '<' {
      e := e + 1;
    } else if kind == '>' {
      e := e + 1;
      if e < |s| && s[e] == '>' {
        kind := '+';
        e := e + 1;
      }
    } else {
      kind := 'a';
      while e < |s| && !Space(s[e]) && !Symbol(s[e])
        invariant q <= e <= |s| && WordEnd(s, e) == WordEnd(s, q)
      {
        e := e + 1;
      }
    }
    var next := SkipSpace(s, e);
    return Tok(kind, q, e, next);
  }

  // ---------------------------------------------------------------- commands

  datatype Span = Span(q: nat, eq: nat)

  datatype Mode = Read | Truncate | Append

  datatype Cmd =
    | Exec(args: seq<Span>)
    | Redir(cmd: Cmd, file: Span, mode: Mode)
    | Pipe(left: Cmd, right: Cmd)
    | List(left: Cmd, right: Cmd)
    | Back(cmd: Cmd)

  /** A redirection still to be wrapped around a command. */
  datatype Target = Target(file: Span, mode: Mode)

  /** A parsed command and the position after it; the source's panics are None. */
  datatype Out = Out(cmd: Cmd, next: nat)

  function ModeOf(kind: char): (m: Mode) {
    if kind == '<' then Read else if kind == '>' then Truncate else Append
  }

  /** redircmd for each redirection in turn: the last one is outermost. */
  function Wrap(cmd: Cmd, ts: seq<Target>): (r: Cmd) {
    if |ts| == 0 then cmd else Redir(Wrap(cmd, ts[..|ts| - 1]), ts[|ts| - 1].file, ts[|ts| - 1].mode)
  }

  /** parseredirs, collecting what it wraps. */
  function Redirs(s: string, p: nat, ts: seq<Target>): (r: Option<(seq<Target>, nat)>)
    requires p <= |s|
    ensures r.Some? ==> p <= r.value.1 <= |s|
    decreases |s| - p
  {
    if !IsRedir(Peek(s, p)) then Some((ts, Skip(s, p)))
    else
      var tok := Token(s, p);
      var file := Token(s, tok.next);
      if file.kind != 'a' then None else Redirs(s, file.next, ts + [Target(Span(file.q, file.eq), ModeOf(tok.kind))])
  }

  /** parseexec's loop: arguments, each followed by redirections. */
  function Args(s: string, p: nat, args: seq<Span>, ts: seq<Target>): (r: Option<Out>)
    requires p <= |s|
    ensures r.Some? ==> p <= r.value.next <= |s|
    decreases |s| - p
  {
    if EndsArgs(Peek(s, p)) then Some(Out(Wrap(Exec(args), ts), Skip(s, p)))
    else
      var tok := Token(s, p);
      if tok.kind == '\0' then Some(Out(Wrap(Exec(args), ts), tok.next))
      else if tok.kind != 'a' || |args| + 1 >= MAXARGS then None
      else
        var more := Redirs(s, tok.next, ts);
        if more.None? then None else Args(s, more.value.1, args + [Span(tok.q, tok.eq)], more.value.0)
  }

  function ParseExec(s: string, p: nat): (r: Option<Out>)
    requires p <= |s|
    ensures r.Some? ==> p <= r.value.next <= |s|
    decreases |s| - p, 0
  {
    if Peek(s, p) == '(' then
      // parseblock
      var open := Token(s, p);
      var body := ParseLine(s, open.next);
      if body.None? || Peek(s, body.value.next) != ')' then None
      else
        var close := Token(s, body.value.next);
        var ts := Redirs(s, close.next, []);
        if ts.None? then None else Some(Out(Wrap(body.value.cmd, ts.value.0), ts.value.1))
    else
      var ts := Redirs(s, p, []);
      if ts.None? then None else Args(s, ts.value.1, [], ts.value.0)
  }

  function ParsePipe(s: string, p: nat): (r: Option<Out>)
    requires p <= |s|
    ensures r.Some? ==> p <= r.value.next <= |s|
    decreases |s| - p, 1
  {
    var left := ParseExec(s, p);
    if left.None? then None
    else if Peek(s, left.value.next) != '|' then Some(Out(left.value.cmd, Skip(s, left.value.next)))
    else
      var right := ParsePipe(s, Token(s, left.value.next).next);
      if right.None? then None else Some(Out(Pipe(left.value.cmd, right.value.cmd), right.value.next))
  }

  /** parseline's loop over '&'. */
  function Backs(s: string, p: nat, cmd: Cmd): (r: Out)
    requires p <= |s|
    ensures p <= r.next <= |s|
    decreases |s| - p
  {
    if Peek(s, p) == '&' then Backs(s, Token(s, p).next, Back(cmd)) else Out(cmd, Skip(s, p))
  }

  function ParseLine(s: string, p: nat): (r: Option<Out>)
    requires p <= |s|
    ensures r.Some? ==> p <= r.value.next <= |s|
    decreases |s| - p, 2
  {
    var first := ParsePipe(s, p);
    if first.None? then None
    else
      var o := Backs(s, first.value.next, first.value.cmd);
      if Peek(s, o.next) != ';' then Some(Out(o.cmd, Skip(s, o.next)))
      else
        var rest := ParseLine(s, Token(s, o.next).next);
        if rest.None? then None else Some(Out(List(o.cmd, rest.value.cmd), rest.value.next))
  }

  /** parsecmd: the whole line, with nothing left over. It is total: the parser ends on every input. */
  function ParseCmd(s: string): (r: Option<Cmd>) {
    var line := ParseLine(s, 0);
    if line.None? || Skip(s, line.value.next) != |s| then None else Some(line.value.cmd)
  }
}
