/** nulterminate: cutting the line into C strings in place (user/sh.c). */
module ShellNul {
  import opened Shell

  /** A span of word characters, up to something that is not one. */
  ghost predicate WordSpan(s: string, w: Span) {
    && w.q < w.eq <= |s| && (w.eq < |s| ==> !WordChar(s[w.eq]))
    && (forall i :: w.q <= i < w.eq ==> WordChar(s[i]))
  }

  /** All words of a command: arguments and file names. */
  function Words(c: Cmd): (ws: seq<Span>) {
    match c
    case Exec(args) => args
    case Redir(d, file, _) => Words(d) + [file]
    case Pipe(l, r) => Words(l) + Words(r)
    case List(l, r) => Words(l) + Words(r)
    case Back(d) => Words(d)
  }

  ghost predicate AllWords(s: string, ws: seq<Span>) {
    forall i :: 0 <= i < |ws| ==> WordSpan(s, ws[i])
  }

  ghost predicate AllTargets(s: string, ts: seq<Target>) {
    forall i :: 0 <= i < |ts| ==> WordSpan(s, ts[i].file)
  }

  // -------------------------------------------- what the parser's positions are

  lemma {:induction false} WordEndSpan(s: string, p: nat)
    requires p <= |s|
    ensures WordEnd(s, p) < |s| ==> !WordChar(s[WordEnd(s, p)])
    ensures forall i :: p <= i < WordEnd(s, p) ==> WordChar(s[i])
    decreases |s| - p
  {
    if p < |s| && WordChar(s[p]) { WordEndSpan(s, p + 1); }
  }

  lemma {:induction false} TokenSpan(s: string, p: nat)
    requires p <= |s|
    ensures Token(s, p).kind == 'a' ==> WordSpan(s, Span(Token(s, p).q, Token(s, p).eq))
  {
    WordEndSpan(s, Skip(s, p));
  }

  lemma {:induction false} WrapWords(s: string, c: Cmd, ts: seq<Target>)
    requires AllWords(s, Words(c)) && AllTargets(s, ts)
    ensures AllWords(s, Words(Wrap(c, ts)))
  {
    if |ts| > 0 { WrapWords(s, c, ts[..|ts| - 1]); }
  }

  lemma {:induction false} RedirsWords(s: string, p: nat, ts: seq<Target>)
    requires p <= |s| && AllTargets(s, ts)
    ensures Redirs(s, p, ts).Some? ==> AllTargets(s, Redirs(s, p, ts).value.0)
    decreases |s| - p
  {
    if IsRedir(Peek(s, p)) {
      var tok := Token(s, p);
      var file := Token(s, tok.next);
      TokenSpan(s, tok.next);
      if file.kind == 'a' {
        RedirsWords(s, file.next, ts + [Target(Span(file.q, file.eq), ModeOf(tok.kind))]);
      }
    }
  }

  lemma {:induction false} ArgsWords(s: string, p: nat, args: seq<Span>, ts: seq<Target>)
    requires p <= |s| && AllWords(s, args) && AllTargets(s, ts)
    ensures Args(s, p, args, ts).Some? ==> AllWords(s, Words(Args(s, p, args, ts).value.cmd))
    decreases |s| - p
  {
    WrapWords(s, Exec(args), ts);
    var tok := Token(s, p);
    TokenSpan(s, p);
    if !EndsArgs(Peek(s, p)) && tok.kind == 'a' && |args| + 1 < MAXARGS {
      RedirsWords(s, tok.next, ts);
      var more := Redirs(s, tok.next, ts);
      if more.Some? { ArgsWords(s, more.value.1, args + [Span(tok.q, tok.eq)], more.value.0); }
    }
  }

  lemma {:induction false} BacksWords(s: string, p: nat, c: Cmd)
    requires p <= |s| && AllWords(s, Words(c))
    ensures AllWords(s, Words(Backs(s, p, c).cmd))
    decreases |s| - p
  {
    if Peek(s, p) == '&' { BacksWords(s, Token(s, p).next, Back(c)); }
  }

  lemma {:induction false} ExecWords(s: string, p: nat)
    requires p <= |s|
    ensures ParseExec(s, p).Some? ==> AllWords(s, Words(ParseExec(s, p).value.cmd))
    decreases |s| - p, 0
  {
    if Peek(s, p) == '(' {
      var open := Token(s, p);
      LineWords(s, open.next);
      var body := ParseLine(s, open.next);
      if body.Some? && Peek(s, body.value.next) == ')' {
        var close := Token(s, body.value.next);
        RedirsWords(s, close.next, []);
        var ts := Redirs(s, close.next, []);
        if ts.Some? { WrapWords(s, body.value.cmd, ts.value.0); }
      }
    } else {
      RedirsWords(s, p, []);
      var ts := Redirs(s, p, []);
      if ts.Some? { ArgsWords(s, ts.value.1, [], ts.value.0); }
    }
  }

  lemma {:induction false} PipeWords(s: string, p: nat)
    requires p <= |s|
    ensures ParsePipe(s, p).Some? ==> AllWords(s, Words(ParsePipe(s, p).value.cmd))
    decreases |s| - p, 1
  {
    ExecWords(s, p);
    var left := ParseExec(s, p);
    if left.Some? && Peek(s, left.value.next) == '|' {
      PipeWords(s, Token(s, left.value.next).next);
    }
  }

  /** Every word of a parsed line is a maximal run of word characters. */
  lemma {:induction false} LineWords(s: string, p: nat)
    requires p <= |s|
    ensures ParseLine(s, p).Some? ==> AllWords(s, Words(ParseLine(s, p).value.cmd))
    decreases |s| - p, 2
  {
    PipeWords(s, p);
    var first := ParsePipe(s, p);
    if first.Some? {
      BacksWords(s, first.value.next, first.value.cmd);
      var o := Backs(s, first.value.next, first.value.cmd);
      if Peek(s, o.next) == ';' { LineWords(s, Token(s, o.next).next); }
    }
  }

  // ----------------------------------------------------------------- the buffer

  /** The buffer with a NUL at the end of every word. */
  function Cut(buf: string, ws: seq<Span>): (r: string)
    requires forall i :: 0 <= i < |ws| ==> ws[i].eq < |buf|
    ensures |r| == |buf|
  {
    if |ws| == 0 then buf else Cut(buf, ws[..|ws| - 1])[ws[|ws| - 1].eq := '\0']
  }

  lemma {:induction false} CutAppend(buf: string, ws: seq<Span>, vs: seq<Span>)
    requires forall i :: 0 <= i < |ws| ==> ws[i].eq < |buf|
    requires forall i :: 0 <= i < |vs| ==> vs[i].eq < |buf|
    ensures forall i :: 0 <= i < |ws + vs| ==> (ws + vs)[i].eq < |buf|
    ensures Cut(buf, ws + vs) == Cut(Cut(buf, ws), vs)
  {
    if |vs| == 0 {
      assert ws + vs == ws;
    } else {
      assert (ws + vs)[..|ws + vs| - 1] == ws + vs[..|vs| - 1];
      CutAppend(buf, ws, vs[..|vs| - 1]);
    }
  }

  lemma {:induction false} CutAt(buf: string, ws: seq<Span>, i: nat)
    requires (forall k :: 0 <= k < |ws| ==> ws[k].eq < |buf|) && i < |buf|
    ensures Cut(buf, ws)[i] == if (exists k :: 0 <= k < |ws| && ws[k].eq == i) then '\0' else buf[i]
  {
    if |ws| > 0 {
      var vs := ws[..|ws| - 1];
      CutAt(buf, vs, i);
      if exists k :: 0 <= k < |ws| && ws[k].eq == i {
        var k :| 0 <= k < |ws| && ws[k].eq == i;
        assert k < |vs| ==> vs[k].eq == i;
      }
      if exists k :: 0 <= k < |vs| && vs[k].eq == i {
        var k :| 0 <= k < |vs| && vs[k].eq == i;
        assert ws[k].eq == i;
      }
    }
  }

  /** nulterminate, on the buffer that holds the line. */
  method NulTerminate(buf: array<char>, c: Cmd)
    requires forall i :: 0 <= i < |Words(c)| ==> Words(c)[i].eq < buf.Length
    modifies buf
    ensures buf[..] == Cut(old(buf[..]), Words(c))
    decreases c
  {
    match c
    case Exec(args) =>
      assert Words(c) == args;
      var i := 0;
      while i < |args|
        invariant 0 <= i <= |args| && (forall k :: 0 <= k < |args| ==> args[k].eq < buf.Length)
        invariant buf[..] == Cut(old(buf[..]), args[..i])
      {
        buf[args[i].eq] := '\0';
        assert args[..i + 1][..i] == args[..i];
        i := i + 1;
      }
      assert args[..i] == args;
    case Redir(d, file, _) =>
      assert Words(c) == Words(d) + [file];
      assert forall i :: 0 <= i < |Words(d)| ==> Words(d)[i] == Words(c)[i];
      assert Words(c)[|Words(d)|] == file;
      NulTerminate(buf, d);
      buf[file.eq] := '\0';
      assert Words(c)[..|Words(c)| - 1] == Words(d);
    case Pipe(l, r) =>
      assert Words(c) == Words(l) + Words(r);
      Halves(buf.Length, l, r);
      ghost var was := buf[..];
      NulTerminate(buf, l);
      NulTerminate(buf, r);
      CutAppend(was, Words(l), Words(r));
    case List(l, r) =>
      assert Words(c) == Words(l) + Words(r);
      Halves(buf.Length, l, r);
      ghost var was := buf[..];
      NulTerminate(buf, l);
      NulTerminate(buf, r);
      CutAppend(was, Words(l), Words(r));
    case Back(d) =>
      assert Words(c) == Words(d);
      NulTerminate(buf, d);
  }

  lemma {:induction false} Halves(n: nat, l: Cmd, r: Cmd)
    requires forall i :: 0 <= i < |Words(l) + Words(r)| ==> (Words(l) + Words(r))[i].eq < n
    ensures forall i :: 0 <= i < |Words(l)| ==> Words(l)[i].eq < n
    ensures forall i :: 0 <= i < |Words(r)| ==> Words(r)[i].eq < n
  {
    forall i | 0 <= i < |Words(l)| ensures Words(l)[i].eq < n { assert (Words(l) + Words(r))[i] == Words(l)[i]; }
    forall i | 0 <= i < |Words(r)| ensures Words(r)[i].eq < n {
      assert (Words(l) + Words(r))[|Words(l)| + i] == Words(r)[i];
    }
  }

  /** The C string that starts at `p`: up to the first NUL. */
  function CString(buf: string, p: nat): (r: string)
    requires p <= |buf|
    decreases |buf| - p
  {
    if p == |buf| || buf[p] == '\0' then [] else [buf[p]] + CString(buf, p + 1)
  }

  lemma {:induction false} CStringIs(buf: string, p: nat, e: nat)
    requires p <= e < |buf| && buf[e] == '\0' && (forall i :: p <= i < e ==> buf[i] != '\0')
    ensures CString(buf, p) == buf[p..e]
    decreases e - p
  {
    if p < e {
      CStringIs(buf, p + 1, e);
      assert buf[p..e] == [buf[p]] + buf[p + 1..e];
    }
  }

  /**
   * After nulterminate every argument and file name of the parsed line reads, as a C string, exactly the
   * text of its token: no end of a word falls inside a word.
   */
  lemma {:induction false} WordsReadBack(s: string, k: nat)
    requires ParseCmd(s).Some? && k < |Words(ParseCmd(s).value)| && (forall i :: 0 <= i < |s| ==> s[i] != '\0')
    ensures AllWords(s, Words(ParseCmd(s).value))
    ensures var ws := Words(ParseCmd(s).value);
            CString(Cut(s + ['\0'], ws), ws[k].q) == s[ws[k].q..ws[k].eq]
  {
    var ws := Words(ParseCmd(s).value);
    LineWords(s, 0);
    var buf, cut, w := s + ['\0'], Cut(s + ['\0'], ws), ws[k];
    assert WordSpan(s, w);
    forall j | 0 <= j < |ws| ensures !(w.q <= ws[j].eq < w.eq) {
      assert WordSpan(s, ws[j]);
    }
    forall i | w.q <= i < w.eq ensures cut[i] == s[i] {
      CutAt(buf, ws, i);
    }
    CutAt(buf, ws, w.eq);
    CStringIs(cut, w.q, w.eq);
    assert cut[w.q..w.eq] == s[w.q..w.eq];
  }
}
