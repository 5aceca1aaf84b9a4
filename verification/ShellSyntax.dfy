/**
 * The grammar of the shell's command lines, and that the parser of user/sh.c is exact for it: it accepts a line exactly
 * if the grammar does, and gives the command that the grammar means.
 */
module ShellSyntax {
  import opened Common
  import opened Shell

  // ------------------------------------------------------------------ tokens

  /** A token as text: a word or a symbol, with '+' for >>. */
  datatype Lex = Word(w: string) | Sym(c: char)

  /** The characters of a span. */
  function Text(s: string, w: Span): (t: string) {
    if w.q <= w.eq <= |s| then s[w.q..w.eq] else []
  }

  /** What is left of the line from `p` on, token by token. */
  function Lexes(s: string, p: nat): (ls: seq<Lex>)
    requires p <= |s|
    decreases |s| - p
  {
    var t := Token(s, p);
    if t.kind == '\0' then []
    else [if t.kind == 'a' then Word(Text(s, Span(t.q, t.eq))) else Sym(t.kind)] + Lexes(s, t.next)
  }

  // ------------------------------------------------------------ command lines

  /** A redirection: `< file`, `> file` or `>> file`. */
  datatype Redirection = Redirection(mode: Mode, file: string)

  datatype Item = Arg(w: string) | Into(r: Redirection)

  /** Words and redirections in any order, or a line in parentheses followed by redirections. */
  datatype Simple = Plain(items: seq<Item>) | Group(line: Line, rs: seq<Redirection>)

  datatype Pipeline = Single(cmd: Simple) | Piped(cmd: Simple, rest: Pipeline)

  /** A pipeline, any number of `&`, and perhaps `;` and another line. */
  datatype Line = Last(pipe: Pipeline, backs: nat) | Then(pipe: Pipeline, backs: nat, rest: Line)

  function OpChar(m: Mode): (c: char) {
    match m case Read => '<' case Truncate => '>' case Append => '+'
  }

  function RedirLexes(r: Redirection): (ls: seq<Lex>) { [Sym(OpChar(r.mode)), Word(r.file)] }

  function RedirsLexes(rs: seq<Redirection>): (ls: seq<Lex>) {
    if rs == [] then [] else RedirLexes(rs[0]) + RedirsLexes(rs[1..])
  }

  function ItemLexes(i: Item): (ls: seq<Lex>) {
    match i case Arg(w) => [Word(w)] case Into(r) => RedirLexes(r)
  }

  function ItemsLexes(items: seq<Item>): (ls: seq<Lex>) {
    if items == [] then [] else ItemLexes(items[0]) + ItemsLexes(items[1..])
  }

  function Amps(n: nat): (ls: seq<Lex>) {
    if n == 0 then [] else [Sym('&')] + Amps(n - 1)
  }

  function SimpleLexes(c: Simple): (ls: seq<Lex>) {
    match c
    case Plain(items) => ItemsLexes(items)
    case Group(line, rs) => [Sym('(')] + LineLexes(line) + [Sym(')')] + RedirsLexes(rs)
  }

  function PipeLexes(p: Pipeline): (ls: seq<Lex>) {
    match p
    case Single(c) => SimpleLexes(c)
    case Piped(c, rest) => SimpleLexes(c) + [Sym('|')] + PipeLexes(rest)
  }

  /** The tokens of a line, as it is typed. */
  function LineLexes(l: Line): (ls: seq<Lex>) {
    match l
    case Last(p, n) => PipeLexes(p) + Amps(n)
    case Then(p, n, rest) => PipeLexes(p) + Amps(n) + [Sym(';')] + LineLexes(rest)
  }

  // ----------------------------------------------------------------- meaning

  /** A command with the texts of its words instead of their positions. */
  datatype Tree =
    | TExec(args: seq<string>)
    | TRedir(tree: Tree, file: string, mode: Mode)
    | TPipe(left: Tree, right: Tree)
    | TList(left: Tree, right: Tree)
    | TBack(tree: Tree)

  function ArgsOf(items: seq<Item>): (ws: seq<string>) {
    if items == [] then []
    else (match items[0] case Arg(w) => [w] case Into(_) => []) + ArgsOf(items[1..])
  }

  function RedirsOf(items: seq<Item>): (rs: seq<Redirection>) {
    if items == [] then []
    else (match items[0] case Arg(_) => [] case Into(r) => [r]) + RedirsOf(items[1..])
  }

  /** The redirections around a command, the first one innermost. */
  function Around(t: Tree, rs: seq<Redirection>): (r: Tree)
    decreases |rs|
  {
    if rs == [] then t else Around(TRedir(t, rs[0].file, rs[0].mode), rs[1..])
  }

  function Backed(t: Tree, n: nat): (r: Tree) {
    if n == 0 then t else TBack(Backed(t, n - 1))
  }

  function SimpleTree(c: Simple): (t: Tree) {
    match c
    case Plain(items) => Around(TExec(ArgsOf(items)), RedirsOf(items))
    case Group(line, rs) => Around(LineTree(line), rs)
  }

  function PipeTree(p: Pipeline): (t: Tree) {
    match p
    case Single(c) => SimpleTree(c)
    case Piped(c, rest) => TPipe(SimpleTree(c), PipeTree(rest))
  }

  /** The command that a line means. */
  function LineTree(l: Line): (t: Tree) {
    match l
    case Last(p, n) => Backed(PipeTree(p), n)
    case Then(p, n, rest) => TList(Backed(PipeTree(p), n), LineTree(rest))
  }

  /** No command has too many arguments. */
  predicate SimpleOk(c: Simple) {
    match c
    case Plain(items) => |ArgsOf(items)| < MAXARGS
    case Group(line, _) => LineOk(line)
  }

  predicate PipeOk(p: Pipeline) {
    match p
    case Single(c) => SimpleOk(c)
    case Piped(c, rest) => SimpleOk(c) && PipeOk(rest)
  }

  predicate LineOk(l: Line) {
    match l
    case Last(p, _) => PipeOk(p)
    case Then(p, _, rest) => PipeOk(p) && LineOk(rest)
  }

  // ------------------------------------------------------------- parsed trees

  function Texts(s: string, ws: seq<Span>): (r: seq<string>)
    ensures |r| == |ws|
  {
    seq(|ws|, i requires 0 <= i < |ws| => Text(s, ws[i]))
  }

  /** The tree of a parsed command. */
  function TreeOf(s: string, c: Cmd): (t: Tree) {
    match c
    case Exec(args) => TExec(Texts(s, args))
    case Redir(d, file, mode) => TRedir(TreeOf(s, d), Text(s, file), mode)
    case Pipe(l, r) => TPipe(TreeOf(s, l), TreeOf(s, r))
    case List(l, r) => TList(TreeOf(s, l), TreeOf(s, r))
    case Back(d) => TBack(TreeOf(s, d))
  }

  function RedirsIn(s: string, ts: seq<Target>): (rs: seq<Redirection>)
    ensures |rs| == |ts|
  {
    seq(|ts|, i requires 0 <= i < |ts| => Redirection(ts[i].mode, Text(s, ts[i].file)))
  }

  /** One more redirection goes outside the others. */
  lemma {:induction false} AroundMore(t: Tree, rs: seq<Redirection>, r: Redirection)
    ensures Around(t, rs + [r]) == TRedir(Around(t, rs), r.file, r.mode)
    decreases |rs|
  {
    if rs == [] {
      assert [] + [r] == [r] && [r][1..] == [];
    } else {
      assert (rs + [r])[1..] == rs[1..] + [r];
      AroundMore(TRedir(t, rs[0].file, rs[0].mode), rs[1..], r);
    }
  }

  lemma {:induction false} WrapTree(s: string, c: Cmd, ts: seq<Target>)
    ensures TreeOf(s, Wrap(c, ts)) == Around(TreeOf(s, c), RedirsIn(s, ts))
    decreases |ts|
  {
    if ts != [] {
      var n := |ts| - 1;
      WrapTree(s, c, ts[..n]);
      assert RedirsIn(s, ts) == RedirsIn(s, ts[..n]) + [RedirsIn(s, ts)[n]];
      AroundMore(TreeOf(s, c), RedirsIn(s, ts[..n]), RedirsIn(s, ts)[n]);
    }
  }

  // ------------------------------------------------------------------- lexing

  lemma {:induction false} SkipSkip(s: string, p: nat)
    requires p <= |s|
    ensures Skip(s, Skip(s, p)) == Skip(s, p)
    decreases |s| - p
  {
    if p < |s| && Space(s[p]) { SkipSkip(s, p + 1); }
  }

  /** Leading space makes no difference. */
  lemma SkipLexes(s: string, p: nat)
    requires p <= |s|
    ensures Lexes(s, Skip(s, p)) == Lexes(s, p) && Peek(s, Skip(s, p)) == Peek(s, p)
  {
    SkipSkip(s, p);
    assert Token(s, Skip(s, p)) == Token(s, p);
  }

  /** peek and gettoken see the first token. */
  lemma PeekSymbol(s: string, p: nat, c: char)
    requires p <= |s| && Symbol(c) && c != '>' && c != '<'
    ensures Peek(s, p) == c <==> Lexes(s, p) != [] && Lexes(s, p)[0] == Sym(c)
    ensures Peek(s, p) == c ==> Token(s, p).next > p && Lexes(s, p) == [Sym(c)] + Lexes(s, Token(s, p).next)
  {
  }

  predicate Op(l: Lex) { l == Sym('<') || l == Sym('>') || l == Sym('+') }

  lemma PeekRedir(s: string, p: nat)
    requires p <= |s|
    ensures IsRedir(Peek(s, p)) <==> Lexes(s, p) != [] && Op(Lexes(s, p)[0])
    ensures IsRedir(Peek(s, p)) ==> var t := Token(s, p);
              t.next > p && Lexes(s, p) == [Sym(OpChar(ModeOf(t.kind)))] + Lexes(s, t.next)
  {
  }

  lemma TokenWord(s: string, p: nat)
    requires p <= |s|
    ensures Token(s, p).kind == 'a' <==> Lexes(s, p) != [] && Lexes(s, p)[0].Word?
    ensures Token(s, p).kind == '\0' <==> Lexes(s, p) == []
    ensures var t := Token(s, p);
            t.kind == 'a' ==> t.next > p && Lexes(s, p) == [Word(Text(s, Span(t.q, t.eq)))] + Lexes(s, t.next)
  {
  }

  /** The tokens from `p` on are `ls` and then those from `e` on. */
  ghost predicate Takes(s: string, p: nat, ls: seq<Lex>, e: nat) {
    p <= |s| && e <= |s| && forall k: int {:trigger Asked(k)} :: Asked(k) ==> Lexes(s, p) == ls + Lexes(s, e)
  }

  lemma TakesNone(s: string, p: nat)
    requires p <= |s|
    ensures Takes(s, p, [], p) && Takes(s, p, [], Skip(s, p))
  {
    SkipLexes(s, p);
  }

  lemma TakesMore(s: string, p: nat, ls: seq<Lex>, e: nat, ms: seq<Lex>, f: nat)
    requires Takes(s, p, ls, e) && Takes(s, e, ms, f)
    ensures Takes(s, p, ls + ms, f)
  {
    assert Asked(0);
    assert ls + (ms + Lexes(s, f)) == ls + ms + Lexes(s, f);
  }

  lemma TakesSymbol(s: string, p: nat, c: char)
    requires p <= |s| && Symbol(c) && c != '>' && c != '<' && Peek(s, p) == c
    ensures Token(s, p).next > p && Takes(s, p, [Sym(c)], Token(s, p).next)
  {
    PeekSymbol(s, p, c);
  }

  lemma TakesWord(s: string, p: nat)
    requires p <= |s| && Token(s, p).kind == 'a'
    ensures var t := Token(s, p); t.next > p && Takes(s, p, [Word(Text(s, Span(t.q, t.eq)))], t.next)
  {
    TokenWord(s, p);
  }

  lemma TakesOp(s: string, p: nat)
    requires p <= |s| && IsRedir(Peek(s, p))
    ensures var t := Token(s, p); t.next > p && Takes(s, p, [Sym(OpChar(ModeOf(t.kind)))], t.next)
  {
    PeekRedir(s, p);
  }

  // ------------------------------------------------------------------- items

  lemma {:induction false} ItemsLexesConcat(a: seq<Item>, b: seq<Item>)
    ensures ItemsLexes(a + b) == ItemsLexes(a) + ItemsLexes(b)
    decreases |a|
  {
    if a == [] {
      assert a + b == b;
    } else {
      assert (a + b)[1..] == a[1..] + b && (a + b)[0] == a[0];
      ItemsLexesConcat(a[1..], b);
      var x, y, z := ItemLexes(a[0]), ItemsLexes(a[1..]), ItemsLexes(b);
      assert x + (y + z) == x + y + z;
    }
  }

  lemma {:induction false} ArgsConcat(a: seq<Item>, b: seq<Item>)
    ensures ArgsOf(a + b) == ArgsOf(a) + ArgsOf(b)
    decreases |a|
  {
    if a == [] {
      assert a + b == b;
    } else {
      assert (a + b)[1..] == a[1..] + b && (a + b)[0] == a[0];
      ArgsConcat(a[1..], b);
      var x, y, z := if a[0].Arg? then [a[0].w] else [], ArgsOf(a[1..]), ArgsOf(b);
      assert x + (y + z) == x + y + z;
    }
  }

  lemma {:induction false} RedirsConcat(a: seq<Item>, b: seq<Item>)
    ensures RedirsOf(a + b) == RedirsOf(a) + RedirsOf(b)
    decreases |a|
  {
    if a == [] {
      assert a + b == b;
    } else {
      assert (a + b)[1..] == a[1..] + b && (a + b)[0] == a[0];
      RedirsConcat(a[1..], b);
      var x, y, z := if a[0].Into? then [a[0].r] else [], RedirsOf(a[1..]), RedirsOf(b);
      assert x + (y + z) == x + y + z;
    }
  }

  function Intos(rs: seq<Redirection>): (items: seq<Item>)
    ensures |items| == |rs|
  {
    seq(|rs|, i requires 0 <= i < |rs| => Into(rs[i]))
  }

  lemma {:induction false} IntosAre(rs: seq<Redirection>)
    ensures ItemsLexes(Intos(rs)) == RedirsLexes(rs) && ArgsOf(Intos(rs)) == [] && RedirsOf(Intos(rs)) == rs
    decreases |rs|
  {
    if rs != [] {
      assert Intos(rs)[1..] == Intos(rs[1..]);
      IntosAre(rs[1..]);
    }
  }

  /** Redirections, then nothing or a word and so on. */
  lemma {:induction false} Split(items: seq<Item>) returns (rs: seq<Redirection>, rest: seq<Item>)
    ensures items == Intos(rs) + rest && (rest == [] || rest[0].Arg?) && |rest| <= |items|
    decreases |items|
  {
    if items == [] || items[0].Arg? {
      rs, rest := [], items;
    } else {
      rs, rest := Split(items[1..]);
      rs := [items[0].r] + rs;
      assert Intos(rs) == [items[0]] + Intos(rs[1..]);
    }
  }

  /** Redirections in front of items. */
  lemma IntosFirst(rs: seq<Redirection>, items: seq<Item>)
    ensures ItemsLexes(Intos(rs) + items) == RedirsLexes(rs) + ItemsLexes(items)
    ensures ArgsOf(Intos(rs) + items) == ArgsOf(items) && RedirsOf(Intos(rs) + items) == rs + RedirsOf(items)
  {
    ItemsLexesConcat(Intos(rs), items);
    ArgsConcat(Intos(rs), items);
    RedirsConcat(Intos(rs), items);
    IntosAre(rs);
  }

  /** A word and redirections in front of items. */
  lemma WordFirst(w: string, rs: seq<Redirection>, items: seq<Item>)
    ensures var all := [Arg(w)] + (Intos(rs) + items);
            && ItemsLexes(all) == [Word(w)] + (RedirsLexes(rs) + ItemsLexes(items))
            && ArgsOf(all) == [w] + ArgsOf(items) && RedirsOf(all) == rs + RedirsOf(items)
  {
    var all := [Arg(w)] + (Intos(rs) + items);
    assert all[1..] == Intos(rs) + items;
    IntosFirst(rs, items);
  }

  // The parse functions, opened only where they are run.

  ghost predicate RedirsAre(s: string, p: nat, ts: seq<Target>, us: seq<Target>, e: nat) {
    p <= |s| && e <= |s| && forall k: int {:trigger Sought(k)} :: Sought(k) ==> Redirs(s, p, ts) == Some((us, e))
  }

  ghost predicate ArgsAre(s: string, p: nat, args: seq<Span>, ts: seq<Target>, c: Cmd, e: nat) {
    p <= |s| && e <= |s| && forall k: int {:trigger Sought(k)} :: Sought(k) ==> Args(s, p, args, ts) == Some(Out(c, e))
  }

  ghost predicate ExecIs(s: string, p: nat, c: Cmd, e: nat) {
    p <= |s| && e <= |s| && forall k: int {:trigger Sought(k)} :: Sought(k) ==> ParseExec(s, p) == Some(Out(c, e))
  }

  ghost predicate PipeIs(s: string, p: nat, c: Cmd, e: nat) {
    p <= |s| && e <= |s| && forall k: int {:trigger Sought(k)} :: Sought(k) ==> ParsePipe(s, p) == Some(Out(c, e))
  }

  ghost predicate LineIs(s: string, p: nat, c: Cmd, e: nat) {
    p <= |s| && e <= |s| && forall k: int {:trigger Sought(k)} :: Sought(k) ==> ParseLine(s, p) == Some(Out(c, e))
  }

  // ----------------------------------------------------------- what is accepted

  /** Not followed by another redirection. */
  predicate NoOp(rest: seq<Lex>) { rest == [] || !Op(rest[0]) }

  lemma TargetsMore(s: string, ts: seq<Target>, t: Target)
    ensures RedirsIn(s, ts + [t]) == RedirsIn(s, ts) + [Redirection(t.mode, Text(s, t.file))]
  {
  }

  lemma TakesRedir(s: string, p: nat, t: Target) returns (r: Redirection)
    requires p <= |s| && IsRedir(Peek(s, p)) && Token(s, Token(s, p).next).kind == 'a'
    requires var file := Token(s, Token(s, p).next); t == Target(Span(file.q, file.eq), ModeOf(Token(s, p).kind))
    ensures r == Redirection(t.mode, Text(s, t.file))
    ensures Token(s, Token(s, p).next).next > p && Takes(s, p, RedirLexes(r), Token(s, Token(s, p).next).next)
  {
    r := Redirection(t.mode, Text(s, t.file));
    var q := Token(s, p).next;
    TakesOp(s, p);
    TakesWord(s, q);
    TakesMore(s, p, [Sym(OpChar(r.mode))], q, [Word(r.file)], Token(s, q).next);
    assert RedirLexes(r) == [Sym(OpChar(r.mode))] + [Word(r.file)];
  }

  lemma RedirsStop(s: string, p: nat, ts: seq<Target>, us: seq<Target>, e: nat)
    requires RedirsAre(s, p, ts, us, e) && !IsRedir(Peek(s, p))
    ensures us == ts && e == Skip(s, p)
  {
    assert Sought(0);
  }

  lemma RedirsNext(s: string, p: nat, ts: seq<Target>, us: seq<Target>, e: nat) returns (t: Target)
    requires RedirsAre(s, p, ts, us, e) && IsRedir(Peek(s, p))
    ensures var file := Token(s, Token(s, p).next);
            && file.kind == 'a' && t == Target(Span(file.q, file.eq), ModeOf(Token(s, p).kind))
            && RedirsAre(s, file.next, ts + [t], us, e)
  {
    assert Sought(0);
    var file := Token(s, Token(s, p).next);
    t := Target(Span(file.q, file.eq), ModeOf(Token(s, p).kind));
  }

  lemma {:induction false} RedirsSound(s: string, p: nat, ts: seq<Target>, us: seq<Target>, e: nat)
    returns (rs: seq<Redirection>)
    requires RedirsAre(s, p, ts, us, e)
    ensures Takes(s, p, RedirsLexes(rs), e) && RedirsIn(s, us) == RedirsIn(s, ts) + rs && p <= e
    decreases |s| - p
  {
    if !IsRedir(Peek(s, p)) {
      RedirsStop(s, p, ts, us, e);
      TakesNone(s, p);
      rs := [];
    } else {
      var file := Token(s, Token(s, p).next);
      var t := RedirsNext(s, p, ts, us, e);
      var r := TakesRedir(s, p, t);
      rs := RedirsSound(s, file.next, ts + [t], us, e);
      TargetsMore(s, ts, t);
      TakesMore(s, p, RedirLexes(r), file.next, RedirsLexes(rs), e);
      assert ([r] + rs)[1..] == rs;
      assert RedirsIn(s, ts) + [r] + rs == RedirsIn(s, ts) + ([r] + rs);
      rs := [r] + rs;
    }
  }

  /** What may follow a simple command. */
  predicate Ends(rest: seq<Lex>) { rest == [] || (rest[0].Sym? && EndsArgs(rest[0].c)) }

  lemma PeekEnds(s: string, p: nat)
    requires p <= |s|
    ensures EndsArgs(Peek(s, p)) <==> Lexes(s, p) != [] && Ends(Lexes(s, p))
  {
    PeekSymbol(s, p, '|');
    PeekSymbol(s, p, ')');
    PeekSymbol(s, p, '&');
    PeekSymbol(s, p, ';');
  }

  /** What parseexec has made of arguments and redirections. */
  lemma ExecTree(s: string, args: seq<Span>, ts: seq<Target>)
    ensures TreeOf(s, Wrap(Exec(args), ts)) == Around(TExec(Texts(s, args)), RedirsIn(s, ts))
  {
    WrapTree(s, Exec(args), ts);
  }

  lemma TextsMore(s: string, args: seq<Span>, w: Span)
    ensures Texts(s, args + [w]) == Texts(s, args) + [Text(s, w)]
  {
  }

  lemma {:induction false} ArgsSound(s: string, p: nat, args: seq<Span>, ts: seq<Target>, c: Cmd, e: nat)
    returns (items: seq<Item>)
    requires p <= |s| && |args| < MAXARGS && Args(s, p, args, ts) == Some(Out(c, e))
    ensures Takes(s, p, ItemsLexes(items), e)
    ensures |args| + |ArgsOf(items)| < MAXARGS
    ensures TreeOf(s, c) == Around(TExec(Texts(s, args) + ArgsOf(items)), RedirsIn(s, ts) + RedirsOf(items))
    decreases |s| - p
  {
    var tok := Token(s, p);
    if EndsArgs(Peek(s, p)) || tok.kind == '\0' {
      ExecTree(s, args, ts);
      TakesNone(s, p);
      items := [];
      assert Texts(s, args) + [] == Texts(s, args) && RedirsIn(s, ts) + [] == RedirsIn(s, ts);
    } else {
      var w := Span(tok.q, tok.eq);
      var more := Redirs(s, tok.next, ts).value;
      TakesWord(s, p);
      var rs := RedirsSound(s, tok.next, ts, more.0, more.1);
      var rest := ArgsSound(s, more.1, args + [w], more.0, c, e);
      TakesMore(s, tok.next, RedirsLexes(rs), more.1, ItemsLexes(rest), e);
      TakesMore(s, p, [Word(Text(s, w))], tok.next, RedirsLexes(rs) + ItemsLexes(rest), e);
      items := ItemsGrow(s, args, w, ts, more.0, rs, rest);
    }
  }

  /** A word and its redirections go before the rest. */
  lemma ItemsGrow(s: string, args: seq<Span>, w: Span, ts: seq<Target>, us: seq<Target>, rs: seq<Redirection>,
                  rest: seq<Item>) returns (items: seq<Item>)
    requires RedirsIn(s, us) == RedirsIn(s, ts) + rs
    ensures ItemsLexes(items) == [Word(Text(s, w))] + (RedirsLexes(rs) + ItemsLexes(rest))
    ensures Texts(s, args + [w]) + ArgsOf(rest) == Texts(s, args) + ArgsOf(items)
            && |ArgsOf(items)| == 1 + |ArgsOf(rest)|
    ensures RedirsIn(s, us) + RedirsOf(rest) == RedirsIn(s, ts) + RedirsOf(items)
  {
    TextsMore(s, args, w);
    WordFirst(Text(s, w), rs, rest);
    items := [Arg(Text(s, w))] + (Intos(rs) + rest);
    assert Texts(s, args) + [Text(s, w)] + ArgsOf(rest) == Texts(s, args) + ([Text(s, w)] + ArgsOf(rest));
    assert RedirsIn(s, ts) + rs + RedirsOf(rest) == RedirsIn(s, ts) + (rs + RedirsOf(rest));
  }

  lemma {:induction false} BacksSound(s: string, p: nat, c: Cmd) returns (n: nat)
    requires p <= |s|
    ensures var o := Backs(s, p, c); Takes(s, p, Amps(n), o.next) && TreeOf(s, o.cmd) == Backed(TreeOf(s, c), n)
    ensures p <= Backs(s, p, c).next
    decreases |s| - p
  {
    if Peek(s, p) == '&' {
      TakesSymbol(s, p, '&');
      n := BacksSound(s, Token(s, p).next, Back(c));
      TakesMore(s, p, [Sym('&')], Token(s, p).next, Amps(n), Backs(s, p, c).next);
      BackedIn(TreeOf(s, c), n);
      n := n + 1;
    } else {
      TakesNone(s, p);
      n := 0;
    }
  }

  lemma {:induction false} BackedIn(t: Tree, n: nat)
    ensures Backed(TBack(t), n) == TBack(Backed(t, n))
  {
    if n > 0 { BackedIn(t, n - 1); }
  }

  lemma {:induction false} ExecSound(s: string, p: nat, c: Cmd, e: nat) returns (x: Simple)
    requires p <= |s| && ParseExec(s, p) == Some(Out(c, e))
    ensures SimpleOk(x) && SimpleTree(x) == TreeOf(s, c) && Takes(s, p, SimpleLexes(x), e)
    decreases |s| - p, 0
  {
    if Peek(s, p) == '(' {
      var open := Token(s, p);
      TakesSymbol(s, p, '(');
      var body := ParseLine(s, open.next).value;
      var line := LineSound(s, open.next, body.cmd, body.next);
      TakesSymbol(s, body.next, ')');
      var close := Token(s, body.next);
      var ts := Redirs(s, close.next, []).value;
      var rs := RedirsSound(s, close.next, [], ts.0, ts.1);
      WrapTree(s, body.cmd, ts.0);
      TakesMore(s, p, [Sym('(')], open.next, LineLexes(line), body.next);
      TakesMore(s, p, [Sym('(')] + LineLexes(line), body.next, [Sym(')')], close.next);
      TakesMore(s, p, [Sym('(')] + LineLexes(line) + [Sym(')')], close.next, RedirsLexes(rs), e);
      x := Group(line, rs);
      assert RedirsIn(s, []) + rs == rs;
    } else {
      var ts := Redirs(s, p, []).value;
      var rs := RedirsSound(s, p, [], ts.0, ts.1);
      var items := ArgsSound(s, ts.1, [], ts.0, c, e);
      IntosFirst(rs, items);
      TakesMore(s, p, RedirsLexes(rs), ts.1, ItemsLexes(items), e);
      x := Plain(Intos(rs) + items);
      assert RedirsIn(s, []) + rs == rs && Texts(s, []) + ArgsOf(items) == ArgsOf(items);
    }
  }

  lemma {:induction false} PipeSound(s: string, p: nat, c: Cmd, e: nat) returns (x: Pipeline)
    requires p <= |s| && ParsePipe(s, p) == Some(Out(c, e))
    ensures PipeOk(x) && PipeTree(x) == TreeOf(s, c) && Takes(s, p, PipeLexes(x), e)
    decreases |s| - p, 1
  {
    var left := ParseExec(s, p).value;
    var l := ExecSound(s, p, left.cmd, left.next);
    if Peek(s, left.next) != '|' {
      TakesNone(s, left.next);
      TakesMore(s, p, SimpleLexes(l), left.next, [], e);
      assert SimpleLexes(l) + [] == SimpleLexes(l);
      x := Single(l);
    } else {
      var q := Token(s, left.next).next;
      TakesSymbol(s, left.next, '|');
      var right := ParsePipe(s, q).value;
      var r := PipeSound(s, q, right.cmd, right.next);
      TakesMore(s, p, SimpleLexes(l), left.next, [Sym('|')], q);
      TakesMore(s, p, SimpleLexes(l) + [Sym('|')], q, PipeLexes(r), e);
      x := Piped(l, r);
    }
  }

  /** A line that parseline accepts is one of the grammar's, and means what the parser makes of it. */
  lemma {:induction false} LineSound(s: string, p: nat, c: Cmd, e: nat) returns (x: Line)
    requires p <= |s| && ParseLine(s, p) == Some(Out(c, e))
    ensures LineOk(x) && LineTree(x) == TreeOf(s, c) && Takes(s, p, LineLexes(x), e)
    decreases |s| - p, 2
  {
    var first := ParsePipe(s, p).value;
    var l := PipeSound(s, p, first.cmd, first.next);
    var n := BacksSound(s, first.next, first.cmd);
    var o := Backs(s, first.next, first.cmd);
    TakesMore(s, p, PipeLexes(l), first.next, Amps(n), o.next);
    if Peek(s, o.next) != ';' {
      TakesNone(s, o.next);
      TakesMore(s, p, PipeLexes(l) + Amps(n), o.next, [], e);
      assert PipeLexes(l) + Amps(n) + [] == PipeLexes(l) + Amps(n);
      x := Last(l, n);
    } else {
      var q := Token(s, o.next).next;
      TakesSymbol(s, o.next, ';');
      var rest := ParseLine(s, q).value;
      var r := LineSound(s, q, rest.cmd, rest.next);
      TakesMore(s, p, PipeLexes(l) + Amps(n), o.next, [Sym(';')], q);
      TakesMore(s, p, PipeLexes(l) + Amps(n) + [Sym(';')], q, LineLexes(r), e);
      x := Then(l, n, r);
    }
  }

  // ------------------------------------------------------ what must be accepted

  /** From `p` on the tokens are `ls`. */
  ghost predicate Has(s: string, p: nat, ls: seq<Lex>) {
    p <= |s| && forall k: int {:trigger Asked(k)} :: Asked(k) ==> Lexes(s, p) == ls
  }

  lemma HasSymbol(s: string, p: nat, c: char, rest: seq<Lex>)
    requires Has(s, p, [Sym(c)] + rest) && Symbol(c) && c != '<' && c != '>'
    ensures Peek(s, p) == c && Has(s, Token(s, p).next, rest)
  {
    assert Asked(0);
    PeekSymbol(s, p, c);
    assert ([Sym(c)] + rest)[1..] == rest && ([Sym(c)] + Lexes(s, Token(s, p).next))[1..] == Lexes(s, Token(s, p).next);
  }

  lemma HasWord(s: string, p: nat, w: string, rest: seq<Lex>)
    requires Has(s, p, [Word(w)] + rest)
    ensures var t := Token(s, p); t.kind == 'a' && Text(s, Span(t.q, t.eq)) == w && t.next > p && Has(s, t.next, rest)
    ensures !EndsArgs(Peek(s, p)) && !IsRedir(Peek(s, p)) && Peek(s, p) != '('
  {
    assert Asked(0);
    TokenWord(s, p);
    PeekEnds(s, p);
    PeekRedir(s, p);
    PeekSymbol(s, p, '(');
    assert ([Word(w)] + rest)[0] == Word(w) && ([Word(w)] + rest)[1..] == rest;
  }

  lemma HasOp(s: string, p: nat, m: Mode, rest: seq<Lex>)
    requires Has(s, p, [Sym(OpChar(m))] + rest)
    ensures IsRedir(Peek(s, p)) && ModeOf(Token(s, p).kind) == m && Has(s, Token(s, p).next, rest) && Peek(s, p) != '('
  {
    assert Asked(0);
    PeekRedir(s, p);
    assert ([Sym(OpChar(m))] + rest)[0] == Sym(OpChar(m)) && ([Sym(OpChar(m))] + rest)[1..] == rest;
  }

  /** What a parse function that looks ahead finds when the next token is none that it wants. */
  lemma HasOther(s: string, p: nat, rest: seq<Lex>)
    requires Has(s, p, rest)
    ensures Has(s, Skip(s, p), rest)
    ensures NoOp(rest) ==> !IsRedir(Peek(s, p))
    ensures Ends(rest) ==> (EndsArgs(Peek(s, p)) || Token(s, p).kind == '\0') && Peek(s, p) != '('
    ensures rest == [] ==> Token(s, p).next == Skip(s, p) == |s|
    ensures forall c :: Symbol(c) && c != '<' && c != '>' && (rest == [] || rest[0] != Sym(c)) ==> Peek(s, p) != c
  {
    assert Asked(0);
    SkipLexes(s, p);
    PeekRedir(s, p);
    PeekEnds(s, p);
    TokenWord(s, p);
    forall c | Symbol(c) && c != '<' && c != '>' && (rest == [] || rest[0] != Sym(c)) ensures Peek(s, p) != c {
      PeekSymbol(s, p, c);
    }
  }

  lemma RedirTurn(s: string, p: nat, ts: seq<Target>, t: Target, us: seq<Target>, e: nat)
    requires p <= |s| && IsRedir(Peek(s, p)) && Token(s, Token(s, p).next).kind == 'a'
    requires var file := Token(s, Token(s, p).next);
             t == Target(Span(file.q, file.eq), ModeOf(Token(s, p).kind)) && RedirsAre(s, file.next, ts + [t], us, e)
    ensures RedirsAre(s, p, ts, us, e)
  {
    assert Sought(0);
  }

  lemma {:induction false} RedirsComplete(s: string, p: nat, ts: seq<Target>, rs: seq<Redirection>, rest: seq<Lex>)
    returns (us: seq<Target>, e: nat)
    requires Has(s, p, RedirsLexes(rs) + rest) && NoOp(rest)
    ensures RedirsAre(s, p, ts, us, e) && Has(s, e, rest) && RedirsIn(s, us) == RedirsIn(s, ts) + rs && p <= e
    decreases |rs|
  {
    if rs == [] {
      assert RedirsLexes(rs) + rest == rest;
      HasOther(s, p, rest);
      us, e := ts, Skip(s, p);
    } else {
      var r, more := rs[0], RedirsLexes(rs[1..]) + rest;
      assert RedirsLexes(rs) + rest == [Sym(OpChar(r.mode))] + ([Word(r.file)] + more);
      HasOp(s, p, r.mode, [Word(r.file)] + more);
      var q := Token(s, p).next;
      HasWord(s, q, r.file, more);
      var file := Token(s, q);
      var t := Target(Span(file.q, file.eq), r.mode);
      us, e := RedirsComplete(s, file.next, ts + [t], rs[1..], rest);
      RedirTurn(s, p, ts, t, us, e);
      TargetsMore(s, ts, t);
      assert RedirsIn(s, ts) + [r] + rs[1..] == RedirsIn(s, ts) + rs;
    }
  }

  lemma ArgsEnd(s: string, p: nat, args: seq<Span>, ts: seq<Target>)
    requires p <= |s| && (EndsArgs(Peek(s, p)) || Token(s, p).kind == '\0')
    ensures ArgsAre(s, p, args, ts, Wrap(Exec(args), ts), Skip(s, p))
  {
  }

  lemma ArgsTurn(s: string, p: nat, args: seq<Span>, w: Span, ts: seq<Target>, us: seq<Target>, q: nat, c: Cmd, e: nat)
    requires p <= |s| && !EndsArgs(Peek(s, p)) && Token(s, p).kind == 'a' && |args| + 1 < MAXARGS
    requires w == Span(Token(s, p).q, Token(s, p).eq) && RedirsAre(s, Token(s, p).next, ts, us, q)
    requires p < q && ArgsAre(s, q, args + [w], us, c, e)
    ensures ArgsAre(s, p, args, ts, c, e)
  {
    assert Sought(0);
  }

  /** Behind redirections comes a word or the end of the command. */
  lemma ItemsNoOp(items: seq<Item>, rest: seq<Lex>)
    requires (items == [] || items[0].Arg?) && Ends(rest)
    ensures NoOp(ItemsLexes(items) + rest)
  {
  }

  lemma ItemsRead(s: string, args: seq<Span>, w: Span, ts: seq<Target>, us: seq<Target>, rs: seq<Redirection>,
                  items: seq<Item>, more: seq<Item>)
    requires RedirsIn(s, us) == RedirsIn(s, ts) + rs
    requires ArgsOf(items) == [Text(s, w)] + ArgsOf(more) && RedirsOf(items) == rs + RedirsOf(more)
    ensures Texts(s, args + [w]) + ArgsOf(more) == Texts(s, args) + ArgsOf(items)
    ensures RedirsIn(s, us) + RedirsOf(more) == RedirsIn(s, ts) + RedirsOf(items)
  {
    TextsMore(s, args, w);
    var x, y, z := Texts(s, args), [Text(s, w)], ArgsOf(more);
    assert x + y + z == x + (y + z);
    var u, v, t := RedirsIn(s, ts), rs, RedirsOf(more);
    assert u + v + t == u + (v + t);
  }

  lemma ItemsSplit(items: seq<Item>, rest: seq<Lex>) returns (rs: seq<Redirection>, more: seq<Item>)
    requires items != [] && items[0].Arg?
    ensures ItemsLexes(items) + rest == [Word(items[0].w)] + (RedirsLexes(rs) + (ItemsLexes(more) + rest))
    ensures ArgsOf(items) == [items[0].w] + ArgsOf(more) && RedirsOf(items) == rs + RedirsOf(more)
    ensures |more| < |items| && (more == [] || more[0].Arg?)
  {
    rs, more := Split(items[1..]);
    WordFirst(items[0].w, rs, more);
    assert items == [Arg(items[0].w)] + (Intos(rs) + more);
    Regroup([Word(items[0].w)], RedirsLexes(rs), ItemsLexes(more), rest);
  }

  lemma Regroup(a: seq<Lex>, b: seq<Lex>, c: seq<Lex>, d: seq<Lex>)
    ensures a + (b + c) + d == a + (b + (c + d)) == a + b + c + d && b + c + d == b + (c + d)
  {
  }

  lemma {:induction false} ArgsComplete(s: string, p: nat, args: seq<Span>, ts: seq<Target>, items: seq<Item>,
                                        rest: seq<Lex>) returns (c: Cmd, e: nat)
    requires Has(s, p, ItemsLexes(items) + rest) && Ends(rest) && (items == [] || items[0].Arg?)
    requires |args| + |ArgsOf(items)| < MAXARGS
    ensures ArgsAre(s, p, args, ts, c, e) && Has(s, e, rest)
    ensures TreeOf(s, c) == Around(TExec(Texts(s, args) + ArgsOf(items)), RedirsIn(s, ts) + RedirsOf(items))
    decreases |items|
  {
    if items == [] {
      assert ItemsLexes(items) + rest == rest;
      HasOther(s, p, rest);
      ArgsEnd(s, p, args, ts);
      ExecTree(s, args, ts);
      c, e := Wrap(Exec(args), ts), Skip(s, p);
      assert Texts(s, args) + [] == Texts(s, args) && RedirsIn(s, ts) + [] == RedirsIn(s, ts);
    } else {
      var rs, more := ItemsSplit(items, rest);
      HasWord(s, p, items[0].w, RedirsLexes(rs) + (ItemsLexes(more) + rest));
      ItemsNoOp(more, rest);
      var t := Token(s, p);
      var us, q := RedirsComplete(s, t.next, ts, rs, ItemsLexes(more) + rest);
      c, e := ArgsComplete(s, q, args + [Span(t.q, t.eq)], us, more, rest);
      ArgsTurn(s, p, args, Span(t.q, t.eq), ts, us, q, c, e);
      ItemsRead(s, args, Span(t.q, t.eq), ts, us, rs, items, more);
    }
  }

  // The rest of the grammar.

  lemma PlainExec(s: string, p: nat, ts: seq<Target>, q: nat, c: Cmd, e: nat)
    requires p <= |s| && Peek(s, p) != '(' && RedirsAre(s, p, [], ts, q) && p <= q && ArgsAre(s, q, [], ts, c, e)
    ensures ExecIs(s, p, c, e)
  {
    assert Sought(0);
  }

  lemma RedirsFirst(items: seq<Item>, rest: seq<Lex>) returns (rs: seq<Redirection>, more: seq<Item>)
    ensures ItemsLexes(items) + rest == RedirsLexes(rs) + (ItemsLexes(more) + rest)
    ensures ArgsOf(items) == ArgsOf(more) && RedirsOf(items) == rs + RedirsOf(more) && (more == [] || more[0].Arg?)
  {
    rs, more := Split(items);
    IntosFirst(rs, more);
    Regroup([], RedirsLexes(rs), ItemsLexes(more), rest);
  }

  lemma PlainComplete(s: string, p: nat, items: seq<Item>, rest: seq<Lex>) returns (c: Cmd, e: nat)
    requires |ArgsOf(items)| < MAXARGS && Has(s, p, ItemsLexes(items) + rest) && Ends(rest)
    ensures ExecIs(s, p, c, e) && Has(s, e, rest) && TreeOf(s, c) == SimpleTree(Plain(items))
  {
    var rs, more := RedirsFirst(items, rest);
    ItemsNoOp(more, rest);
    NoParen(s, p, items, rest);
    var ts, q := RedirsComplete(s, p, [], rs, ItemsLexes(more) + rest);
    c, e := ArgsComplete(s, q, [], ts, more, rest);
    PlainExec(s, p, ts, q, c, e);
    assert RedirsIn(s, []) + rs == rs && Texts(s, []) + ArgsOf(more) == ArgsOf(more);
  }

  lemma NoParen(s: string, p: nat, items: seq<Item>, rest: seq<Lex>)
    requires Has(s, p, ItemsLexes(items) + rest) && Ends(rest)
    ensures Peek(s, p) != '('
  {
    assert items != [] ==> ItemsLexes(items)[0] == ItemLexes(items[0])[0];
    HasOther(s, p, ItemsLexes(items) + rest);
  }

  lemma BlockExec(s: string, p: nat, q: nat, c: Cmd, m: nat, r: nat, ts: seq<Target>, e: nat)
    requires p <= |s| && Peek(s, p) == '(' && Token(s, p).next == q && LineIs(s, q, c, m)
    requires Peek(s, m) == ')' && Token(s, m).next == r && RedirsAre(s, r, [], ts, e)
    ensures ExecIs(s, p, Wrap(c, ts), e)
  {
    assert Sought(0);
  }

  lemma {:induction false} ExecComplete(s: string, p: nat, x: Simple, rest: seq<Lex>) returns (c: Cmd, e: nat)
    requires SimpleOk(x) && Has(s, p, SimpleLexes(x) + rest) && Ends(rest)
    ensures ExecIs(s, p, c, e) && Has(s, e, rest) && TreeOf(s, c) == SimpleTree(x)
    decreases x
  {
    match x
    case Plain(items) => c, e := PlainComplete(s, p, items, rest);
    case Group(line, rs) =>
      var after := RedirsLexes(rs) + rest;
      GroupLexes(line, rs, rest);
      HasSymbol(s, p, '(', LineLexes(line) + ([Sym(')')] + after));
      var q := Token(s, p).next;
      var d, m := LineComplete(s, q, line, [Sym(')')] + after);
      HasSymbol(s, m, ')', after);
      var r := Token(s, m).next;
      var ts;
      ts, e := RedirsComplete(s, r, [], rs, rest);
      BlockExec(s, p, q, d, m, r, ts, e);
      WrapTree(s, d, ts);
      c := Wrap(d, ts);
      assert RedirsIn(s, []) + rs == rs;
  }

  lemma GroupLexes(line: Line, rs: seq<Redirection>, rest: seq<Lex>)
    ensures SimpleLexes(Group(line, rs)) + rest == [Sym('(')]
            + (LineLexes(line) + ([Sym(')')] + (RedirsLexes(rs) + rest)))
  {
    var a, b, c, d := [Sym('(')], LineLexes(line), [Sym(')')], RedirsLexes(rs);
    assert a + b + c + d + rest == a + (b + (c + (d + rest)));
  }

  /** What may follow a pipeline. */
  predicate PipeEnds(rest: seq<Lex>) { Ends(rest) && (rest == [] || rest[0] != Sym('|')) }

  lemma OnePipe(s: string, p: nat, c: Cmd, m: nat)
    requires ExecIs(s, p, c, m) && Peek(s, m) != '|'
    ensures PipeIs(s, p, c, Skip(s, m))
  {
    assert Sought(0);
  }

  lemma MorePipes(s: string, p: nat, c: Cmd, m: nat, d: Cmd, e: nat)
    requires ExecIs(s, p, c, m) && Peek(s, m) == '|' && PipeIs(s, Token(s, m).next, d, e)
    ensures PipeIs(s, p, Pipe(c, d), e)
  {
    assert Sought(0);
  }

  lemma {:induction false} PipeComplete(s: string, p: nat, x: Pipeline, rest: seq<Lex>) returns (c: Cmd, e: nat)
    requires PipeOk(x) && Has(s, p, PipeLexes(x) + rest) && PipeEnds(rest)
    ensures PipeIs(s, p, c, e) && Has(s, e, rest) && TreeOf(s, c) == PipeTree(x)
    decreases x
  {
    match x
    case Single(y) =>
      var m;
      c, m := ExecComplete(s, p, y, rest);
      HasOther(s, m, rest);
      OnePipe(s, p, c, m);
      e := Skip(s, m);
    case Piped(y, more) =>
      var after := [Sym('|')] + (PipeLexes(more) + rest);
      assert SimpleLexes(y) + [Sym('|')] + PipeLexes(more) + rest == SimpleLexes(y) + after;
      var l, m := ExecComplete(s, p, y, after);
      HasSymbol(s, m, '|', PipeLexes(more) + rest);
      var r;
      r, e := PipeComplete(s, Token(s, m).next, more, rest);
      MorePipes(s, p, l, m, r, e);
      c := Pipe(l, r);
  }

  lemma {:induction false} BacksComplete(s: string, p: nat, c: Cmd, n: nat, rest: seq<Lex>)
    requires Has(s, p, Amps(n) + rest) && (rest == [] || rest[0] != Sym('&'))
    ensures Has(s, Backs(s, p, c).next, rest) && TreeOf(s, Backs(s, p, c).cmd) == Backed(TreeOf(s, c), n)
    decreases n
  {
    if n == 0 {
      assert Amps(n) + rest == rest;
      HasOther(s, p, rest);
    } else {
      assert Amps(n) + rest == [Sym('&')] + (Amps(n - 1) + rest);
      HasSymbol(s, p, '&', Amps(n - 1) + rest);
      BacksComplete(s, Token(s, p).next, Back(c), n - 1, rest);
      BackedIn(TreeOf(s, c), n - 1);
    }
  }

  /** What may follow a line. */
  predicate LineEnds(rest: seq<Lex>) { rest == [] || rest[0] == Sym(')') }

  lemma OneLine(s: string, p: nat, c: Cmd, m: nat)
    requires PipeIs(s, p, c, m) && Peek(s, Backs(s, m, c).next) != ';'
    ensures LineIs(s, p, Backs(s, m, c).cmd, Skip(s, Backs(s, m, c).next))
  {
    assert Sought(0);
  }

  lemma MoreLines(s: string, p: nat, c: Cmd, m: nat, o: Out, d: Cmd, e: nat)
    requires PipeIs(s, p, c, m) && o == Backs(s, m, c) && Peek(s, o.next) == ';'
             && LineIs(s, Token(s, o.next).next, d, e)
    ensures LineIs(s, p, List(o.cmd, d), e)
  {
    assert Sought(0);
  }

  lemma AmpsEnd(n: nat, rest: seq<Lex>)
    requires LineEnds(rest) || rest[0] == Sym(';')
    ensures PipeEnds(Amps(n) + rest)
  {
  }

  lemma ThenLexes(y: Pipeline, n: nat, more: Line, rest: seq<Lex>)
    ensures LineLexes(Then(y, n, more)) + rest == PipeLexes(y) + (Amps(n) + ([Sym(';')] + (LineLexes(more) + rest)))
  {
    var a, b, c, d := PipeLexes(y), Amps(n), [Sym(';')], LineLexes(more);
    Regroup(a, b, c, d);
    assert a + (b + (c + d)) + rest == a + (b + (c + (d + rest)));
  }

  /** A line of the grammar is accepted, and means what the grammar says. */
  lemma {:induction false} LineComplete(s: string, p: nat, x: Line, rest: seq<Lex>) returns (c: Cmd, e: nat)
    requires LineOk(x) && Has(s, p, LineLexes(x) + rest) && LineEnds(rest)
    ensures LineIs(s, p, c, e) && Has(s, e, rest) && TreeOf(s, c) == LineTree(x)
    decreases x
  {
    match x
    case Last(y, n) =>
      assert PipeLexes(y) + Amps(n) + rest == PipeLexes(y) + (Amps(n) + rest);
      AmpsEnd(n, rest);
      var d, m := PipeComplete(s, p, y, Amps(n) + rest);
      BacksComplete(s, m, d, n, rest);
      var o := Backs(s, m, d);
      HasOther(s, o.next, rest);
      OneLine(s, p, d, m);
      c, e := o.cmd, Skip(s, o.next);
    case Then(y, n, more) =>
      var after := [Sym(';')] + (LineLexes(more) + rest);
      ThenLexes(y, n, more, rest);
      AmpsEnd(n, after);
      var d, m := PipeComplete(s, p, y, Amps(n) + after);
      BacksComplete(s, m, d, n, after);
      var o := Backs(s, m, d);
      HasSymbol(s, o.next, ';', LineLexes(more) + rest);
      var r;
      r, e := LineComplete(s, Token(s, o.next).next, more, rest);
      MoreLines(s, p, d, m, o, r, e);
      c := List(o.cmd, r);
  }

  // -------------------------------------------------------------- exactness

  /** Some line of the grammar is what has been typed. */
  ghost predicate Grammatical(s: string) {
    exists x :: LineOk(x) && LineLexes(x) == Lexes(s, 0)
  }

  /** Whatever line of the grammar has been typed, parsecmd accepts it and gives the command that it means. */
  lemma ParsesTo(s: string, x: Line)
    requires LineOk(x) && LineLexes(x) == Lexes(s, 0)
    ensures ParseCmd(s).Some? && TreeOf(s, ParseCmd(s).value) == LineTree(x)
  {
    assert LineLexes(x) + [] == LineLexes(x);
    var c, e := LineComplete(s, 0, x, []);
    HasOther(s, e, []);
    assert Sought(0);
  }

  /** parsecmd accepts nothing else. */
  lemma ParsesOnly(s: string)
    requires ParseCmd(s).Some?
    ensures Grammatical(s)
  {
    var o := ParseLine(s, 0).value;
    var x := LineSound(s, 0, o.cmd, o.next);
    assert Asked(0);
    TokenWord(s, o.next);
    assert LineLexes(x) + [] == LineLexes(x);
  }

  /** The parser is exact for the grammar. */
  lemma ParsesExactly(s: string)
    ensures ParseCmd(s).Some? <==> Grammatical(s)
  {
    if ParseCmd(s).Some? {
      ParsesOnly(s);
    }
    if x :| LineOk(x) && LineLexes(x) == Lexes(s, 0) {
      ParsesTo(s, x);
    }
  }
}
