/** From a command to text and back to C strings: printing, parsing and nulterminate together (user/sh.c). */
module ShellRead {
  import opened Shell
  import opened ShellNul
  import opened ShellSyntax

  // ---------------------------------------------------------------- printing

  predicate IsWord(w: string) { |w| > 0 && forall i :: 0 <= i < |w| ==> WordChar(w[i]) }

  /** Tokens that can be typed. */
  predicate Typed(ls: seq<Lex>) {
    forall i :: 0 <= i < |ls| ==> match ls[i] case Word(w) => IsWord(w) case Sym(c) => Symbol(c) || c == '+'
  }

  function LexText(l: Lex): (t: string) {
    match l case Word(w) => w case Sym(c) => if c == '+' then ">>" else [c]
  }

  /** Tokens with a space before each. */
  function Show(ls: seq<Lex>): (r: string) {
    if ls == [] then [] else " " + LexText(ls[0]) + Show(ls[1..])
  }

  lemma {:induction false} WordEndIs(s: string, p: nat, e: nat)
    requires p <= e <= |s| && (forall i :: p <= i < e ==> WordChar(s[i])) && (e < |s| ==> !WordChar(s[e]))
    ensures WordEnd(s, p) == e
    decreases e - p
  {
    if p < e { WordEndIs(s, p + 1, e); }
  }

  /** A word that a space or the end follows. */
  lemma WordShown(s: string, p: nat, w: string, e: nat)
    requires IsWord(w) && e == p + 1 + |w| <= |s| && s[p] == ' ' && s[p + 1..e] == w && (e < |s| ==> s[e] == ' ')
    ensures Token(s, p) == Tok('a', p + 1, e, Skip(s, e)) && Text(s, Span(p + 1, e)) == w
  {
    forall i | p + 1 <= i < e ensures WordChar(s[i]) { assert s[i] == w[i - p - 1]; }
    assert WordChar(s[p + 1]);
    assert Skip(s, p) == Skip(s, p + 1) == p + 1;
    WordEndIs(s, p + 1, e);
  }

  lemma SymbolShown(s: string, p: nat, c: char, e: nat)
    requires Symbol(c) || c == '+'
    requires e == p + 1 + |LexText(Sym(c))| <= |s| && s[p] == ' ' && s[p + 1..e] == LexText(Sym(c))
    requires e < |s| ==> s[e] == ' '
    ensures Token(s, p) == Tok(c, p + 1, e, Skip(s, e))
  {
    assert s[p + 1] == LexText(Sym(c))[0];
    assert c == '+' ==> s[p + 2] == LexText(Sym(c))[1];
    assert Skip(s, p) == Skip(s, p + 1) == p + 1;
  }

  lemma Shown(s: string, p: nat, w: string, rest: string) returns (e: nat)
    requires p <= |s| && s[p..] == " " + w + rest
    ensures e == p + 1 + |w| <= |s| && s[p] == ' ' && s[p + 1..e] == w && s[e..] == rest
    ensures e < |s| ==> rest != [] && s[e] == rest[0]
  {
    e := p + 1 + |w|;
    var t := s[p..];
    assert s[p] == t[0] && s[p + 1..e] == t[1..1 + |w|] && s[e..] == t[1 + |w|..];
  }

  /** What has been printed is lexed back. */
  lemma {:induction false} LexesShown(s: string, p: nat, ls: seq<Lex>)
    requires p <= |s| && s[p..] == Show(ls) && Typed(ls)
    ensures Lexes(s, p) == ls
    decreases |ls|
  {
    if ls == [] {
      assert p == |s|;
    } else {
      var l := ls[0];
      var e := Shown(s, p, LexText(l), Show(ls[1..]));
      assert e < |s| ==> s[e] == Show(ls[1..])[0] == ' ';
      TokenShown(s, p, l, e);
      LexesShown(s, e, ls[1..]);
      SkipLexes(s, e);
      assert ls == [l] + ls[1..];
    }
  }

  lemma TokenShown(s: string, p: nat, l: Lex, e: nat)
    requires match l case Word(w) => IsWord(w) case Sym(c) => Symbol(c) || c == '+'
    requires e == p + 1 + |LexText(l)| <= |s| && s[p] == ' ' && s[p + 1..e] == LexText(l) && (e < |s| ==> s[e] == ' ')
    ensures Lexes(s, p) == [l] + Lexes(s, Skip(s, e))
  {
    match l
    case Word(w) => WordShown(s, p, w, e);
    case Sym(c) => SymbolShown(s, p, c, e);
  }

  /** Print a line of the grammar and parse it: the command is the one that the line means. */
  lemma RoundTrip(x: Line)
    requires LineOk(x) && Typed(LineLexes(x))
    ensures var s := Show(LineLexes(x)); ParseCmd(s).Some? && TreeOf(s, ParseCmd(s).value) == LineTree(x)
  {
    var s := Show(LineLexes(x));
    assert s[0..] == s;
    LexesShown(s, 0, LineLexes(x));
    ParsesTo(s, x);
  }

  // ----------------------------------------------------------- every command

  /** A line that means `t`, with parentheses wherever they do no harm. */
  function Written(t: Tree): (x: Line) {
    match t
    case TExec(args) => Last(Single(Plain(seq(|args|, i requires 0 <= i < |args| => Arg(args[i])))), 0)
    case TRedir(d, file, mode) => Last(Single(Group(Written(d), [Redirection(mode, file)])), 0)
    case TPipe(l, r) => Last(Piped(Group(Written(l), []), Single(Group(Written(r), []))), 0)
    case TList(l, r) => Then(Single(Group(Written(l), [])), 0, Written(r))
    case TBack(d) => Last(Single(Group(Written(d), [])), 1)
  }

  predicate Short(t: Tree) {
    match t
    case TExec(args) => |args| < MAXARGS
    case TRedir(d, _, _) => Short(d)
    case TPipe(l, r) => Short(l) && Short(r)
    case TList(l, r) => Short(l) && Short(r)
    case TBack(d) => Short(d)
  }

  lemma {:induction false} JustArgs(items: seq<Item>)
    requires forall i :: 0 <= i < |items| ==> items[i].Arg?
    ensures RedirsOf(items) == [] && |ArgsOf(items)| == |items|
    ensures forall i :: 0 <= i < |items| ==> ArgsOf(items)[i] == items[i].w
    decreases |items|
  {
    if items != [] { JustArgs(items[1..]); }
  }

  /** Every command without too many arguments can be written, and so parsed. */
  lemma {:induction false} WrittenMeans(t: Tree)
    requires Short(t)
    ensures LineTree(Written(t)) == t && LineOk(Written(t))
    decreases t
  {
    match t
    case TExec(args) =>
      var items := Written(t).pipe.cmd.items;
      JustArgs(items);
      assert ArgsOf(items) == args;
      InBlock(TExec(args));
      assert SimpleTree(Plain(items)) == t && SimpleOk(Plain(items));
      assert PipeTree(Single(Plain(items))) == t && PipeOk(Single(Plain(items)));
    case TRedir(d, file, mode) =>
      WrittenMeans(d);
      var r := Redirection(mode, file);
      assert [r][1..] == [];
      InBlock(TRedir(d, file, mode));
      assert Around(d, [r]) == Around(TRedir(d, file, mode), [r][1..]);
      var x := Group(Written(d), [r]);
      assert SimpleTree(x) == t && SimpleOk(x) && PipeTree(Single(x)) == t && PipeOk(Single(x));
    case TPipe(l, r) =>
      WrittenMeans(l);
      WrittenMeans(r);
      var x := InParens(Written(l), l);
      var y := InParens(Written(r), r);
      assert PipeTree(Piped(x, Single(y))) == t && PipeOk(Piped(x, Single(y)));
      InBlock(t);
    case TList(l, r) =>
      WrittenMeans(l);
      WrittenMeans(r);
      var x := InParens(Written(l), l);
      InBlock(l);
    case TBack(d) =>
      WrittenMeans(d);
      var x := InParens(Written(d), d);
      InBlock(d);
  }

  lemma InParens(x: Line, t: Tree) returns (c: Simple)
    requires LineTree(x) == t && LineOk(x)
    ensures c == Group(x, []) && SimpleTree(c) == t && SimpleOk(c) && PipeTree(Single(c)) == t && PipeOk(Single(c))
  {
    c := Group(x, []);
    InBlock(t);
  }

  lemma InBlock(t: Tree)
    ensures Around(t, []) == t && Backed(t, 0) == t && Backed(t, 1) == TBack(t)
  {
  }

  // --------------------------------------------------------------- C strings

  /** The arguments and file names of a command, in the order of its words. */
  function TreeWords(t: Tree): (ws: seq<string>) {
    match t
    case TExec(args) => args
    case TRedir(d, file, _) => TreeWords(d) + [file]
    case TPipe(l, r) => TreeWords(l) + TreeWords(r)
    case TList(l, r) => TreeWords(l) + TreeWords(r)
    case TBack(d) => TreeWords(d)
  }

  lemma TextsConcat(s: string, a: seq<Span>, b: seq<Span>)
    ensures Texts(s, a + b) == Texts(s, a) + Texts(s, b)
  {
  }

  /** The words of a parsed command are the words of its tree. */
  lemma {:induction false} WordsAre(s: string, c: Cmd)
    ensures Texts(s, Words(c)) == TreeWords(TreeOf(s, c))
  {
    match c
    case Exec(args) =>
    case Redir(d, file, _) =>
      WordsAre(s, d);
      TextsConcat(s, Words(d), [file]);
    case Pipe(l, r) =>
      WordsAre(s, l);
      WordsAre(s, r);
      TextsConcat(s, Words(l), Words(r));
    case List(l, r) =>
      WordsAre(s, l);
      WordsAre(s, r);
      TextsConcat(s, Words(l), Words(r));
    case Back(d) =>
      WordsAre(s, d);
  }

  /**
   * Type any line of the grammar, however it is spaced, parse it, cut it up with NULs: every argument and file name
   * that exec and open are then given is, as a C string, a word of the command that the line means, in its place.
   */
  lemma WordsSurvive(s: string, x: Line, k: nat)
    requires LineOk(x) && LineLexes(x) == Lexes(s, 0) && k < |TreeWords(LineTree(x))|
    requires forall i :: 0 <= i < |s| ==> s[i] != '\0'
    ensures ParseCmd(s).Some?
    ensures var ws := Words(ParseCmd(s).value);
            && |ws| == |TreeWords(LineTree(x))| && AllWords(s, ws)
            && CString(Cut(s + ['\0'], ws), ws[k].q) == TreeWords(LineTree(x))[k]
  {
    ParsesTo(s, x);
    WordsAre(s, ParseCmd(s).value);
    WordsReadBack(s, k);
  }
}
