/** The regular-expression matcher of user/grep.c against the language its patterns stand for. */
module Grep {
  // ---------------------------------------------------- the matcher, as computed

  /** matchhere: `re` matches at the beginning of `text`. */
  predicate MatchHere(re: string, text: string)
    decreases |re| + |text|, 0
  {
    if |re| == 0 then true
    else if |re| > 1 && re[1] == '*' then MatchStar(re[0], re[2..], text)
    else if re[0] == '$' && |re| == 1 then |text| == 0
    else |text| > 0 && (re[0] == '.' || re[0] == text[0]) && MatchHere(re[1..], text[1..])
  }

  /** matchstar: zero or more of `c`, then `re`. */
  predicate MatchStar(c: char, re: string, text: string)
    decreases |re| + |text|, 1
  {
    MatchHere(re, text) || (|text| > 0 && (text[0] == c || c == '.') && MatchStar(c, re, text[1..]))
  }

  /** matchhere as the source runs it: recursion for single characters, a call for a star. */
  method RunHere(re: string, text: string) returns (r: bool)
    ensures r == MatchHere(re, text) && r == HereIs(re, text)
    decreases |re| + |text|, 0
  {
    MatchHereIs(re, text);
    if |re| == 0 {
      return true;
    }
    if |re| > 1 && re[1] == '*' {
      r := RunStar(re[0], re[2..], text);
      return;
    }
    if re[0] == '$' && |re| == 1 {
      return |text| == 0;
    }
    if |text| > 0 && (re[0] == '.' || re[0] == text[0]) {
      r := RunHere(re[1..], text[1..]);
      return;
    }
    return false;
  }

  /** matchstar's loop over the text. */
  method RunStar(c: char, re: string, text: string) returns (r: bool)
    ensures r == MatchStar(c, re, text)
    ensures r <==> exists k :: 0 <= k <= |text| && Word(Star(c), text[..k]) && HereIs(re, text[k..])
    decreases |re| + |text|, 1
  {
    MatchStarIs(c, re, text);
    var i := 0;
    while true
      invariant 0 <= i <= |text|
      invariant MatchStar(c, re, text) == MatchStar(c, re, text[i..])
      decreases |text| - i
    {
      var here := RunHere(re, text[i..]);
      if here {
        return true;
      }
      if i == |text| || !(text[i] == c || c == '.') {
        return false;
      }
      assert text[i..][1..] == text[i + 1..];
      i := i + 1;
    }
  }

  /** match: at the beginning of the text, or anywhere in it. */
  method Run(re: string, text: string) returns (r: bool)
    ensures r == Matches(re, text)
  {
    if |re| > 0 && re[0] == '^' {
      r := RunHere(re[1..], text);
      MatchHereIs(re[1..], text);
      assert Matches(re, text) <==> HereIs(re[1..], text);
      return;
    }
    var i := 0;
    while true
      invariant 0 <= i <= |text|
      invariant forall k :: 0 <= k < i ==> !HereIs(re, text[k..])
      decreases |text| - i
    {
      r := RunHere(re, text[i..]);
      MatchHereIs(re, text[i..]);
      if r || i == |text| {
        break;
      }
      i := i + 1;
    }
  }

  // ------------------------------------------------------ the language of a pattern

  datatype Item = Lit(c: char) | Any | Star(c: char)

  /** A pattern as items, and whether a final $ ties it to the end of the text. */
  datatype Pattern = Pattern(items: seq<Item>, tied: bool)

  function Parse(re: string): (p: Pattern)
    decreases |re|
  {
    if |re| == 0 then Pattern([], false)
    else if |re| > 1 && re[1] == '*' then
      var rest := Parse(re[2..]);
      Pattern([Star(re[0])] + rest.items, rest.tied)
    else if re[0] == '$' && |re| == 1 then Pattern([], true)
    else
      var rest := Parse(re[1..]);
      Pattern([if re[0] == '.' then Any else Lit(re[0])] + rest.items, rest.tied)
  }

  /** The words of one item. */
  ghost predicate Word(x: Item, w: string) {
    match x
    case Lit(c) => w == [c]
    case Any => |w| == 1
    case Star(c) => c == '.' || forall i :: 0 <= i < |w| ==> w[i] == c
  }

  /** The language of a sequence of items: one word of each, in order. */
  ghost predicate InLang(items: seq<Item>, s: string)
    decreases |items|
  {
    if |items| == 0 then s == []
    else exists k :: 0 <= k <= |s| && Word(items[0], s[..k]) && InLang(items[1..], s[k..])
  }

  /** Some beginning of the text (all of it, for a tied pattern) is in the language. */
  ghost predicate Starts(p: Pattern, text: string) {
    exists n :: 0 <= n <= |text| && (p.tied ==> n == |text|) && InLang(p.items, text[..n])
  }

  ghost predicate HereIs(re: string, text: string) { Starts(Parse(re), text) }

  /** What match promises: some substring is in the language, at the beginning for ^, up to the end for $. */
  ghost predicate Matches(re: string, text: string) {
    if |re| > 0 && re[0] == '^' then HereIs(re[1..], text)
    else exists i :: 0 <= i <= |text| && HereIs(re, text[i..])
  }

  // --------------------------------------------------------------- equivalence

  /** One item in front: a word of it, then a match of the rest. */
  lemma StartsCons(x: Item, p: Pattern, text: string)
    ensures Starts(Pattern([x] + p.items, p.tied), text) <==>
            exists k :: 0 <= k <= |text| && Word(x, text[..k]) && Starts(p, text[k..])
  {
    var q := Pattern([x] + p.items, p.tied);
    if Starts(q, text) {
      var k := StartsUncons(x, p, text);
    }
    if exists k :: 0 <= k <= |text| && Word(x, text[..k]) && Starts(p, text[k..]) {
      var k :| 0 <= k <= |text| && Word(x, text[..k]) && Starts(p, text[k..]);
      var m :| 0 <= m <= |text[k..]| && (p.tied ==> m == |text[k..]|) && InLang(p.items, text[k..][..m]);
      var s := text[..k + m];
      assert q.items[0] == x && q.items[1..] == p.items;
      assert s[..k] == text[..k] && s[k..] == text[k..][..m];
      assert InLang(q.items, s);
    }
  }

  lemma StartsUncons(x: Item, p: Pattern, text: string) returns (k: nat)
    requires Starts(Pattern([x] + p.items, p.tied), text)
    ensures k <= |text| && Word(x, text[..k]) && Starts(p, text[k..])
  {
    var q := Pattern([x] + p.items, p.tied);
    assert q.items[0] == x && q.items[1..] == p.items;
    var n :| 0 <= n <= |text| && (q.tied ==> n == |text|) && InLang(q.items, text[..n]);
    var s := text[..n];
    k :| 0 <= k <= |s| && Word(x, s[..k]) && InLang(p.items, s[k..]);
    assert s[..k] == text[..k] && s[k..] == text[k..][..n - k];
  }

  /** A star is nothing, or one of its characters and then a star. */
  lemma StarUnroll(c: char, p: Pattern, text: string)
    ensures (exists k :: 0 <= k <= |text| && Word(Star(c), text[..k]) && Starts(p, text[k..])) <==>
            Starts(p, text) || (|text| > 0 && (text[0] == c || c == '.') &&
              exists k :: 0 <= k <= |text[1..]| && Word(Star(c), text[1..][..k]) && Starts(p, text[1..][k..]))
  {
    assert text[0..] == text && text[..0] == [];
    if exists k :: 0 <= k <= |text| && Word(Star(c), text[..k]) && Starts(p, text[k..]) {
      var k :| 0 <= k <= |text| && Word(Star(c), text[..k]) && Starts(p, text[k..]);
      if k > 0 {
        assert text[..k][0] == text[0];
        assert text[1..][..k - 1] == text[..k][1..] && text[1..][k - 1..] == text[k..];
        assert Word(Star(c), text[1..][..k - 1]);
      }
    }
    if Starts(p, text) {
      assert Word(Star(c), text[..0]) && Starts(p, text[0..]);
    }
    if |text| > 0 && (text[0] == c || c == '.') && exists k :: 0 <= k <= |text[1..]| && Word(Star(c), text[1..][..k])
                                                               && Starts(p, text[1..][k..]) {
      var k :| 0 <= k <= |text[1..]| && Word(Star(c), text[1..][..k]) && Starts(p, text[1..][k..]);
      assert text[..k + 1] == [text[0]] + text[1..][..k] && text[k + 1..] == text[1..][k..];
      assert Word(Star(c), text[..k + 1]);
    }
  }

  lemma {:induction false} MatchHereIs(re: string, text: string)
    ensures MatchHere(re, text) == HereIs(re, text)
    decreases |re| + |text|, 0
  {
    if |re| == 0 {
      assert InLang([], text[..0]);
    } else if |re| > 1 && re[1] == '*' {
      StartsCons(Star(re[0]), Parse(re[2..]), text);
      MatchStarIs(re[0], re[2..], text);
    } else if re[0] == '$' && |re| == 1 {
      assert text[..|text|] == text;
    } else {
      var x := if re[0] == '.' then Any else Lit(re[0]);
      StartsCons(x, Parse(re[1..]), text);
      if |text| > 0 {
        assert text[..1] == [text[0]];
        MatchHereIs(re[1..], text[1..]);
      }
    }
  }

  lemma {:induction false} MatchStarIs(c: char, re: string, text: string)
    ensures MatchStar(c, re, text) <==>
            exists k :: 0 <= k <= |text| && Word(Star(c), text[..k]) && HereIs(re, text[k..])
    decreases |re| + |text|, 1
  {
    MatchHereIs(re, text);
    StarUnroll(c, Parse(re), text);
    if |text| > 0 {
      MatchStarIs(c, re, text[1..]);
    }
  }
}
