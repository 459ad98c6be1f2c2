/** Starlark source as a reader sees it: code, comments, and literals in the quotes
    that open and close them.  However a source is read, stripping keeps everything
    but its comments, and calls are cut out of its code alone. */
module StarlarkPieces {
  import opened Wrappers
  import opened Starlark
  import opened StarlarkCalls

  datatype Piece =
    | Code(c: char)
    | Comment(line: string)
    | Short(q: char, inner: string)
    | Long(q: char, inner: string)
    | Open(q: char, long: bool, inner: string)

  function TextOf(p: Piece): string {
    match p
    case Code(c) => [c]
    case Comment(line) => "#" + line
    case Short(q, inner) => [q] + inner + [q]
    case Long(q, inner) => [q, q, q] + inner + [q, q, q]
    case Open(q, long, inner) => (if long then [q, q, q] else [q]) + inner
  }

  function Text(ps: seq<Piece>): string {
    if ps == [] then "" else TextOf(ps[0]) + Text(ps[1..])
  }

  /** Characters none of which closes a literal: every backslash stands before the
      character it escapes. */
  predicate Inner(s: string, q: char) {
    || s == ""
    || (s[0] == '\\' && |s| >= 2 && Inner(s[2..], q))
    || (s[0] != '\\' && s[0] != q && Inner(s[1..], q))
  }

  /** The same with three quotes in a row, also together with those that follow. */
  predicate LongInner(s: string, q: char) {
    || s == ""
    || (s[0] == '\\' && |s| >= 2 && LongInner(s[2..], q))
    || (s[0] != '\\' && !([q, q, q] <= s + [q, q, q]) && LongInner(s[1..], q))
  }

  /** The rest of a source in which the literal is not closed; its last backslash
      may have nothing to escape. */
  predicate Unclosed(s: string, q: char, long: bool) {
    || s == "" || s == "\\"
    || (s[0] == '\\' && |s| >= 2 && Unclosed(s[2..], q, long))
    || (s[0] != '\\' && !((if long then [q, q, q] else [q]) <= s) && Unclosed(s[1..], q, long))
  }

  /** The piece can stand before this rest. */
  predicate Fits(p: Piece, rest: string, comments: bool) {
    match p
    case Code(c) => c != '"' && c != '\'' && (comments ==> c != '#')
    case Comment(line) => comments && '\n' !in line && (rest == "" || rest[0] == '\n')
    case Short(q, inner) =>
      (q == '"' || q == '\'') && Inner(inner, q) && (inner == "" ==> rest == "" || rest[0] != q)
    case Long(q, inner) => (q == '"' || q == '\'') && LongInner(inner, q)
    case Open(q, long, inner) => (q == '"' || q == '\'') && rest == "" && Unclosed(inner, q, long)
  }

  /** A reading of a source; where comments have been stripped none is seen. */
  predicate Readable(ps: seq<Piece>, comments: bool) {
    ps == [] || (Fits(ps[0], Text(ps[1..]), comments) && Readable(ps[1..], comments))
  }

  // ------------------------------------------------------------------- lengths

  lemma {:induction false} InnerLength(s: string, q: char, rest: string)
    requires Inner(s, q) && (q == '"' || q == '\'')
    ensures BodyLength(s + [q] + rest, q, false) == |s| + 1
  {
    var t := s + [q] + rest;
    if s != "" {
      var k := if s[0] == '\\' then 2 else 1;
      assert t[k..] == s[k..] + [q] + rest;
      InnerLength(s[k..], q, rest);
    }
  }

  lemma TripleExactly(s: string, q: char)
    ensures Triple(s, q) <==> [q, q, q] <= s
  {
  }

  lemma {:induction false} LongInnerLength(s: string, q: char, rest: string)
    requires LongInner(s, q) && (q == '"' || q == '\'')
    ensures BodyLength(s + [q, q, q] + rest, q, true) == |s| + 3
  {
    var t := s + [q, q, q] + rest;
    if s != "" {
      var k := if s[0] == '\\' then 2 else 1;
      assert t[k..] == s[k..] + [q, q, q] + rest;
      LongInnerLength(s[k..], q, rest);
      TripleExactly(s + [q, q, q], q);
      TripleExactly(t, q);
      assert [q, q, q] <= t ==> [q, q, q] <= s + [q, q, q];
    } else {
      assert t[0] == q && t[1] == q && t[2] == q;
    }
  }

  lemma {:induction false} UnclosedLength(s: string, q: char, long: bool)
    requires Unclosed(s, q, long) && (q == '"' || q == '\'')
    ensures BodyLength(s, q, long) == |s|
  {
    if s != "" && s != "\\" {
      var k := if s[0] == '\\' then 2 else 1;
      UnclosedLength(s[k..], q, long);
      TripleExactly(s, q);
      assert [q] <= s <==> s[0] == q;
    }
  }

  lemma ShortToken(q: char, inner: string, rest: string)
    requires Fits(Short(q, inner), rest, true)
    ensures TokenLength(TextOf(Short(q, inner)) + rest) == |inner| + 2
  {
    hide BodyLength;
    var s := [q] + inner + [q] + rest;
    assert s[1..] == inner + [q] + rest;
    InnerLength(inner, q, rest);
    assert !Triple(s, q) by {
      assert inner != "" ==> s[1] == inner[0];
      assert inner == "" && rest != "" ==> s[2] == rest[0];
    }
  }

  lemma LongToken(q: char, inner: string, rest: string)
    requires Fits(Long(q, inner), rest, true)
    ensures TokenLength(TextOf(Long(q, inner)) + rest) == |inner| + 6
  {
    hide BodyLength;
    var s := [q, q, q] + inner + [q, q, q] + rest;
    assert s[3..] == inner + [q, q, q] + rest;
    LongInnerLength(inner, q, rest);
  }

  lemma OpenToken(q: char, long: bool, inner: string)
    requires Fits(Open(q, long, inner), "", true)
    ensures TokenLength(TextOf(Open(q, long, inner))) == |TextOf(Open(q, long, inner))|
  {
    hide BodyLength;
    var s := TextOf(Open(q, long, inner));
    UnclosedLength(inner, q, long);
    if long {
      assert s[3..] == inner;
    } else {
      assert s[1..] == inner;
      assert inner != "" ==> s[1] == inner[0];
      assert inner != "" && [q] <= inner <==> inner != "" && inner[0] == q;
    }
  }

  /** A piece before its rest is one token. */
  lemma PieceToken(p: Piece, rest: string)
    requires Fits(p, rest, true)
    ensures var s := TextOf(p) + rest;
      s != "" && TokenLength(s) == |TextOf(p)| && (s[0] == '#' <==> p.Comment?) &&
        (Quote(s[0]) <==> !p.Code? && !p.Comment?)
  {
    hide LiteralLength, Inner, LongInner, Unclosed;
    match p {
      case Code(_) =>
      case Comment(line) => LineOf(line, rest);
      case Short(q, inner) => ShortToken(q, inner, rest);
      case Long(q, inner) => LongToken(q, inner, rest);
      case Open(q, long, inner) =>
        OpenToken(q, long, inner);
        assert TextOf(p) + rest == TextOf(p);
    }
  }

  lemma {:induction false} LineOf(line: string, rest: string)
    requires '\n' !in line && (rest == "" || rest[0] == '\n')
    ensures LineLength("#" + line + rest) == |line| + 1
  {
    LineRest(line, rest);
    assert ("#" + line + rest)[1..] == line + rest;
  }

  lemma {:induction false} LineRest(line: string, rest: string)
    requires '\n' !in line && (rest == "" || rest[0] == '\n')
    ensures LineLength(line + rest) == |line|
  {
    if line != "" {
      assert (line + rest)[1..] == line[1..] + rest && line[0] in line;
      LineRest(line[1..], rest);
    } else {
      assert line + rest == rest;
    }
  }

  // ----------------------------------------------------------------- stripping

  function Kept(ps: seq<Piece>): seq<Piece> {
    if ps == [] then [] else (if ps[0].Comment? then [] else [ps[0]]) + Kept(ps[1..])
  }

  /** Stripping keeps every piece but the comments, as it is. */
  lemma {:induction false} StripReads(ps: seq<Piece>)
    requires Readable(ps, true)
    ensures Strip(Text(ps)) == Text(Kept(ps))
  {
    hide Fits, TokenLength, LineLength;
    if ps != [] {
      var p, rest := ps[0], Text(ps[1..]);
      var s := TextOf(p) + rest;
      PieceToken(p, rest);
      StripReads(ps[1..]);
      assert s[..|TextOf(p)|] == TextOf(p) && s[|TextOf(p)|..] == rest;
      assert ([p] + Kept(ps[1..]))[1..] == Kept(ps[1..]);
      assert [] + Kept(ps[1..]) == Kept(ps[1..]);
      if p.Comment? {
        TokenComment(s);
      }
    } else {
      assert Text([]) == "" && Strip("") == "";
    }
  }

  lemma TokenComment(s: string)
    requires s != "" && s[0] == '#'
    ensures TokenLength(s) == LineLength(s)
  {
  }

  // -------------------------------------------------- every source can be read

  ghost predicate BodyShape(s: string, q: char, long: bool, n: nat, inner: string, closed: bool) {
    if closed then
      && n <= |s| && s[..n] == inner + (if long then [q, q, q] else [q])
      && if long then LongInner(inner, q) else Inner(inner, q)
    else n == |s| && inner == s && Unclosed(s, q, long)
  }

  /** One character, or an escaped one, in front of a body. */
  lemma BodyMore(s: string, q: char, long: bool, k: nat, n: nat, more: string, closed: bool)
    requires s != "" && s != "\\" && k <= |s| && k == (if s[0] == '\\' then 2 else 1)
    requires s[0] != '\\' ==> !((if long then [q, q, q] else [q]) <= s)
    requires BodyShape(s[k..], q, long, n, more, closed)
    ensures BodyShape(s, q, long, k + n, s[..k] + more, closed)
  {
    var inner := s[..k] + more;
    assert inner[k..] == more && inner[0] == s[0];
    assert s[k..] == s[k..][..n] + s[k + n..];
    assert s[..k + n] == s[..k] + s[k..][..n];
    assert closed && long ==> s[..k + n] == inner + [q, q, q];
    assert closed && long && [q, q, q] <= inner + [q, q, q] ==> [q, q, q] <= s;
    assert !closed ==> inner == s;
  }

  lemma BodyClosed(s: string, q: char, long: bool)
    requires s != "" && s[0] != '\\' && (if long then Triple(s, q) else s[0] == q)
    ensures BodyShape(s, q, long, BodyLength(s, q, long), "", true)
  {
    assert long ==> s[..3] == "" + [q, q, q];
    assert !long ==> s[..1] == "" + [q];
  }

  lemma BodyEmpty(s: string, q: char, long: bool)
    requires s == "" || s == "\\"
    ensures BodyShape(s, q, long, BodyLength(s, q, long), s, false)
  {
  }

  lemma ClosesNot(s: string, q: char, long: bool)
    requires s != "" && !(if long then Triple(s, q) else s[0] == q)
    ensures !((if long then [q, q, q] else [q]) <= s)
  {
    TripleExactly(s, q);
  }

  /** Up to where it ends, a literal has an inner text, or it is not closed. */
  lemma {:induction false} BodyRead(s: string, q: char, long: bool) returns (inner: string, closed: bool)
    requires q == '"' || q == '\''
    ensures BodyShape(s, q, long, BodyLength(s, q, long), inner, closed)
  {
    hide BodyShape, Triple, BodyLength;
    inner, closed := s, false;
    if s == "" || s == "\\" {
      BodyEmpty(s, q, long);
    } else {
      BodyCases(s, q, long);
      if s[0] != '\\' && (if long then Triple(s, q) else s[0] == q) {
        inner, closed := "", true;
        BodyClosed(s, q, long);
      } else {
        var k := if s[0] == '\\' then 2 else 1;
        var more;
        more, closed := BodyRead(s[k..], q, long);
        inner := s[..k] + more;
        if s[0] != '\\' {
          ClosesNot(s, q, long);
        }
        BodyMore(s, q, long, k, BodyLength(s[k..], q, long), more, closed);
      }
    }
  }

  lemma LiteralPiece(s: string) returns (p: Piece, rest: string)
    requires s != "" && (s[0] == '"' || s[0] == '\'')
    ensures s == TextOf(p) + rest && |rest| < |s| && forall comments :: Fits(p, rest, comments)
  {
    hide BodyLength, Inner, LongInner, Unclosed, Triple;
    var q, long := s[0], Triple(s, s[0]);
    TripleExactly(s, q);
    var open := if long then [q, q, q] else [q];
    var body := s[|open|..];
    var n := BodyLength(body, q, long);
    var inner, closed := BodyRead(body, q, long);
    rest := body[n..];
    assert s == open + body;
    if !closed {
      p := Open(q, long, inner);
      assert s == open + inner && rest == "";
    } else {
      var close := open;
      assert body == inner + close + rest;
      Around(s, open, body, inner, close, rest);
      if long {
        p := Long(q, inner);
      } else {
        p := Short(q, inner);
        if inner == "" && rest != "" {
          ThreeQuotes(s, q, body, rest, n);
        }
      }
    }
  }

  lemma Around(s: string, open: string, body: string, inner: string, close: string, rest: string)
    requires s == open + body && body == inner + close + rest
    ensures s == open + inner + close + rest
  {
  }

  lemma ThreeQuotes(s: string, q: char, body: string, rest: string, n: nat)
    requires s == [q] + body && n <= |body| && rest == body[n..] && body[..n] == "" + [q] && rest != ""
    requires !([q, q, q] <= s)
    ensures rest[0] != q
  {
    assert |body[..n]| == 1 && s[1] == body[..n][0] && s[2] == rest[0];
  }

  /** The first piece of a source. */
  lemma FirstPiece(s: string, comments: bool) returns (p: Piece, rest: string)
    requires s != ""
    ensures s == TextOf(p) + rest && |rest| < |s| && Fits(p, rest, comments)
  {
    hide Inner, LongInner, Unclosed;
    if s[0] == '"' || s[0] == '\'' {
      p, rest := LiteralPiece(s);
    } else if comments && s[0] == '#' {
      var n := LineLength(s);
      p, rest := Comment(s[1..n]), s[n..];
      assert s == [s[0]] + s[1..n] + rest;
    } else {
      p, rest := Code(s[0]), s[1..];
    }
  }

  /** Every source has a reading. */
  lemma {:induction false} ReadsEverything(s: string, comments: bool) returns (ps: seq<Piece>)
    ensures Readable(ps, comments) && Text(ps) == s
    decreases |s|
  {
    hide Fits, TextOf;
    ps := [];
    if s != "" {
      var p, rest := FirstPiece(s, comments);
      var more := ReadsEverything(rest, comments);
      ps := [p] + more;
      assert ps[1..] == more;
    }
  }

  // --------------------------------------------------------------------- calls

  /** Where a piece of a reading begins. */
  function At(ps: seq<Piece>, k: nat): nat
    requires k <= |ps|
  {
    if k == 0 then 0 else |TextOf(ps[0])| + At(ps[1..], k - 1)
  }

  /** In a source without comments a piece is passed at once. */
  lemma PieceNext(p: Piece, rest: string)
    requires Fits(p, rest, false)
    ensures var s := TextOf(p) + rest;
      s != "" && Next(s, 0) == |TextOf(p)| && (Quote(s[0]) <==> !p.Code?)
  {
    hide Inner, LongInner, Unclosed;
    var s := TextOf(p) + rest;
    assert s[0..] == s;
    if !p.Code? {
      PieceToken(p, rest);
    }
  }

  lemma ShiftNext(a: string, s: string, i: nat)
    requires i < |s|
    ensures Next(a + s, |a| + i) == |a| + Next(s, i)
  {
    assert (a + s)[|a| + i..] == s[i..];
  }

  lemma {:induction false} ShiftReaches(a: string, s: string, i: nat, to: nat)
    requires i <= |s| && i <= to
    ensures Reaches(a + s, |a| + i, |a| + to) <==> Reaches(s, i, to)
    decreases |s| - i
  {
    if i < |s| && i != to {
      ShiftNext(a, s, i);
      if Next(s, i) <= to {
        ShiftReaches(a, s, Next(s, i), to);
      } else {
        NotBack(s, Next(s, i), to);
        NotBack(a + s, |a| + Next(s, i), |a| + to);
      }
    }
  }

  lemma NotBack(s: string, from: nat, to: nat)
    requires to < from
    ensures !Reaches(s, from, to)
  {
    if Reaches(s, from, to) {
      ReachesForward(s, from, to);
    }
  }

  /** What is outside of literals is where a piece begins. */
  lemma {:induction false} ReachedAt(ps: seq<Piece>, i: nat) returns (k: nat)
    requires Readable(ps, false) && Reaches(Text(ps), 0, i)
    ensures k <= |ps| && i == At(ps, k)
  {
    hide Fits, Next;
    k := 0;
    if i > 0 {
      var p, rest := ps[0], Text(ps[1..]);
      PieceNext(p, rest);
      ReachesForward(Text(ps), |TextOf(p)|, i);
      ShiftReaches(TextOf(p), rest, 0, i - |TextOf(p)|);
      var more := ReachedAt(ps[1..], i - |TextOf(p)|);
      k := more + 1;
    }
  }

  lemma {:induction false} AtReached(ps: seq<Piece>, k: nat)
    requires Readable(ps, false) && k <= |ps|
    ensures At(ps, k) <= |Text(ps)| && Reaches(Text(ps), 0, At(ps, k))
  {
    hide Fits, Next, Quote, TextOf;
    if k > 0 {
      var p, rest := ps[0], Text(ps[1..]);
      PieceNext(p, rest);
      AtReached(ps[1..], k - 1);
      ShiftReaches(TextOf(p), rest, 0, At(ps[1..], k - 1));
    }
  }

  lemma {:induction false} AtBegins(ps: seq<Piece>, k: nat)
    requires Readable(ps, false) && k < |ps|
    ensures At(ps, k) < |Text(ps)| && TextOf(ps[k]) != "" && Text(ps)[At(ps, k)] == TextOf(ps[k])[0]
    ensures Quote(Text(ps)[At(ps, k)]) <==> !ps[k].Code?
  {
    hide Fits, Next, Quote, TextOf;
    var p, rest := ps[0], Text(ps[1..]);
    PieceNext(p, rest);
    if k > 0 {
      AtBegins(ps[1..], k - 1);
      assert ps[1..][k - 1] == ps[k];
    } else {
      PieceStarts(p, rest);
    }
  }

  lemma PieceStarts(p: Piece, rest: string)
    ensures TextOf(p) != "" && (TextOf(p) + rest)[0] == TextOf(p)[0]
  {
  }

  lemma {:induction false} AtEnd(ps: seq<Piece>)
    ensures At(ps, |ps|) == |Text(ps)|
  {
    if ps != [] {
      AtEnd(ps[1..]);
    }
  }

  lemma {:induction false} AtGrows(ps: seq<Piece>, k: nat, l: nat)
    requires k <= l <= |ps|
    ensures At(ps, k) <= At(ps, l) && (k < l ==> At(ps, k) < At(ps, l))
  {
    if k > 0 {
      AtGrows(ps[1..], k - 1, l - 1);
    } else if l > 0 {
      PieceStarts(ps[0], "");
    }
  }

  lemma TargetEnds(s: string, rule: string, t: Target)
    requires Word(rule) && Found(s, rule, 0, t)
    ensures t.at < t.start <= t.close < |s| && Reaches(s, 0, t.at) && !Quote(s[t.at])
    ensures Reaches(s, 0, t.start) && Reaches(s, 0, t.start - 1) && s[t.start - 1] == '('
    ensures Reaches(s, 0, t.close) && s[t.close] == ')'
    ensures Closes(s, t.start, 1, t.close)
  {
    hide Word, SkipSpace, Reaches;
    CallReaches(s, t.at, rule);
    ReachesTwice(s, 0, t.at, t.start);
    ReachesTwice(s, 0, t.start, t.close);
    ReachesForward(s, t.at, t.start);
    OpenReached(s, t.at, rule);
    ReachesTwice(s, 0, t.at, t.start - 1);
  }

  lemma OpenReached(s: string, i: nat, rule: string)
    requires Word(rule) && Calls(s, i, rule)
    ensures Reaches(s, i, SkipSpace(s, i + |rule|))
  {
    hide Reaches, SkipSpace;
    var open := SkipSpace(s, i + |rule|);
    SpacesOnly(s, i + |rule|);
    forall j | i <= j < open ensures !Quote(s[j]) {
      if j < i + |rule| {
        assert s[j] == s[i..i + |rule|][j - i] == rule[j - i];
      }
    }
    ReachesPlain(s, i, open);
  }

  lemma {:induction false} NextAt(ps: seq<Piece>, i: nat)
    requires Readable(ps, false) && i < |ps|
    ensures At(ps, i) < |Text(ps)| && Next(Text(ps), At(ps, i)) == At(ps, i + 1)
  {
    hide Fits, Next, Quote, TextOf;
    var p, rest := ps[0], Text(ps[1..]);
    PieceNext(p, rest);
    if i > 0 {
      NextAt(ps[1..], i - 1);
      ShiftNext(TextOf(p), rest, At(ps[1..], i - 1));
    }
  }

  /** How often a character of code occurs. */
  function Count(ps: seq<Piece>, c: char): nat {
    if ps == [] then 0 else (if ps[0] == Code(c) then 1 else 0) + Count(ps[1..], c)
  }

  /** Depth is counted in parentheses of code. */
  lemma {:induction false} DepthCounts(ps: seq<Piece>, i: nat, j: nat)
    requires Readable(ps, false) && i <= j <= |ps|
    ensures Depth(Text(ps), At(ps, i), At(ps, j)) == Count(ps[i..j], '(') - Count(ps[i..j], ')')
    decreases j - i
  {
    hide Readable, Next, At, Text, TextOf, Quote;
    if i < j {
      NextAt(ps, i);
      AtGrows(ps, i + 1, j);
      AtBegins(ps, i);
      DepthCounts(ps, i + 1, j);
      assert ps[i..j][1..] == ps[i + 1..j] && ps[i..j][0] == ps[i];
      FirstNesting(ps[i]);
    }
  }

  lemma FirstNesting(p: Piece)
    requires TextOf(p) != "" && (Quote(TextOf(p)[0]) <==> !p.Code?)
    ensures Nesting(TextOf(p)[0]) == (if p == Code('(') then 1 else 0) - (if p == Code(')') then 1 else 0)
  {
  }

  /** However the source is read, a target begins at a piece of code, and its body
      runs from after a parenthesis of code to the first one of code that closes it:
      no literal holds a target or the end of one. */
  lemma TargetsInCode(ps: seq<Piece>, rule: string, t: Target) returns (k: nat, m: nat, l: nat)
    requires Readable(ps, false) && Word(rule) && Extract(Text(ps), rule, 0).Some?
    requires t in Extract(Text(ps), rule, 0).value
    ensures k < m <= l < |ps| && t.at == At(ps, k) && t.start == At(ps, m) && t.close == At(ps, l)
    ensures ps[k].Code? && ps[m - 1] == Code('(') && ps[l] == Code(')')
    ensures Count(ps[m..l], '(') == Count(ps[m..l], ')')
    ensures forall n :: m <= n <= l ==> Count(ps[m..n], ')') <= Count(ps[m..n], '(')
  {
    hide *;
    var s := Text(ps);
    ExtractFinds(s, rule, 0);
    TargetEnds(s, rule, t);
    NoQuote();
    k := ReachedAt(ps, t.at);
    m := ReachedAt(ps, t.start);
    l := ReachedAt(ps, t.close);
    AtEnd(ps);
    if m <= k { AtGrows(ps, m, k); }
    if l < m { AtGrows(ps, l, m); }
    AtBegins(ps, k);
    AtBegins(ps, l);
    CodeOf(ps[l], ')');
    var o := ReachedAt(ps, t.start - 1);
    AtBegins(ps, o);
    CodeOf(ps[o], '(');
    AtNext(ps, o);
    if o + 1 < m { AtGrows(ps, o + 1, m); }
    if m < o + 1 { AtGrows(ps, m, o + 1); }
    DepthCounts(ps, m, l);
    ClosesMeans(s, t.start, t.close);
    forall n | m <= n <= l ensures Count(ps[m..n], ')') <= Count(ps[m..n], '(') {
      DepthCounts(ps, m, n);
      AtReached(ps, n);
      AtReached(ps, m);
      AtGrows(ps, m, n);
      AtGrows(ps, n, l);
      ReachesLinear(s, 0, At(ps, m), At(ps, n));
    }
  }

  lemma {:induction false} AtNext(ps: seq<Piece>, k: nat)
    requires k < |ps|
    ensures At(ps, k + 1) == At(ps, k) + |TextOf(ps[k])|
    ensures ps[k].Code? ==> |TextOf(ps[k])| == 1
  {
    if k > 0 {
      AtNext(ps[1..], k - 1);
    }
  }

  lemma ClosesMeans(s: string, from: nat, close: nat)
    requires Closes(s, from, 1, close)
    ensures Depth(s, from, close) == 0
    ensures forall m :: from <= m <= close && Reaches(s, from, m) ==> Depth(s, from, m) >= 0
  {
    hide Reaches, Depth;
  }

  /** And every call that begins at a piece of code is found, or lies inside one. */
  lemma CallsInCode(ps: seq<Piece>, rule: string, k: nat)
    requires Readable(ps, false) && Word(rule) && Extract(Text(ps), rule, 0).Some?
    requires k < |ps| && ps[k].Code? && Calls(Text(ps), At(ps, k), rule)
    ensures Covered(Extract(Text(ps), rule, 0).value, At(ps, k))
  {
    hide *;
    AtReached(ps, k);
    AtBegins(ps, k);
    ExtractMissesNone(Text(ps), rule, 0, At(ps, k));
  }

  /** A call: the name of the rule as a whole word, white space, a parenthesis. */
  lemma CallsExactly(s: string, i: nat, rule: string)
    requires i <= |s|
    ensures Calls(s, i, rule) <==> exists open ::
      && i + |rule| <= open < |s| && s[i..i + |rule|] == rule && s[open] == '('
      && (forall j :: i + |rule| <= j < open ==> s[j] in {' ', '\t', '\n', '\r'})
      && (i > 0 ==> !('a' <= s[i - 1] <= 'z' || 'A' <= s[i - 1] <= 'Z' || '0' <= s[i - 1] <= '9' || s[i - 1] == '_'))
  {
    if i + |rule| <= |s| {
      SpaceExactly(s, i + |rule|);
    }
  }

  lemma {:induction false} SpaceExactly(s: string, i: nat)
    requires i <= |s|
    ensures var n := SkipSpace(s, i);
      && i <= n <= |s| && (forall j :: i <= j < n ==> s[j] in {' ', '\t', '\n', '\r'})
      && (n < |s| ==> s[n] !in {' ', '\t', '\n', '\r'})
    decreases |s| - i
  {
    if i < |s| && Space(s[i]) {
      SpaceExactly(s, i + 1);
    }
  }

  lemma NoQuote()
    ensures !Quote(')') && !Quote('(')
  {
  }

  lemma CodeOf(p: Piece, c: char)
    requires p.Code? && TextOf(p)[0] == c
    ensures p == Code(c)
  {
  }
}
