/** Starlark source as the lock generator reads it: comments are stripped, and the
    calls of one rule are cut out. */
module Starlark {

  predicate Quote(c: char) {
    c == '"' || c == '\''
  }

  // ------------------------------------------------------------------- tokens

  /** Three quotes in a row open and close a long literal. */
  predicate Triple(s: string, q: char) {
    |s| >= 3 && s[0] == q && s[1] == q && s[2] == q
  }

  /** How far a literal goes on from inside it; to the end if it is not closed. */
  function BodyLength(s: string, q: char, long: bool): (n: nat)
    ensures n <= |s|
    ensures s != "" ==> n > 0
    decreases |s|
  {
    if s == "" then 0
    else if s[0] == '\\' then if |s| == 1 then 1 else 2 + BodyLength(s[2..], q, long)
    else if long && Triple(s, q) then 3
    else if !long && s[0] == q then 1
    else 1 + BodyLength(s[1..], q, long)
  }

  function LiteralLength(s: string): (n: nat)
    requires s != "" && Quote(s[0])
    ensures 0 < n <= |s|
  {
    if Triple(s, s[0]) then 3 + BodyLength(s[3..], s[0], true) else 1 + BodyLength(s[1..], s[0], false)
  }

  function LineLength(s: string): (n: nat)
    ensures n <= |s| && (n < |s| ==> s[n] == '\n') && forall i :: 0 <= i < n ==> s[i] != '\n'
  {
    if s == "" || s[0] == '\n' then 0 else 1 + LineLength(s[1..])
  }

  /** A literal, a comment without its newline, or one character of code. */
  function TokenLength(s: string): (n: nat)
    requires s != ""
    ensures 0 < n <= |s|
  {
    if Quote(s[0]) then LiteralLength(s) else if s[0] == '#' then LineLength(s) else 1
  }

  /** The position is between two tokens. */
  predicate Boundary(s: string, i: nat)
    decreases |s|
  {
    i == 0 || (s != "" && TokenLength(s) <= i && Boundary(s[TokenLength(s)..], i - TokenLength(s)))
  }

  // ----------------------------------------------------------------- comments

  function Strip(s: string): string
    decreases |s|
  {
    if s == "" then ""
    else if s[0] == '#' then Strip(s[LineLength(s)..])
    else s[..TokenLength(s)] + Strip(s[TokenLength(s)..])
  }

  /** No token is a comment. */
  ghost predicate Bare(s: string) {
    forall i :: 0 <= i < |s| && Boundary(s, i) ==> s[i] != '#'
  }

  lemma BareParts(s: string)
    requires s != ""
    ensures Bare(s) <==> s[0] != '#' && Bare(s[TokenLength(s)..])
  {
    var k := TokenLength(s);
    var rest := s[k..];
    if Bare(s) {
      assert Boundary(s, 0);
      forall i | 0 <= i < |rest| && Boundary(rest, i) ensures rest[i] != '#' {
        assert Boundary(s, k + i) && s[k + i] == rest[i];
      }
    }
    if s[0] != '#' && Bare(rest) {
      forall i | 0 <= i < |s| && Boundary(s, i) ensures s[i] != '#' {
        if i > 0 {
          assert s[i] == rest[i - k];
        }
      }
    }
  }

  /** Exactly the sources without comments are left as they are. */
  lemma {:induction false} BareIsFixed(s: string)
    ensures Bare(s) ==> Strip(s) == s
    decreases |s|
  {
    if s != "" {
      BareParts(s);
      BareIsFixed(s[TokenLength(s)..]);
      assert s == s[..TokenLength(s)] + s[TokenLength(s)..];
    }
  }

  /** What may follow a token without making it another one: the same character as
      before, or one that is no quote. */
  ghost predicate Follows(was: string, now: string) {
    || (was == "" && now == "")
    || (now == "" && was != "" && was[0] == '#')
    || (now != "" && was != "" && (now[0] == was[0] || (was[0] == '#' && now[0] == '\n')))
  }

  /** A literal ends where it did when what follows it is changed in this way. */
  lemma {:induction false} SameBody(s: string, q: char, long: bool, now: string)
    requires Quote(q) && Follows(s[BodyLength(s, q, long)..], now)
    ensures var n := BodyLength(s, q, long); BodyLength(s[..n] + now, q, long) == n
    decreases |s|
  {
    hide Follows, Quote, BodyLength;
    var n := BodyLength(s, q, long);
    var t := s[..n] + now;
    BodyCases(s, q, long);
    BodyCases(t, q, long);
    if s == "" {
      NothingFollows(s[n..], now);
    } else if s[0] == '\\' {
      if |s| > 1 {
        assert t[2..] == s[2..][..n - 2] + now && s[2..][n - 2..] == s[n..];
        SameBody(s[2..], q, long, now);
      } else {
        NothingFollows(s[n..], now);
        assert t == s;
      }
    } else if long && Triple(s, q) {
      assert Triple(t, q);
    } else if long || s[0] != q {
      assert t[1..] == s[1..][..n - 1] + now && s[1..][n - 1..] == s[n..];
      SameBody(s[1..], q, long, now);
      if long {
        NoNewTriple(s, q, n, now);
      }
    }
  }

  lemma NothingFollows(was: string, now: string)
    requires Follows(was, now) && was == ""
    ensures now == ""
  {
  }

  lemma BodyCases(s: string, q: char, long: bool)
    ensures var n := BodyLength(s, q, long);
      if s == "" then n == 0
      else if s[0] == '\\' then if |s| == 1 then n == 1 else n == 2 + BodyLength(s[2..], q, long)
      else if long && Triple(s, q) then n == 3
      else if !long && s[0] == q then n == 1
      else n == 1 + BodyLength(s[1..], q, long)
  {
  }

  /** A changed end does not complete three quotes. */
  lemma NoNewTriple(s: string, q: char, n: nat, now: string)
    requires n == BodyLength(s, q, true) && Quote(q) && Follows(s[n..], now) && s != "" && s[0] != '\\' && !Triple(s, q)
    ensures !Triple(s[..n] + now, q)
  {
  }

  lemma SameToken(s: string, now: string)
    requires s != "" && s[0] != '#' && Follows(s[TokenLength(s)..], now)
    ensures var n := TokenLength(s); TokenLength(s[..n] + now) == n && (s[..n] + now)[n..] == now
  {
    var n := TokenLength(s);
    var t := s[..n] + now;
    assert t[n..] == now;
    if Quote(s[0]) {
      hide Follows, BodyLength;
      if Triple(s, s[0]) {
        assert t[3..] == s[3..][..n - 3] + now && s[3..][n - 3..] == s[n..];
        SameBody(s[3..], s[0], true, now);
      } else {
        assert t[1..] == s[1..][..n - 1] + now && s[1..][n - 1..] == s[n..];
        SameBody(s[1..], s[0], false, now);
        ShortStays(s, now);
      }
    }
  }

  /** Nor does it make a long literal of a short one. */
  lemma ShortStays(s: string, now: string)
    requires s != "" && Quote(s[0]) && !Triple(s, s[0]) && Follows(s[1 + BodyLength(s[1..], s[0], false)..], now)
    ensures !Triple(s[..1 + BodyLength(s[1..], s[0], false)] + now, s[0])
  {
    BodyCases(s[1..], s[0], false);
    if |s| > 2 {
      BodyCases(s[2..], s[0], false);
    }
  }

  lemma StripFollows(s: string)
    ensures Follows(s, Strip(s))
  {
    if s != "" && s[0] == '#' {
      var rest := s[LineLength(s)..];
      assert rest != "" ==> rest[0] == '\n' && Strip(rest)[0] == '\n';
    }
  }

  /** No comment is left. */
  lemma {:induction false} StripIsBare(s: string)
    ensures Bare(Strip(s))
    decreases |s|
  {
    if s != "" {
      var n := TokenLength(s);
      StripIsBare(s[n..]);
      if s[0] != '#' {
        StripFollows(s[n..]);
        SameToken(s, Strip(s[n..]));
        BareParts(Strip(s));
      }
    }
  }

  /** Stripping twice is stripping once. */
  lemma StripIdempotent(s: string)
    ensures Strip(Strip(s)) == Strip(s)
  {
    StripIsBare(s);
    BareIsFixed(Strip(s));
  }

  lemma StripFixed(s: string)
    ensures Strip(s) == s <==> Bare(s)
  {
    BareIsFixed(s);
    StripIsBare(s);
  }

  /** A comment that begins between two tokens can be erased beforehand. */
  lemma {:induction false} EraseComment(s: string, i: nat)
    requires i < |s| && Boundary(s, i) && s[i] == '#'
    ensures Strip(s[..i] + s[i + LineLength(s[i..])..]) == Strip(s)
    decreases |s|
  {
    hide TokenLength, LineLength, Follows, Strip, Boundary;
    if i == 0 {
      StripComment(s);
      assert s[..0] + s[0 + LineLength(s[0..])..] == s[LineLength(s)..] by { assert s[0..] == s; }
    } else {
      var n := TokenLength(s);
      var rest := s[n..];
      BoundaryParts(s, i);
      assert rest[i - n..] == s[i..];
      EraseComment(rest, i - n);
      var now := rest[..i - n] + rest[i - n + LineLength(rest[i - n..])..];
      assert s[..i] + s[i + LineLength(s[i..])..] == s[..n] + now;
      ErasedRest(rest, i - n);
      StripToken(s, now);
    }
  }

  lemma BoundaryParts(s: string, i: nat)
    requires 0 < i < |s| && Boundary(s, i)
    ensures TokenLength(s) <= i && Boundary(s[TokenLength(s)..], i - TokenLength(s))
    ensures s[0] == '#' && s[i] == '#' ==> TokenLength(s) < i
    ensures s[0] == '#' ==> s[TokenLength(s)] == '\n'
  {
  }

  lemma StripComment(s: string)
    requires s != "" && s[0] == '#'
    ensures Strip(s[LineLength(s)..]) == Strip(s)
  {
  }

  lemma ErasedRest(s: string, i: nat)
    requires i < |s| && s[i] == '#'
    ensures Follows(s, s[..i] + s[i + LineLength(s[i..])..])
    ensures i > 0 ==> (s[..i] + s[i + LineLength(s[i..])..])[0] == s[0]
  {
  }

  /** A token is stripped by itself. */
  lemma StripToken(s: string, now: string)
    requires s != "" && Follows(s[TokenLength(s)..], now)
    requires s[0] == '#' ==> now != "" && now[0] == '\n'
    requires Strip(now) == Strip(s[TokenLength(s)..])
    ensures Strip(s[..TokenLength(s)] + now) == Strip(s)
  {
    hide Follows;
    var n := TokenLength(s);
    var t := s[..n] + now;
    assert t[n..] == now && t[..n] == s[..n];
    if s[0] == '#' {
      LineThenNewline(s[..n], now);
    } else {
      SameToken(s, now);
    }
  }

  lemma {:induction false} LineThenNewline(line: string, now: string)
    requires now != "" && now[0] == '\n' && forall i :: 0 <= i < |line| ==> line[i] != '\n'
    ensures LineLength(line + now) == |line|
  {
    if line != "" {
      assert (line + now)[1..] == line[1..] + now;
      LineThenNewline(line[1..], now);
    } else {
      assert line + now == now;
    }
  }

  // -------------------------------------------------------------------- lines

  function Lines(s: string): (lines: seq<string>)
    ensures |lines| > 0
  {
    if s == "" then [""]
    else if s[0] == '\n' then [""] + Lines(s[1..])
    else [[s[0]] + Lines(s[1..])[0]] + Lines(s[1..])[1..]
  }

  predicate StartOf(a: string, b: string) {
    |a| <= |b| && b[..|a|] == a
  }

  /** Every line is the start of its line before. */
  ghost predicate Trimmed(t: string, s: string) {
    |Lines(t)| == |Lines(s)| && forall k :: 0 <= k < |Lines(t)| ==> StartOf(Lines(t)[k], Lines(s)[k])
  }

  lemma TrimmedOne(c: char, t: string, s: string)
    requires Trimmed(t, s)
    ensures Trimmed([c] + t, [c] + s)
  {
    assert ([c] + t)[1..] == t && ([c] + s)[1..] == s;
  }

  lemma {:induction false} TrimmedToken(w: string, t: string, s: string)
    requires Trimmed(t, s)
    ensures Trimmed(w + t, w + s)
  {
    if w != "" {
      TrimmedToken(w[1..], t, s);
      TrimmedOne(w[0], w[1..] + t, w[1..] + s);
      assert [w[0]] + (w[1..] + t) == w + t && [w[0]] + (w[1..] + s) == w + s;
    } else {
      assert w + t == t && w + s == s;
    }
  }

  lemma {:induction false} TrimmedComment(w: string, t: string, s: string)
    requires Trimmed(t, s) && (forall i :: 0 <= i < |w| ==> w[i] != '\n') && (s == "" || s[0] == '\n')
    ensures Trimmed(t, w + s) && Lines(w + s) == [w] + Lines(s)[1..]
  {
    if w != "" {
      TrimmedComment(w[1..], t, s);
      assert (w + s)[1..] == w[1..] + s && [w[0]] + w[1..] == w;
      assert ([w[1..]] + Lines(s)[1..])[1..] == Lines(s)[1..];
    } else {
      assert w + s == s && Lines(s)[0] == w;
      assert Lines(s) == [w] + Lines(s)[1..];
    }
    assert StartOf(Lines(t)[0], Lines(s)[0]);
  }

  /** Stripping only cuts the ends of lines: every newline stays where it is. */
  lemma {:induction false} StripTrims(s: string)
    ensures Trimmed(Strip(s), s)
    decreases |s|
  {
    if s != "" {
      var n := TokenLength(s);
      StripTrims(s[n..]);
      assert s == s[..n] + s[n..];
      if s[0] == '#' {
        TrimmedComment(s[..n], Strip(s[n..]), s[n..]);
      } else {
        TrimmedToken(s[..n], Strip(s[n..]), s[n..]);
      }
    }
  }

  // ------------------------------------------------------------- the stripper

  lemma BodyStep(s: string, i: nat, q: char, long: bool)
    requires i < |s|
    ensures var n := BodyLength(s[i..], q, long);
      if s[i] == '\\' then if i + 1 == |s| then n == 1 else n == 2 + BodyLength(s[i + 2..], q, long)
      else if long && i + 2 < |s| && s[i] == q && s[i + 1] == q && s[i + 2] == q then n == 3
      else if !long && s[i] == q then n == 1
      else n == 1 + BodyLength(s[i + 1..], q, long)
  {
    assert s[i..][1..] == s[i + 1..];
    if i + 1 < |s| {
      assert s[i..][2..] == s[i + 2..];
    }
  }

  lemma Cut(s: string, a: nat, b: nat, c: nat)
    requires a <= b <= c <= |s|
    ensures s[a..b] + s[b..c] == s[a..c]
    ensures c == b + 1 ==> s[b..c] == [s[b]]
    ensures c == b + 3 ==> s[b..c] == [s[b], s[b + 1], s[b + 2]]
  {
  }

  /** One character of a literal, or two after a backslash. */
  method CopyOne(src: string, start: nat, i: nat, q: char, long: bool, text: string) returns (more: string, next: nat)
    requires start <= i < |src| && text == src[start..i]
    requires src[i] != '\\' && (long ==> !(src[i] == q && i + 2 < |src| && src[i + 1] == q && src[i + 2] == q))
    requires (!long ==> src[i] != q)
    ensures next == i + 1 && more == src[start..next]
    ensures BodyLength(src[i..], q, long) == 1 + BodyLength(src[next..], q, long)
  {
    hide *;
    BodyStep(src, i, q, long);
    Cut(src, start, i, i + 1);
    more, next := text + [src[i]], i + 1;
  }

  method CopyEscape(src: string, start: nat, i: nat, q: char, long: bool, text: string)
    returns (more: string, next: nat)
    requires start <= i < |src| && text == src[start..i] && src[i] == '\\'
    ensures i < next <= |src| && more == src[start..next]
    ensures next < |src| ==> next == i + 2
    ensures BodyLength(src[i..], q, long) == next - i + BodyLength(src[next..], q, long)
  {
    BodyStep(src, i, q, long);
    hide *;
    Cut(src, start, i, i + 1);
    more, next := text + [src[i]], i + 1;
    if next < |src| {
      Cut(src, start, next, next + 1);
      more, next := more + [src[next]], next + 1;
    } else {
      BodyCases(src[next..], q, long);
    }
  }

  /** The literal's remaining characters are copied. */
  method CopyLiteral(src: string, start: nat, q: char, long: bool) returns (text: string, i: nat)
    requires start <= |src|
    ensures i == start + BodyLength(src[start..], q, long) && i <= |src| && text == src[start..i]
  {
    hide *;
    i, text := start, "";
    while i < |src|
      invariant start <= i <= |src| && text == src[start..i]
      invariant i + BodyLength(src[i..], q, long) == start + BodyLength(src[start..], q, long)
    {
      if src[i] == '\\' {
        text, i := CopyEscape(src, start, i, q, long, text);
        continue;
      }
      if long && src[i] == q && i + 2 < |src| && src[i + 1] == q && src[i + 2] == q {
        BodyStep(src, i, q, long);
        Cut(src, start, i, i + 3);
        text, i := text + [q, q, q], i + 3;
        return;
      }
      if !long && src[i] == q {
        BodyStep(src, i, q, long);
        Cut(src, start, i, i + 1);
        text, i := text + [q], i + 1;
        return;
      }
      text, i := CopyOne(src, start, i, q, long, text);
    }
    BodyCases(src[i..], q, long);
  }

  lemma LiteralToken(src: string, i: nat, long: bool, end: nat)
    requires i < |src| && Quote(src[i])
    requires long == (i + 2 < |src| && src[i + 1] == src[i] && src[i + 2] == src[i])
    requires var open := if long then 3 else 1; end == i + open + BodyLength(src[i + open..], src[i], long)
    ensures TokenLength(src[i..]) == end - i
  {
    assert src[i..][1..] == src[i + 1..];
    if long {
      assert src[i..][3..] == src[i + 3..];
    }
  }

  method CopyToken(src: string, i: nat) returns (text: string, end: nat)
    requires i < |src| && Quote(src[i])
    ensures i < end <= |src| && text == src[i..end] && TokenLength(src[i..]) == end - i
  {
    hide *;
    var b := src[i];
    var long := i + 2 < |src| && src[i + 1] == b && src[i + 2] == b;
    var quotes := if long then [b, b, b] else [b];
    Cut(src, i, i, i + |quotes|);
    text, end := CopyLiteral(src, i + |quotes|, b, long);
    Cut(src, i, i + |quotes|, end);
    LiteralToken(src, i, long, end);
    text := quotes + text;
  }

  method SkipComment(src: string, start: nat) returns (end: nat)
    requires start < |src|
    ensures end == start + LineLength(src[start..]) && end <= |src|
  {
    end := start;
    while end < |src| && src[end] != '\n'
      invariant start <= end <= |src| && end + LineLength(src[end..]) == start + LineLength(src[start..])
    {
      LineStep(src, end);
      end := end + 1;
    }
  }

  lemma LineStep(s: string, i: nat)
    requires i < |s| && s[i] != '\n'
    ensures LineLength(s[i..]) == 1 + LineLength(s[i + 1..])
  {
    assert s[i..][1..] == s[i + 1..];
  }

  lemma StripStep(s: string, i: nat, n: nat)
    requires i < |s| && n == TokenLength(s[i..])
    ensures i + n <= |s|
    ensures s[i] == '#' ==> n == LineLength(s[i..]) && Strip(s[i..]) == Strip(s[i + n..])
    ensures s[i] != '#' ==> Strip(s[i..]) == s[i..i + n] + Strip(s[i + n..])
    ensures s[i] != '#' && !Quote(s[i]) ==> n == 1
  {
    assert s[i..][n..] == s[i + n..] && s[i..][..n] == s[i..i + n];
  }

  /** `stripStarlarkComments`. */
  method StripComments(src: string) returns (out: string)
    ensures out == Strip(src)
  {
    hide *;
    out := "";
    var i := 0;
    assert src[0..] == src;
    while i < |src|
      invariant 0 <= i <= |src| && out + Strip(src[i..]) == Strip(src)
    {
      StripStep(src, i, TokenLength(src[i..]));
      if Quote(src[i]) {
        NoComment(src[i]);
        var text, end := CopyToken(src, i);
        out, i := out + text, end;
        continue;
      }
      if src[i] == '#' {
        i := SkipComment(src, i);
        if i < |src| && src[i] == '\n' {
          NewlineKept(src, i);
          out, i := out + ['\n'], i + 1;
        }
        continue;
      }
      Cut(src, i, i, i + 1);
      out, i := out + [src[i]], i + 1;
    }
    NothingLeft(src);
  }

  lemma NoComment(c: char)
    ensures Quote(c) ==> c != '#'
  {
  }

  lemma NewlineKept(s: string, i: nat)
    requires i < |s| && s[i] == '\n'
    ensures Strip(s[i..]) == ['\n'] + Strip(s[i + 1..])
  {
    StripStep(s, i, TokenLength(s[i..]));
  }

  lemma NothingLeft(s: string)
    ensures Strip(s[|s|..]) == ""
  {
  }
}
