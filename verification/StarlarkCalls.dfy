/** Cutting the calls of one rule out of Starlark source without comments. */
module StarlarkCalls {
  import opened Wrappers
  import opened Starlark

  predicate Ident(c: char) {
    'a' <= c <= 'z' || 'A' <= c <= 'Z' || '0' <= c <= '9' || c == '_'
  }

  predicate Space(c: char) {
    c == ' ' || c == '\t' || c == '\n' || c == '\r'
  }

  /** Past a literal, or past one character of code. */
  function Next(s: string, i: nat): (n: nat)
    requires i < |s|
    ensures i < n <= |s|
  {
    if Quote(s[i]) then i + LiteralLength(s[i..]) else i + 1
  }

  function SkipSpace(s: string, i: nat): (n: nat)
    ensures i <= n && (i <= |s| ==> n <= |s|)
    decreases |s| - i
  {
    if i < |s| && Space(s[i]) then SkipSpace(s, i + 1) else i
  }

  predicate StartsAt(s: string, i: nat, word: string) {
    i + |word| <= |s| && s[i..i + |word|] == word
  }

  /** The rule's name as a whole word, and a parenthesis. */
  predicate Calls(s: string, i: nat, rule: string) {
    && StartsAt(s, i, rule) && (i > 0 && i <= |s| ==> !Ident(s[i - 1]))
    && SkipSpace(s, i + |rule|) < |s| && s[SkipSpace(s, i + |rule|)] == '('
  }

  function CloseOf(s: string, i: nat, depth: nat): (close: Option<nat>)
    ensures close.Some? ==> i <= close.value < |s|
    decreases |s| - i
  {
    if i >= |s| then None
    else if s[i] == '(' then CloseOf(s, i + 1, depth + 1)
    else if s[i] == ')' then if depth <= 1 then Some(i) else CloseOf(s, i + 1, depth - 1)
    else CloseOf(s, Next(s, i), depth)
  }

  /** Where the name stands, and from where to where the arguments reach. */
  datatype Target = Target(at: nat, start: nat, close: nat)

  function Extract(s: string, rule: string, i: nat): (targets: Option<seq<Target>>)
    decreases |s| - i
  {
    if i >= |s| then Some([])
    else if !Quote(s[i]) && Calls(s, i, rule) then
      var start := SkipSpace(s, i + |rule|) + 1;
      var close := CloseOf(s, start, 1);
      if close.None? then None
      else
        var rest := Extract(s, rule, close.value + 1);
        if rest.None? then None else Some([Target(i, start, close.value)] + rest.value)
    else Extract(s, rule, Next(s, i))
  }

  // ----------------------------------------------------------- what it means

  /** Reading token by token from one position one comes to the other. */
  predicate Reaches(s: string, from: nat, to: nat)
    decreases |s| - from
  {
    from == to || (from < |s| && Reaches(s, Next(s, from), to))
  }

  function Nesting(c: char): int {
    if c == '(' then 1 else if c == ')' then -1 else 0
  }

  /** Open minus closed parentheses outside of literals. */
  function Depth(s: string, from: nat, to: nat): int
    decreases |s| - from
  {
    if from >= to || from >= |s| then 0 else Nesting(s[from]) + Depth(s, Next(s, from), to)
  }

  lemma {:induction false} ReachesForward(s: string, from: nat, to: nat)
    requires Reaches(s, from, to)
    ensures from <= to
    decreases |s| - from
  {
    if from != to {
      ReachesForward(s, Next(s, from), to);
    }
  }

  lemma {:induction false} ReachesTwice(s: string, a: nat, b: nat, c: nat)
    requires Reaches(s, a, b) && Reaches(s, b, c)
    ensures Reaches(s, a, c)
    decreases |s| - a
  {
    if a != b {
      ReachesTwice(s, Next(s, a), b, c);
    }
  }

  /** Of two positions reached one is reached from the other. */
  lemma {:induction false} ReachesLinear(s: string, a: nat, b: nat, c: nat)
    requires Reaches(s, a, b) && Reaches(s, a, c) && b <= c
    ensures Reaches(s, b, c)
    decreases |s| - a
  {
    if a != b {
      ReachesForward(s, Next(s, a), b);
      if a == c {
        ReachesForward(s, a, b);
      } else {
        ReachesLinear(s, Next(s, a), b, c);
      }
    }
  }

  /** The parentheses that were open at the start are closed exactly there, and
      not before. */
  ghost predicate Closes(s: string, from: nat, depth: nat, close: nat) {
    && from <= close < |s| && Reaches(s, from, close) && s[close] == ')' && depth + Depth(s, from, close) == 1
    && forall m :: from <= m <= close && Reaches(s, from, m) ==> depth + Depth(s, from, m) >= 1
  }

  lemma ClosesStep(s: string, from: nat, depth: nat, close: nat)
    requires from < |s| && depth >= 1 && depth + Nesting(s[from]) >= 1
    ensures Closes(s, from, depth, close) <==>
      Closes(s, Next(s, from), depth + Nesting(s[from]), close) && from != close
  {
    var next, d := Next(s, from), depth + Nesting(s[from]);
    if Closes(s, from, depth, close) {
      if from == close {
        assert Depth(s, from, close) == 0;
      } else {
        ReachesForward(s, next, close);
        forall m | next <= m <= close && Reaches(s, next, m) ensures d + Depth(s, next, m) >= 1 {
          assert Reaches(s, from, m);
          assert Depth(s, from, m) == Nesting(s[from]) + Depth(s, next, m);
        }
      }
    }
    if Closes(s, next, d, close) && from != close {
      forall m | from <= m <= close && Reaches(s, from, m) ensures depth + Depth(s, from, m) >= 1 {
        if m != from {
          ReachesForward(s, next, m);
          assert Depth(s, from, m) == Nesting(s[from]) + Depth(s, next, m);
        }
      }
      assert Depth(s, from, close) == Nesting(s[from]) + Depth(s, next, close);
    }
  }

  /** The scan stops exactly where the parentheses balance. */
  lemma {:induction false} CloseBalances(s: string, from: nat, depth: nat, close: nat)
    requires depth >= 1
    ensures CloseOf(s, from, depth) == Some(close) <==> Closes(s, from, depth, close)
    decreases |s| - from
  {
    if from < |s| {
      if s[from] == ')' && depth == 1 {
        FirstClose(s, from, close);
      } else {
        ClosesStep(s, from, depth, close);
        CloseBalances(s, Next(s, from), depth + Nesting(s[from]), close);
        if from == close {
          assert Depth(s, from, close) == 0;
        }
      }
    }
  }

  lemma FirstClose(s: string, from: nat, close: nat)
    requires from < |s| && s[from] == ')'
    ensures Closes(s, from, 1, close) <==> close == from
  {
    var next := from + 1;
    assert Depth(s, from, from) == 0;
    AfterOne(s, from);
    if close != from && Reaches(s, from, close) {
      ReachesForward(s, next, close);
    }
  }

  lemma AfterOne(s: string, from: nat)
    requires from < |s| && !Quote(s[from])
    ensures Next(s, from) == from + 1 && Reaches(s, from, from + 1) && Depth(s, from, from + 1) == Nesting(s[from])
  {
    assert Reaches(s, from + 1, from + 1) && Depth(s, from + 1, from + 1) == 0;
  }

  /** A rule's name. */
  predicate Word(rule: string) {
    rule != "" && forall i :: 0 <= i < |rule| ==> Ident(rule[i])
  }

  lemma {:induction false} ReachesPlain(s: string, from: nat, to: nat)
    requires from <= to <= |s| && forall i :: from <= i < to ==> !Quote(s[i])
    ensures Reaches(s, from, to)
    decreases |s| - from
  {
    if from < to {
      ReachesPlain(s, from + 1, to);
    }
  }

  lemma {:induction false} SpacesOnly(s: string, i: nat)
    ensures forall j :: i <= j < SkipSpace(s, i) && j < |s| ==> Space(s[j])
    decreases |s| - i
  {
    if i < |s| && Space(s[i]) {
      SpacesOnly(s, i + 1);
    }
  }

  /** From the name of a call one reads on to its arguments. */
  lemma CallReaches(s: string, i: nat, rule: string)
    requires Word(rule) && Calls(s, i, rule)
    ensures Reaches(s, i, SkipSpace(s, i + |rule|) + 1)
  {
    var open := SkipSpace(s, i + |rule|);
    SpacesOnly(s, i + |rule|);
    forall j | i <= j < open + 1 ensures !Quote(s[j]) {
      if j < i + |rule| {
        assert s[j] == s[i..i + |rule|][j - i] == rule[j - i];
      }
    }
    assert s[open] == '(';
    ReachesPlain(s, i, open + 1);
  }

  lemma ClosesParts(s: string, from: nat, depth: nat, close: nat)
    requires depth >= 1 && CloseOf(s, from, depth) == Some(close)
    ensures from <= close < |s| && Reaches(s, from, close) && !Quote(s[close])
  {
    CloseBalances(s, from, depth, close);
  }

  /** A target is a call outside of every literal, and its body is what lies
      between its parentheses. */
  ghost predicate Found(s: string, rule: string, i: nat, t: Target) {
    && i <= t.at < t.start <= t.close < |s|
    && Reaches(s, i, t.at) && Reaches(s, i, t.close + 1) && !Quote(s[t.at]) && Calls(s, t.at, rule)
    && t.start == SkipSpace(s, t.at + |rule|) + 1
    && Closes(s, t.start, 1, t.close)
  }

  ghost predicate Apart(targets: seq<Target>) {
    forall k, l :: 0 <= k < l < |targets| ==> targets[k].close < targets[l].at
  }

  /** The targets are calls, in order and apart from each other. */
  lemma {:induction false} ExtractFinds(s: string, rule: string, i: nat)
    requires Word(rule) && Extract(s, rule, i).Some?
    ensures forall t :: t in Extract(s, rule, i).value ==> Found(s, rule, i, t)
    ensures Apart(Extract(s, rule, i).value)
    decreases |s| - i
  {
    hide Reaches, Calls, SkipSpace, CloseOf, Found, Word, Quote;
    var targets := Extract(s, rule, i).value;
    if i < |s| {
      NextReached(s, i);
      if !Quote(s[i]) && Calls(s, i, rule) {
        var start := SkipSpace(s, i + |rule|) + 1;
        var close := CloseOf(s, start, 1).value;
        var rest := Extract(s, rule, close + 1).value;
        TargetFound(s, rule, i, start, close);
        FoundParts(s, rule, i, Target(i, start, close));
        ExtractFinds(s, rule, close + 1);
        forall t | t in rest ensures Found(s, rule, i, t) {
          FoundBefore(s, rule, i, close + 1, t);
        }
        assert targets == [Target(i, start, close)] + rest;
        forall k, l | 0 <= k < l < |targets| ensures targets[k].close < targets[l].at {
          assert targets[l] == rest[l - 1] && rest[l - 1] in rest;
          FoundParts(s, rule, close + 1, targets[l]);
          if k > 0 {
            assert targets[k] == rest[k - 1];
          }
        }
      } else {
        ExtractFinds(s, rule, Next(s, i));
        forall t | t in targets ensures Found(s, rule, i, t) {
          FoundBefore(s, rule, i, Next(s, i), t);
        }
      }
    }
  }

  lemma TargetFound(s: string, rule: string, i: nat, start: nat, close: nat)
    requires Word(rule) && i < |s| && !Quote(s[i]) && Calls(s, i, rule) && start == SkipSpace(s, i + |rule|) + 1
    requires CloseOf(s, start, 1) == Some(close)
    ensures Found(s, rule, i, Target(i, start, close))
  {
    hide *;
    ClosesParts(s, start, 1, close);
    CloseBalances(s, start, 1, close);
    CallReaches(s, i, rule);
    AfterOne(s, close);
    ReachesTwice(s, start, close, close + 1);
    ReachesTwice(s, i, start, close + 1);
    NextReached(s, i);
    FoundTarget(s, rule, i, start, close);
  }

  lemma FoundTarget(s: string, rule: string, i: nat, start: nat, close: nat)
    requires i < start <= close < |s| && Reaches(s, i, i) && Reaches(s, i, close + 1) && !Quote(s[i])
    requires Calls(s, i, rule)
    requires start == SkipSpace(s, i + |rule|) + 1 && Closes(s, start, 1, close)
    ensures Found(s, rule, i, Target(i, start, close))
  {
    hide Reaches, Calls, Closes, SkipSpace, Quote;
  }

  lemma FoundParts(s: string, rule: string, i: nat, t: Target)
    requires Found(s, rule, i, t)
    ensures i <= t.at < t.start <= t.close < |s| && Reaches(s, i, t.close + 1)
  {
  }

  lemma FoundBefore(s: string, rule: string, i: nat, j: nat, t: Target)
    requires i <= j && Reaches(s, i, j) && Found(s, rule, j, t)
    ensures Found(s, rule, i, t)
  {
    ReachesTwice(s, i, j, t.at);
    ReachesTwice(s, i, j, t.close + 1);
  }

  /** Inside the name of a call and up to its parenthesis there is no other call. */
  lemma NoCallInName(s: string, i: nat, j: nat, rule: string)
    requires Word(rule) && Calls(s, i, rule) && i < j < SkipSpace(s, i + |rule|) + 1
    ensures !Calls(s, j, rule)
  {
    SpacesOnly(s, i + |rule|);
    if j <= i + |rule| {
      assert s[j - 1] == s[i..i + |rule|][j - 1 - i] == rule[j - 1 - i];
      assert Ident(s[j - 1]);
    } else {
      FirstOf(s, j, rule);
    }
  }

  lemma FirstOf(s: string, i: nat, rule: string)
    requires rule != ""
    ensures StartsAt(s, i, rule) ==> i < |s| && s[i] == rule[0]
  {
    if StartsAt(s, i, rule) {
      assert s[i] == s[i..i + |rule|][0];
    }
  }

  lemma ExtractStep(s: string, rule: string, i: nat)
    requires i < |s|
    ensures Quote(s[i]) || !Calls(s, i, rule) ==> Extract(s, rule, i) == Extract(s, rule, Next(s, i))
    ensures !Quote(s[i]) ==> Next(s, i) == i + 1
    ensures !Quote(s[i]) && Calls(s, i, rule) ==>
      var start := SkipSpace(s, i + |rule|) + 1; var close := CloseOf(s, start, 1);
      && (close.None? ==> Extract(s, rule, i).None?)
      && (close.Some? ==>
            var rest := Extract(s, rule, close.value + 1);
            Extract(s, rule, i) == if rest.None? then None else Some([Target(i, start, close.value)] + rest.value))
  {
  }

  /** Every call outside of literals is a target or lies in the body of one. */
  ghost predicate Covered(targets: seq<Target>, j: nat) {
    exists t :: t in targets && (t.at == j || t.start <= j <= t.close)
  }

  lemma {:induction false} ExtractMissesNone(s: string, rule: string, i: nat, j: nat)
    requires Word(rule) && Extract(s, rule, i).Some?
    requires Reaches(s, i, j) && j < |s| && !Quote(s[j]) && Calls(s, j, rule)
    ensures Covered(Extract(s, rule, i).value, j)
    decreases |s| - i
  {
    hide *;
    ReachesForward(s, i, j);
    ExtractStep(s, rule, i);
    if !Quote(s[i]) && Calls(s, i, rule) {
      var start := SkipSpace(s, i + |rule|) + 1;
      var close := CloseOf(s, start, 1).value;
      var rest := Extract(s, rule, close + 1).value;
      if i < j < start {
        NoCallInName(s, i, j, rule);
      }
      if j > close {
        TargetFound(s, rule, i, start, close);
        FoundParts(s, rule, i, Target(i, start, close));
        ReachesLinear(s, i, close + 1, j);
        ExtractMissesNone(s, rule, close + 1, j);
      }
      CoveredMore(Target(i, start, close), rest, j);
    } else {
      ReachesOn(s, i, j);
      ExtractMissesNone(s, rule, Next(s, i), j);
    }
  }

  lemma ReachesOn(s: string, i: nat, j: nat)
    requires Reaches(s, i, j) && i != j
    ensures i < |s| && Reaches(s, Next(s, i), j)
  {
  }

  lemma CoveredMore(t: Target, rest: seq<Target>, j: nat)
    ensures t.at == j || t.start <= j <= t.close || Covered(rest, j) ==> Covered([t] + rest, j)
  {
    assert t in [t] + rest;
    if u :| u in rest && (u.at == j || u.start <= j <= u.close) {
      assert u in [t] + rest;
    }
  }

  // -------------------------------------------------------------- when it fails

  /** With fewer parentheses open it closes as well. */
  lemma {:induction false} CloseSooner(s: string, i: nat, d: nat, e: nat)
    requires 1 <= e <= d && CloseOf(s, i, d).Some?
    ensures CloseOf(s, i, e).Some?
    decreases |s| - i
  {
    if s[i] == ')' && d > 1 {
      if e > 1 {
        CloseSooner(s, i + 1, d - 1, e - 1);
      }
    } else if s[i] != ')' {
      CloseSooner(s, Next(s, i), if s[i] == '(' then d + 1 else d, if s[i] == '(' then e + 1 else e);
    }
  }

  /** From every position on the way it is the same parenthesis that closes. */
  lemma {:induction false} CloseOnTheWay(s: string, i: nat, d: nat, m: nat)
    requires d >= 1 && CloseOf(s, i, d).Some? && Reaches(s, i, m) && m <= CloseOf(s, i, d).value
    ensures exists e: nat :: e >= 1 && CloseOf(s, m, e) == CloseOf(s, i, d)
    decreases |s| - i
  {
    if i != m {
      ReachesForward(s, Next(s, i), m);
      CloseOnTheWay(s, Next(s, i), if s[i] == '(' then d + 1 else if s[i] == ')' then d - 1 else d, m);
    }
  }

  /** A call in the body of a closed one is closed. */
  lemma InnerCloses(s: string, start: nat, j: nat, rule: string)
    requires Word(rule) && CloseOf(s, start, 1).Some? && Reaches(s, start, j) && j <= CloseOf(s, start, 1).value
    requires Calls(s, j, rule)
    ensures CloseOf(s, SkipSpace(s, j + |rule|) + 1, 1).Some?
  {
    hide *;
    var open := SkipSpace(s, j + |rule|);
    CloseOnTheWay(s, start, 1, j);
    var e: nat :| e >= 1 && CloseOf(s, j, e) == CloseOf(s, start, 1);
    CloseAfterName(s, j, open, e, rule);
    CloseSooner(s, open + 1, e + 1, 1);
  }

  lemma CloseAfterName(s: string, j: nat, open: nat, e: nat, rule: string)
    requires e >= 1 && Word(rule) && Calls(s, j, rule) && open == SkipSpace(s, j + |rule|) && CloseOf(s, j, e).Some?
    ensures CloseOf(s, open + 1, e + 1).Some?
  {
    SpacesOnly(s, j + |rule|);
    forall k | j <= k < open ensures !Quote(s[k]) && s[k] != '(' && s[k] != ')' {
      if k < j + |rule| {
        assert s[k] == s[j..j + |rule|][k - j] == rule[k - j];
      }
    }
    ClosePlain(s, j, open, e);
  }

  lemma {:induction false} ClosePlain(s: string, i: nat, to: nat, e: nat)
    requires i <= to < |s| && forall k :: i <= k < to ==> !Quote(s[k]) && s[k] != '(' && s[k] != ')'
    ensures CloseOf(s, i, e) == CloseOf(s, to, e)
    decreases |s| - i
  {
    if i < to {
      ClosePlain(s, i + 1, to, e);
    }
  }

  ghost predicate Unclosed(s: string, start: nat) {
    forall close :: !Closes(s, start, 1, close)
  }

  /** A call outside of literals whose parenthesis is never closed. */
  ghost predicate OpenCall(s: string, rule: string, i: nat, j: nat) {
    i <= j < |s| && Reaches(s, i, j) && !Quote(s[j]) && Calls(s, j, rule) && Unclosed(s, SkipSpace(s, j + |rule|) + 1)
  }

  lemma OpenLater(s: string, rule: string, i: nat, from: nat, j: nat)
    requires i <= from && Reaches(s, i, from) && OpenCall(s, rule, from, j)
    ensures OpenCall(s, rule, i, j)
  {
    hide Reaches, Calls, Unclosed, SkipSpace;
    ReachesTwice(s, i, from, j);
  }

  lemma CloseNone(s: string, start: nat)
    requires CloseOf(s, start, 1).None?
    ensures Unclosed(s, start)
  {
    hide CloseOf;
    forall close | Closes(s, start, 1, close) ensures false {
      CloseBalances(s, start, 1, close);
    }
  }

  lemma NextReached(s: string, i: nat)
    requires i < |s|
    ensures Reaches(s, i, Next(s, i)) && Reaches(s, i, i)
  {
    assert Reaches(s, Next(s, i), Next(s, i));
  }

  /** It fails only for a call whose parenthesis is never closed. */
  lemma {:induction false} ExtractFails(s: string, rule: string, i: nat) returns (j: nat)
    requires Word(rule) && Extract(s, rule, i).None?
    ensures OpenCall(s, rule, i, j)
    decreases |s| - i
  {
    hide Reaches, Calls, Closes, SkipSpace, CloseOf, Quote, Unclosed, Word;
    NextReached(s, i);
    if !Quote(s[i]) && Calls(s, i, rule) {
      var start := SkipSpace(s, i + |rule|) + 1;
      if CloseOf(s, start, 1).Some? {
        var close := CloseOf(s, start, 1).value;
        TargetFound(s, rule, i, start, close);
        j := ExtractFails(s, rule, close + 1);
        OpenLater(s, rule, i, close + 1, j);
      } else {
        CloseNone(s, start);
        j := i;
      }
    } else {
      j := ExtractFails(s, rule, Next(s, i));
      OpenLater(s, rule, i, Next(s, i), j);
    }
  }

  /** It succeeds exactly when every call outside of literals is closed. */
  lemma ExtractSucceeds(s: string, rule: string, i: nat)
    requires Word(rule)
    ensures Extract(s, rule, i).Some? <==> forall j :: !OpenCall(s, rule, i, j)
  {
    hide *;
    if Extract(s, rule, i).None? {
      var j := ExtractFails(s, rule, i);
    } else {
      forall j | OpenCall(s, rule, i, j) ensures false {
        NoneOpen(s, rule, i, j);
      }
    }
  }

  lemma NoneOpen(s: string, rule: string, i: nat, j: nat)
    requires Word(rule) && Extract(s, rule, i).Some?
    ensures !OpenCall(s, rule, i, j)
  {
    hide Reaches, Calls, SkipSpace, CloseOf, Word, Closes, Extract, Unclosed;
    if OpenCall(s, rule, i, j) {
      ExtractMissesNone(s, rule, i, j);
      ExtractFinds(s, rule, i);
      var t :| t in Extract(s, rule, i).value && (t.at == j || t.start <= j <= t.close);
      FoundCloses(s, rule, i, t);
      if t.start <= j <= t.close {
        CallReaches(s, t.at, rule);
        ReachesTwice(s, i, t.at, t.start);
        ReachesLinear(s, i, t.start, j);
        InnerCloses(s, t.start, j, rule);
      }
      var start := SkipSpace(s, j + |rule|) + 1;
      assert CloseOf(s, start, 1).Some?;
      ClosedIsNotOpen(s, start);
    }
  }

  lemma FoundCloses(s: string, rule: string, i: nat, t: Target)
    requires Found(s, rule, i, t)
    ensures Reaches(s, i, t.at) && Calls(s, t.at, rule) && t.start == SkipSpace(s, t.at + |rule|) + 1
    ensures CloseOf(s, t.start, 1) == Some(t.close)
  {
    CloseBalances(s, t.start, 1, t.close);
  }

  lemma ClosedIsNotOpen(s: string, start: nat)
    requires CloseOf(s, start, 1).Some?
    ensures !Unclosed(s, start)
  {
    CloseBalances(s, start, 1, CloseOf(s, start, 1).value);
  }

  /** In source without comments the tokens are those of the stripper. */
  lemma {:induction false} BareReaches(s: string, from: nat, i: nat)
    requires from <= i <= |s| && Bare(s[from..])
    ensures Boundary(s[from..], i - from) <==> Reaches(s, from, i)
    decreases |s| - from
  {
    hide BodyLength, LiteralLength, LineLength, Bare;
    if from < i {
      var rest := s[from..];
      BareParts(rest);
      var n := TokenLength(rest);
      assert rest[n..] == s[from + n..];
      assert Next(s, from) == from + n;
      if from + n <= i {
        BareReaches(s, from + n, i);
      } else if Reaches(s, from + n, i) {
        ReachesForward(s, from + n, i);
      }
    }
  }

  /** What is cut out of stripped source is code: neither in a literal nor in a
      comment. */
  lemma ActiveTargets(src: string, rule: string, t: Target)
    requires Word(rule) && Extract(Strip(src), rule, 0).Some? && t in Extract(Strip(src), rule, 0).value
    ensures Boundary(Strip(src), t.at) && Calls(Strip(src), t.at, rule) && Closes(Strip(src), t.start, 1, t.close)
  {
    hide Reaches, Calls, Closes, Boundary, Strip, Bare;
    var s := Strip(src);
    ExtractFinds(s, rule, 0);
    assert Found(s, rule, 0, t);
    StripIsBare(src);
    assert s[0..] == s;
    BareReaches(s, 0, t.at);
  }

  // ------------------------------------------------------------- the extractor

  /** Positions past the end are all the same. */
  function Clip(s: string, i: nat): nat {
    if i <= |s| then i else |s|
  }

  /** A backslash may carry the position one past the end. */
  method SkipBody(src: string, start: nat, q: char, long: bool) returns (i: nat)
    requires start <= |src|
    ensures i <= |src| + 1 && Clip(src, i) == start + BodyLength(src[start..], q, long)
  {
    hide BodyLength;
    i := start;
    while i < |src|
      invariant start <= i <= |src| + 1
      invariant Clip(src, i) + BodyLength(src[Clip(src, i)..], q, long) == start + BodyLength(src[start..], q, long)
    {
      BodyStep(src, i, q, long);
      if src[i] == '\\' {
        BodyCases(src[|src|..], q, long);
        i := i + 2;
        continue;
      }
      if long && src[i] == q && i + 2 < |src| && src[i + 1] == q && src[i + 2] == q {
        i := i + 3;
        return;
      }
      if !long && src[i] == q {
        i := i + 1;
        return;
      }
      i := i + 1;
    }
    BodyCases(src[|src|..], q, long);
  }

  method SkipLiteral(src: string, i: nat) returns (next: nat)
    requires i < |src| && Quote(src[i])
    ensures i < next <= |src| + 1 && Clip(src, next) == Next(src, i)
  {
    var b := src[i];
    var long := i + 2 < |src| && src[i + 1] == b && src[i + 2] == b;
    next := SkipBody(src, if long then i + 3 else i + 1, b, long);
    LiteralToken(src, i, long, Clip(src, next));
  }

  /** The position of the parenthesis that closes the call. */
  method FindClose(src: string, start: nat) returns (close: Option<nat>)
    requires start <= |src|
    ensures close == CloseOf(src, start, 1)
  {
    var pos, depth := start, 1;
    while pos < |src| && depth > 0
      invariant start <= pos <= |src| + 1 && depth >= 1
      invariant CloseOf(src, Clip(src, pos), depth) == CloseOf(src, start, 1)
      decreases |src| + 1 - pos
    {
      var c := src[pos];
      if Quote(c) {
        pos := SkipLiteral(src, pos);
        continue;
      }
      if c == '(' {
        depth := depth + 1;
      } else if c == ')' {
        depth := depth - 1;
      }
      if depth == 0 {
        return Some(pos);
      }
      pos := pos + 1;
    }
    close := None;
  }

  lemma ExtractEnds(s: string, rule: string)
    ensures Extract(s, rule, |s|) == Some([])
  {
  }

  lemma CallsMeans(s: string, i: nat, rule: string)
    requires i < |s|
    ensures var open := SkipSpace(s, i + |rule|);
      Calls(s, i, rule) <==> StartsAt(s, i, rule) && !(i > 0 && Ident(s[i - 1])) && open < |s| && s[open] == '('
  {
  }

  lemma WithinBounds(s: string, i: nat, rule: string)
    ensures StartsAt(s, i, rule) ==> i + |rule| <= |s|
  {
  }

  method SkipSpaces(src: string, start: nat) returns (pos: nat)
    requires start <= |src|
    ensures pos == SkipSpace(src, start)
  {
    pos := start;
    while pos < |src| && Space(src[pos])
      invariant start <= pos <= |src| && SkipSpace(src, pos) == SkipSpace(src, start)
    {
      pos := pos + 1;
    }
  }

  /** `extractActiveTargets`: where the calls and their bodies are. */
  method ExtractTargets(src: string, rule: string) returns (targets: Option<seq<Target>>)
    ensures targets == Extract(src, rule, 0)
  {
    hide Extract, Calls, SkipSpace, CloseOf, Ident, Next, StartsAt;
    var found: seq<Target> := [];
    var i := 0;
    assert Extract(src, rule, 0).Some? ==> found + Extract(src, rule, 0).value == Extract(src, rule, 0).value;
    while i < |src|
      invariant 0 <= i <= |src| + 1
      invariant Extract(src, rule, 0).None? <==> Extract(src, rule, Clip(src, i)).None?
      invariant Extract(src, rule, 0).Some? ==>
        Extract(src, rule, 0).value == found + Extract(src, rule, Clip(src, i)).value
      decreases |src| + 1 - i
    {
      ExtractStep(src, rule, i);
      if Quote(src[i]) {
        i := SkipLiteral(src, i);
        continue;
      }
      CallsMeans(src, i, rule);
      WithinBounds(src, i, rule);
      if StartsAt(src, i, rule) {
        if i > 0 && Ident(src[i - 1]) {
          i := i + 1;
          continue;
        }
        var pos := SkipSpaces(src, i + |rule|);
        if pos < |src| && src[pos] == '(' {
          var close := FindClose(src, pos + 1);
          if close.None? {
            return None;
          }
          found := found + [Target(i, pos + 1, close.value)];
          i := close.value + 1;
          continue;
        }
      }
      i := i + 1;
    }
    ExtractEnds(src, rule);
    assert found + [] == found;
    targets := Some(found);
  }
}
