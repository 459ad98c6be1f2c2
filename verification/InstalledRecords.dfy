/** The RECORD files of a private installation (PEP 376, section "RECORD"): where
    their entries resolve, and how the entries of all distributions are merged
    into one table of destinations. */
module InstalledRecords {
  import opened Wrappers
  import opened Text
  import opened Records
  import opened FileSystem
  import opened Ownership

  // ----------------------------------------------------------------- resolving

  datatype Resolved = Resolved(scheme: string, relative: string, source: Path)

  /** Leading ".." pieces. */
  function Parents(parts: seq<string>): (n: nat)
    ensures n <= |parts| && forall i :: 0 <= i < n ==> parts[i] == ".."
    ensures n < |parts| ==> parts[n] != ".."
  {
    if |parts| > 0 && parts[0] == ".." then 1 + Parents(parts[1..]) else 0
  }

  predicate SafeValue(value: string) {
    && value != "" && value[0] != '/'
    && (forall i :: 0 <= i < |value| ==> value[i] != '\0' && value[i] != '\\')
    && (|value| >= 2 ==> value[1] != ':')
  }

  /** The private installation: `site`, and `bin`, `share` and `include` beside it. */
  function OutputRoot(base: Path, scheme: string): Option<Path> {
    if scheme == "site" then Some(base + ["site"])
    else if scheme == "scripts" then Some(base + ["bin"])
    else if scheme == "data" then Some(base + ["share"])
    else if scheme == "headers" then Some(base + ["include"])
    else None
  }

  function SchemeOf(directory: string): Option<string> {
    if directory == "bin" then Some("scripts")
    else if directory == "share" then Some("data")
    else if directory == "include" then Some("headers")
    else None
  }

  function Relative(root: Path, scheme: string, candidate: Path): Option<Resolved> {
    if Within(root, candidate) then Some(Resolved(scheme, Join(candidate[|root|..]), candidate)) else None
  }

  /** `resolveInstalledRecordPath`. */
  function ResolveRecord(base: Path, info: string, value: string): Option<Resolved> {
    var site := base + ["site"];
    var parts := Split(value);
    var parents := Parents(parts);
    if !SafeValue(value) || (exists part :: part in parts && (part == "" || part == ".")) ||
      (exists part :: part in parts[parents..] && part == "..") then None
    else if parents == 0 then Relative(site, "site", Resolve(site, parts))
    else if parents == 1 then
      if |parts| == 1 then None else Relative(site, "site", Resolve(site + [info], parts))
    else if parents == 2 then
      if |parts| < 3 || SchemeOf(parts[2]).None? then None
      else Relative(Up(site) + [parts[2]], SchemeOf(parts[2]).value, Resolve(site + [info], parts))
    else None
  }

  /** The pieces below the root that an accepted value names. */
  function Tail(parts: seq<string>): seq<string> {
    var parents := Parents(parts);
    if parents == 2 && |parts| > 2 then parts[3..] else parts[parents..]
  }

  lemma UpOf(base: Path, name: string)
    ensures Up(base + [name]) == base
  {
    assert (base + [name])[..|base|] == base;
  }

  lemma {:induction false} PlainPieces(parts: seq<string>, from: nat)
    requires from <= |parts| && from >= Parents(parts)
    requires forall part :: part in parts ==> part != "" && part != "."
    requires forall part :: part in parts[Parents(parts)..] ==> part != ".."
    ensures Plain(parts[from..])
  {
    var rest := parts[Parents(parts)..];
    forall i | 0 <= i < |parts[from..]|
      ensures parts[from..][i] != "" && parts[from..][i] != "." && parts[from..][i] != ".." {
      assert parts[from..][i] == parts[from + i] == rest[from + i - Parents(parts)];
      assert parts[from + i] in parts && rest[from + i - Parents(parts)] in rest;
    }
  }

  /** Where the pieces lead: climbing one or two directories from the dist-info
      directory and going down again. */
  lemma Climb(base: Path, info: string, parts: seq<string>)
    requires forall part :: part in parts ==> part != "" && part != "."
    requires forall part :: part in parts[Parents(parts)..] ==> part != ".."
    ensures Parents(parts) == 0 ==> Resolve(base + ["site"], parts) == base + ["site"] + parts && Plain(parts)
    ensures Parents(parts) == 1 ==>
      Resolve(base + ["site"] + [info], parts) == base + ["site"] + parts[1..] && Plain(parts[1..])
    ensures Parents(parts) == 2 ==> Resolve(base + ["site"] + [info], parts) == base + parts[2..] && Plain(parts[2..])
  {
    var site := base + ["site"];
    PlainPieces(parts, Parents(parts));
    if Parents(parts) == 0 {
      assert parts[0..] == parts;
      ResolvePlain(site, parts);
    } else if Parents(parts) == 1 {
      UpOf(site, info);
      ResolvePlain(site, parts[1..]);
      assert parts == [".."] + parts[1..];
      ResolveUp(site, info, parts[1..]);
    } else if Parents(parts) == 2 {
      UpOf(base, "site");
      ResolvePlain(base, parts[2..]);
      assert parts == [".."] + ([".."] + parts[2..]);
      ResolveUp(site, info, [".."] + parts[2..]);
      ResolveUp(base, "site", parts[2..]);
    }
  }

  lemma Below(root: Path, tail: seq<string>, scheme: string)
    requires Plain(tail) && forall part :: part in tail ==> '/' !in part
    ensures var r := Relative(root, scheme, root + tail);
      (r.Some? <==> |tail| > 0) &&
        (r.Some? ==> r.value == Resolved(scheme, Join(tail), root + tail) && Split(Join(tail)) == tail)
  {
    assert (root + tail)[|root|..] == tail && (root + tail)[..|root|] == root;
    if |tail| > 0 {
      SplitJoin(tail);
    }
  }

  predicate Admitted(value: string) {
    var parts := Split(value);
    var parents := Parents(parts);
    && SafeValue(value) && (forall part :: part in parts ==> part != "" && part != ".")
    && (forall part :: part in parts[parents..] ==> part != "..")
    && (parents == 0 || (parents == 1 && |parts| >= 2) || (parents == 2 && |parts| >= 4 && SchemeOf(parts[2]).Some?))
  }

  function SchemeOfValue(value: string): string {
    var parts := Split(value);
    if Parents(parts) == 2 && |parts| > 2 && SchemeOf(parts[2]).Some? then SchemeOf(parts[2]).value else "site"
  }

  /** The candidate that a value with plain pieces after the climb leads to. */
  function Candidate(base: Path, value: string): Option<Resolved> {
    var parts := Split(value);
    var tail := Tail(parts);
    if !Admitted(value) then None
    else Some(Resolved(SchemeOfValue(value), Join(tail), OutputRoot(base, SchemeOfValue(value)).value + tail))
  }

  lemma PlainTail(parts: seq<string>)
    requires forall part :: part in parts ==> part != "" && part != "." && '/' !in part
    requires forall part :: part in parts[Parents(parts)..] ==> part != ".."
    ensures Plain(Tail(parts)) && forall part :: part in Tail(parts) ==> '/' !in part
  {
    var tail := Tail(parts);
    PlainPieces(parts, |parts| - |tail|);
    assert parts[|parts| - |tail|..] == tail;
    assert forall part :: part in tail ==> part in parts;
  }

  lemma ResolvedInSite(base: Path, info: string, value: string)
    requires Parents(Split(value)) <= 1
    ensures ResolveRecord(base, info, value) == Candidate(base, value)
  {
    hide Resolve, Relative, Plain, SafeValue, Split, Join, Parents;
    var parts := Split(value);
    var site := base + ["site"];
    if (forall part :: part in parts ==> part != "" && part != ".") &&
      (forall part :: part in parts[Parents(parts)..] ==> part != "..") {
      Climb(base, info, parts);
      PlainTail(parts);
      assert parts[0..] == parts;
      Below(site, Tail(parts), "site");
    }
  }

  lemma ResolvedBeside(base: Path, info: string, value: string)
    requires Parents(Split(value)) > 1
    ensures ResolveRecord(base, info, value) == Candidate(base, value)
  {
    hide Resolve, Relative, Plain, SafeValue, Split, Join, Parents;
    var parts := Split(value);
    if Parents(parts) == 2 && |parts| > 2 && SchemeOf(parts[2]).Some?
      && (forall part :: part in parts ==> part != "" && part != ".")
      && (forall part :: part in parts[Parents(parts)..] ==> part != "..") {
      Climb(base, info, parts);
      PlainTail(parts);
      UpOf(base, "site");
      assert base + parts[2..] == base + [parts[2]] + parts[3..];
      Below(base + [parts[2]], Tail(parts), SchemeOf(parts[2]).value);
    }
  }

  /** Which entries are accepted, and what they resolve to: the pieces after the
      scheme's directory, below that directory. */
  lemma ResolvedParts(base: Path, info: string, value: string)
    ensures ResolveRecord(base, info, value).Some? <==> Admitted(value)
    ensures ResolveRecord(base, info, value).Some? ==>
      var r, tail := ResolveRecord(base, info, value).value, Tail(Split(value));
      && r.scheme == SchemeOfValue(value) && OutputRoot(base, r.scheme).Some?
      && r.source == OutputRoot(base, r.scheme).value + tail
      && |tail| > 0 && Plain(tail) && r.relative == Join(tail) && Split(r.relative) == tail
  {
    if Parents(Split(value)) <= 1 {
      ResolvedInSite(base, info, value);
    } else {
      ResolvedBeside(base, info, value);
    }
    if Admitted(value) {
      PlainTail(Split(value));
      SplitJoin(Tail(Split(value)));
    }
  }

  // ------------------------------------------------- the text and where it leads

  /** Pieces that neither stay nor climb, in characters that are safe. */
  ghost predicate Clear(tail: seq<string>) {
    && |tail| > 0 && forall piece :: piece in tail ==>
        && piece != "" && piece != "." && piece != ".."
        && '/' !in piece && '\\' !in piece && '\0' !in piece
  }

  /** The text of a line, and where in the private installation it leads: below
      `site`, from there or from the metadata directory, or below one of the three
      directories beside `site`. */
  ghost predicate Leads(value: string, directory: string, tail: seq<string>) {
    && Clear(tail) && (|value| >= 2 ==> value[1] != ':')
    && (|| (directory == "site" && (value == Join(tail) || value == "../" + Join(tail)))
        || (directory in {"bin", "share", "include"} && value == "../../" + directory + "/" + Join(tail)))
  }

  lemma {:induction false} JoinChars(parts: seq<string>)
    requires |parts| > 0
    ensures forall c :: c in Join(parts) ==> c == '/' || exists piece :: piece in parts && c in piece
    ensures forall piece, c :: piece in parts && c in piece ==> c in Join(parts)
  {
    if |parts| > 1 {
      JoinChars(parts[1..]);
      assert parts == [parts[0]] + parts[1..];
      assert Join(parts) == parts[0] + "/" + Join(parts[1..]);
    } else {
      assert parts == [parts[0]];
    }
  }

  /** The pieces of the line: two, one or no parents, then the directory beside
      `site` if there is one, then the rest. */
  function Climbing(parents: nat, directory: string, tail: seq<string>): seq<string> {
    if parents == 0 then tail
    else if parents == 1 then [".."] + tail
    else [".."] + ([".."] + ([directory] + tail))
  }

  lemma BesideText(directory: string, rest: string)
    ensures "../../" + directory + "/" + rest == ".." + "/" + (".." + "/" + (directory + "/" + rest))
    ensures "../" + rest == ".." + "/" + rest
  {
    assert ".." + "/" == "../";
    assert "../../" == "../" + "../";
    Regroup("../", "../", directory + "/" + rest);
    Regroup("../../", directory, "/");
    Regroup("../../", directory + "/", rest);
  }

  lemma Regroup(a: string, b: string, c: string)
    ensures a + b + c == a + (b + c)
  {
  }

  lemma ClimbingText(directory: string, tail: seq<string>)
    requires |tail| > 0
    ensures Join(Climbing(0, directory, tail)) == Join(tail)
    ensures Join(Climbing(1, directory, tail)) == "../" + Join(tail)
    ensures Join(Climbing(2, directory, tail)) == "../../" + directory + "/" + Join(tail)
  {
    hide Join;
    JoinFirst("..", tail);
    JoinFirst(directory, tail);
    JoinFirst("..", [directory] + tail);
    JoinFirst("..", [".."] + ([directory] + tail));
    BesideText(directory, Join(tail));
  }

  lemma JoinFirst(first: string, rest: seq<string>)
    requires |rest| > 0
    ensures Join([first] + rest) == first + "/" + Join(rest)
  {
    assert ([first] + rest)[1..] == rest;
  }

  lemma ParentsFirst(first: string, rest: seq<string>)
    ensures Parents([first] + rest) == if first == ".." then 1 + Parents(rest) else 0
  {
    assert ([first] + rest)[1..] == rest;
  }

  /** What is left of the pieces once the climb is over. */
  lemma ClimbingPieces(parents: nat, directory: string, tail: seq<string>)
    requires |tail| > 0 && tail[0] != ".." && parents <= 2 && directory != ".."
    ensures var parts := Climbing(parents, directory, tail);
      && Parents(parts) == parents && Tail(parts) == tail && (parents == 2 ==> parts[2] == directory)
      && |parts| == parents + |tail| + (if parents == 2 then 1 else 0)
  {
    hide Parents;
    var parts := Climbing(parents, directory, tail);
    assert tail == [tail[0]] + tail[1..];
    ParentsFirst(tail[0], tail[1..]);
    ParentsFirst("..", tail);
    ParentsFirst(directory, tail);
    ParentsFirst("..", [directory] + tail);
    ParentsFirst("..", [".."] + ([directory] + tail));
    assert parents == 0 ==> parts[0..] == tail;
    assert parents == 1 ==> parts[1..] == tail;
    assert parents == 2 ==> parts[3..] == tail;
  }

  /** No piece stays, and after the climb none climbs. */
  lemma ClimbingClear(parents: nat, directory: string, tail: seq<string>)
    requires Clear(tail) && parents <= 2 && directory in {"bin", "share", "include"}
    ensures forall part :: part in Climbing(parents, directory, tail) ==>
      part != "" && part != "." && '/' !in part && '\\' !in part && '\0' !in part
    ensures parents <= |Climbing(parents, directory, tail)|
    ensures forall part :: part in Climbing(parents, directory, tail)[parents..] ==> part != ".."
  {
    var parts := Climbing(parents, directory, tail);
    assert parents == 0 ==> parts[0..] == tail;
    assert parents == 1 ==> parts[1..] == tail;
    assert parents == 2 ==> parts[2..] == [directory] + tail;
    assert forall part :: part in parts ==> part in tail || part == ".." || part == directory;
  }

  /** Every text that leads somewhere is accepted, and leads there. */
  lemma LeadsResolved(base: Path, info: string, value: string, directory: string, tail: seq<string>)
    requires Leads(value, directory, tail)
    ensures ResolveRecord(base, info, value) == Some(Resolved(
      if directory == "bin" then "scripts" else if directory == "share" then "data"
        else if directory == "include" then "headers" else "site", Join(tail), base + [directory] + tail))
  {
    hide ResolveRecord, Parents, Tail, Split, Join;
    var parents := if directory != "site" then 2 else if value == Join(tail) then 0 else 1;
    var beside := if directory == "site" then "bin" else directory;
    var parts := Climbing(parents, beside, tail);
    ClimbingText(beside, tail);
    assert tail[0] in tail;
    ClimbingPieces(parents, beside, tail);
    ClimbingClear(parents, beside, tail);
    SplitJoin(parts);
    assert value == Join(parts) && Split(value) == parts;
    SafeText(parts);
    ResolvedParts(base, info, value);
  }

  lemma SafeText(parts: seq<string>)
    requires |parts| > 0
    requires forall part :: part in parts ==> part != "" && '/' !in part && '\\' !in part && '\0' !in part
    ensures var value := Join(parts); SafeValue(value) <==> (|value| >= 2 ==> value[1] != ':')
  {
    assert parts[0] in parts;
    JoinChars(parts);
    JoinHead(parts);
    var value := Join(parts);
    assert parts[0][0] in parts[0] && value[0] == parts[0][0];
    assert forall i :: 0 <= i < |value| ==> value[i] in value;
  }

  /** Every accepted text leads somewhere. */
  lemma ResolvedLeads(base: Path, info: string, value: string)
    requires ResolveRecord(base, info, value).Some?
    ensures exists directory, tail :: Leads(value, directory, tail)
  {
    hide ResolveRecord, Parents, Split, Join;
    ResolvedParts(base, info, value);
    var parts := Split(value);
    var tail := Tail(parts);
    JoinSplit(value);
    JoinChars(parts);
    assert forall i :: 0 <= i < |value| ==> value[i] in value ==> value[i] != '\\' && value[i] != '\0';
    assert forall part :: part in tail ==> part in parts;
    assert Clear(tail) by { PlainExactly(tail); }
    var parents := Parents(parts);
    var beside := if parents == 2 then parts[2] else "bin";
    assert parts == Climbing(parents, beside, tail);
    ClimbingText(beside, tail);
    assert Leads(value, if parents == 2 then beside else "site", tail);
  }

  /** The text leads to one place. */
  lemma LeadsOnce(value: string, directory: string, tail: seq<string>, directory2: string, tail2: seq<string>)
    requires Leads(value, directory, tail) && Leads(value, directory2, tail2)
    ensures directory == directory2 && tail == tail2
  {
    LeadsResolved([], "", value, directory, tail);
    LeadsResolved([], "", value, directory2, tail2);
    assert ([] + [directory] + tail)[1..] == tail && ([] + [directory2] + tail2)[1..] == tail2;
  }

  /** Where the environment has the file: in the directory of its scheme, unless
      its text holds a colon. */
  lemma LeadsFinal(root: Path, d: Owned, tail: seq<string>)
    requires Clear(tail) && d.relative == Join(tail)
    ensures Final(root, d) ==
      if ':' in Join(tail) then None
      else if d.scheme == "site" then Some(root + ["lib", "python3.14", "site-packages"] + tail)
      else if d.scheme == "scripts" then Some(root + ["bin"] + tail)
      else if d.scheme == "data" then Some(root + ["share"] + tail)
      else if d.scheme == "headers" then Some(root + ["include"] + tail)
      else None
  {
    hide Split, Join, Final;
    SplitJoin(tail);
    JoinChars(tail);
    SchemeDirectory(root, d.scheme);
    assert tail[0] in tail;
    FinalExactly(root, d, 0);
    assert tail[0..] == tail;
    if SchemeRoot(root, d.scheme).Some? {
      var base := SchemeRoot(root, d.scheme).value;
      assert base[..|base| - 0] == base && (base + tail)[..|base|] == base;
    }
  }

  /** An accepted entry lies below exactly one of the four directories. */
  lemma RecordInOneRoot(base: Path, info: string, value: string, scheme: string)
    requires ResolveRecord(base, info, value).Some? && OutputRoot(base, scheme).Some?
    ensures Within(OutputRoot(base, scheme).value, ResolveRecord(base, info, value).value.source) <==>
      scheme == ResolveRecord(base, info, value).value.scheme
  {
    hide ResolveRecord, Tail;
    ResolvedParts(base, info, value);
    var r := ResolveRecord(base, info, value).value;
    RootsApart(base, r.scheme, scheme, Tail(Split(value)));
  }

  lemma RootsApart(base: Path, s: string, t: string, tail: seq<string>)
    requires OutputRoot(base, s).Some? && OutputRoot(base, t).Some? && |tail| > 0
    ensures Within(OutputRoot(base, t).value, OutputRoot(base, s).value + tail) <==> s == t
  {
    var a, b := OutputRoot(base, s).value, OutputRoot(base, t).value;
    var p := a + tail;
    assert |a| == |b| == |base| + 1 && p[..|a|] == a;
    assert p[|base|] == a[|base|];
  }

  /** Two entries, of whatever distributions, name the same file exactly when
      their scheme and relative path agree. */
  lemma SameSource(base: Path, info: string, value: string, other: string, value2: string)
    requires ResolveRecord(base, info, value).Some? && ResolveRecord(base, other, value2).Some?
    ensures var r, s := ResolveRecord(base, info, value).value, ResolveRecord(base, other, value2).value;
      r.source == s.source <==> r.scheme == s.scheme && r.relative == s.relative
  {
    ResolvedParts(base, info, value);
    ResolvedParts(base, other, value2);
    var r, s := ResolveRecord(base, info, value).value, ResolveRecord(base, other, value2).value;
    RecordInOneRoot(base, info, value, s.scheme);
    RecordInOneRoot(base, other, value2, s.scheme);
    if r.source == s.source {
      var a := OutputRoot(base, r.scheme).value;
      assert r.source[|a|..] == Split(r.relative) && s.source[|a|..] == Split(s.relative);
      SplitInjective(r.relative, s.relative);
    }
  }

  /** An accepted entry binds into the virtual environment unless its relative
      path holds a colon, and then it keeps its relative path. */
  lemma RecordBinds(root: Path, base: Path, info: string, value: string, d: Owned)
    requires ResolveRecord(base, info, value).Some?
    requires d.scheme == ResolveRecord(base, info, value).value.scheme
    requires d.relative == ResolveRecord(base, info, value).value.relative
    ensures Final(root, d).Some? <==> Portable(d.relative)
    ensures Final(root, d).Some? ==> Final(root, d).value == SchemeRoot(root, d.scheme).value + Tail(Split(value))
  {
    ResolvedParts(base, info, value);
    var tail, scheme := Tail(Split(value)), SchemeRoot(root, d.scheme).value;
    ResolvePlain(scheme, tail);
    assert (scheme + tail)[..|scheme|] == scheme;
    assert d.relative != "" && d.relative[0] != '/' by {
      assert tail[0] != "" && '/' !in tail[0];
      JoinHead(tail);
    }
  }

  lemma JoinHead(parts: seq<string>)
    requires |parts| > 0 && parts[0] != ""
    ensures |Join(parts)| >= |parts[0]| && Join(parts)[0] == parts[0][0]
  {
  }

  /** Relocation is injective: two bound entries share a final path exactly when
      they share their private file. */
  lemma RecordBindsApart(root: Path, base: Path, info: string, value: string, d: Owned, other: string, value2: string,
      e: Owned)
    requires ResolveRecord(base, info, value).Some? && ResolveRecord(base, other, value2).Some?
    requires d.scheme == ResolveRecord(base, info, value).value.scheme
    requires d.relative == ResolveRecord(base, info, value).value.relative
    requires e.scheme == ResolveRecord(base, other, value2).value.scheme
    requires e.relative == ResolveRecord(base, other, value2).value.relative
    requires Final(root, d).Some? && Final(root, e).Some?
    ensures Final(root, d) == Final(root, e) <==>
      ResolveRecord(base, info, value).value.source == ResolveRecord(base, other, value2).value.source
  {
    ResolvedParts(base, info, value);
    ResolvedParts(base, other, value2);
    PlainBindingInjective(root, d, e);
    SameSource(base, info, value, other, value2);
  }
}
