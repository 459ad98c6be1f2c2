/** Who owns which file of a virtual environment: destinations, their binding
    to final paths, the ownership table, and how one update changes it. */
module Ownership {
  import opened Wrappers
  import opened Text
  import opened Records
  import opened FileSystem

  /** A file to install: its record, where the private output is, and a final
      path when one has been bound already. */
  datatype Destination = Destination(owned: Owned, source: Path, bound: Option<Path>)

  function Owners(d: Owned): (owners: seq<Owner>)
    ensures |owners| > 0
  {
    if |d.shared| != 0 then d.shared else [Owner(d.distribution, d.version, d.artifact)]
  }

  ghost predicate HasOwner(d: Owned, o: Owner) {
    if d.shared == [] then o == Owner(d.distribution, d.version, d.artifact) else o in d.shared
  }

  lemma OwnersExactly(d: Owned, o: Owner)
    ensures HasOwner(d, o) <==> o in Owners(d)
  {
  }

  function Key(d: Owned): string {
    d.scheme + "/" + d.relative
  }

  predicate ValidOwners(d: Owned) {
    && d.distribution != "" && d.version != ""
    && |d.shared| != 1 && |d.shared| <= 64 && (|d.shared| != 0 ==> d.scheme == "site")
    && Owners(d)[0] == Owner(d.distribution, d.version, d.artifact)
    && (forall i :: 0 <= i < |Owners(d)| ==>
          && Owners(d)[i].distribution != "" && Owners(d)[i].version != ""
          && (|d.shared| != 0 ==> Owners(d)[i].artifact != ""))
    && (forall i :: 0 < i < |Owners(d)| ==> Less(Owners(d)[i - 1].distribution, Owners(d)[i].distribution))
  }

  /** One owner with a name and a version; or from 2 to 64 of them, for a file of
      `site`, complete and in the order of their names, the first in front. */
  lemma ValidOwnersExactly(d: Owned)
    ensures ValidOwners(d) <==>
      && d.distribution != "" && d.version != ""
      && (d.shared == [] ||
          (&& d.scheme == "site" && 2 <= |d.shared| <= 64
           && d.shared[0] == Owner(d.distribution, d.version, d.artifact)
           && (forall o :: o in d.shared ==> o.distribution != "" && o.version != "" && o.artifact != "")
           && forall i, j :: 0 <= i < j < |d.shared| ==> Less(d.shared[i].distribution, d.shared[j].distribution)))
  {
    if ValidOwners(d) && d.shared != [] {
      forall i, j | 0 <= i < j < |d.shared| ensures Less(d.shared[i].distribution, d.shared[j].distribution) {
        Consecutive(d.shared, i, j);
      }
    }
    assert forall i :: 0 <= i < |d.shared| ==> d.shared[i] in d.shared;
  }

  lemma {:induction false} Consecutive(owners: seq<Owner>, i: nat, j: nat)
    requires i < j < |owners|
    requires forall k :: 0 < k < |owners| ==> Less(owners[k - 1].distribution, owners[k].distribution)
    ensures Less(owners[i].distribution, owners[j].distribution)
  {
    if i < j - 1 {
      Consecutive(owners, i, j - 1);
      LessTransitive(owners[i].distribution, owners[j - 1].distribution, owners[j].distribution);
    }
  }

  // ---------------------------------------------------------------- binding

  function SchemeRoot(root: Path, scheme: string): Option<Path> {
    if scheme == "site" then Some(root + ["lib", "python3.14", "site-packages"])
    else if scheme == "scripts" then Some(root + ["bin"])
    else if scheme == "data" then Some(root + ["share"])
    else if scheme == "headers" then Some(root + ["include"])
    else None
  }

  /** `filepath.Join` of an absolute path and the pieces of a relative one. */
  function Resolve(base: Path, parts: seq<string>): Path
    decreases |parts|
  {
    if |parts| == 0 then base
    else if parts[0] == "" || parts[0] == "." then Resolve(base, parts[1..])
    else if parts[0] == ".." then Resolve(Up(base), parts[1..])
    else Resolve(base + [parts[0]], parts[1..])
  }

  /** `filepath.Clean` leaves the relative path with these pieces alone. */
  predicate CleanRelative(parts: seq<string>) {
    || parts == ["."]
    || forall i :: 0 <= i < |parts| ==>
         && parts[i] != "" && parts[i] != "."
         && (parts[i] == ".." ==> forall j :: 0 <= j < i ==> parts[j] == "..")
  }

  predicate Portable(s: string) {
    forall i :: 0 <= i < |s| ==> s[i] != '\\' && s[i] != '\0' && s[i] != ':'
  }

  /** `bind`: the final path of a (scheme, relative) identity, if it has one. */
  function Final(root: Path, d: Owned): Option<Path> {
    var scheme := SchemeRoot(root, d.scheme);
    if scheme.None? || d.relative == "" || !Portable(d.relative) || d.relative[0] == '/'
       || !CleanRelative(Split(d.relative)) then None
    else
      var final := Resolve(scheme.value, Split(d.relative));
      if Within(scheme.value, final) then Some(final) else None
  }

  function Bind(root: Path, d: Destination): Option<Path> {
    var final := Final(root, d.owned);
    if final.None? || (d.bound.Some? && d.bound != final) then None else final
  }

  predicate Plain(parts: seq<string>) {
    forall i :: 0 <= i < |parts| ==> parts[i] != "" && parts[i] != "." && parts[i] != ".."
  }

  lemma {:induction false} ResolvePlain(base: Path, parts: seq<string>)
    requires Plain(parts)
    ensures Resolve(base, parts) == base + parts
    decreases |parts|
  {
    if |parts| > 0 {
      ResolvePlain(base + [parts[0]], parts[1..]);
      assert base + [parts[0]] + parts[1..] == base + parts;
    } else {
      assert base + parts == base;
    }
  }

  /** A final path lies in the scheme that names it and in no other. */
  lemma FinalInScheme(root: Path, d: Owned, e: Owned)
    requires Final(root, d).Some? && Final(root, e).Some?
    ensures Within(SchemeRoot(root, d.scheme).value, Final(root, d).value)
    ensures Final(root, d) == Final(root, e) ==> d.scheme == e.scheme
  {
    if Final(root, d) == Final(root, e) {
      var f := Final(root, d).value;
      var a, b := SchemeRoot(root, d.scheme).value, SchemeRoot(root, e.scheme).value;
      assert f[..|a|] == a && f[..|b|] == b;
      assert f[|root|] == a[|root|] && f[|root|] == b[|root|];
    }
  }

  /** Without parent pieces the binding keeps the relative path, so two
      identities never share a final path. */
  lemma PlainBindingInjective(root: Path, d: Owned, e: Owned)
    requires Final(root, d).Some? && Final(root, e).Some?
    requires Plain(Split(d.relative)) && Plain(Split(e.relative))
    ensures Final(root, d).value == SchemeRoot(root, d.scheme).value + Split(d.relative)
    ensures Final(root, d) == Final(root, e) <==> d.scheme == e.scheme && d.relative == e.relative
  {
    ResolvePlain(SchemeRoot(root, d.scheme).value, Split(d.relative));
    ResolvePlain(SchemeRoot(root, e.scheme).value, Split(e.relative));
    FinalInScheme(root, d, e);
    if Final(root, d) == Final(root, e) {
      var s := SchemeRoot(root, d.scheme).value;
      assert (s + Split(d.relative))[|s|..] == Split(d.relative);
      assert (s + Split(e.relative))[|s|..] == Split(e.relative);
      SplitInjective(d.relative, e.relative);
    }
  }

  /** The directory of a scheme in the environment. */
  lemma SchemeDirectory(root: Path, scheme: string)
    ensures SchemeRoot(root, "site") == Some(root + ["lib", "python3.14", "site-packages"])
    ensures SchemeRoot(root, "scripts") == Some(root + ["bin"])
    ensures SchemeRoot(root, "data") == Some(root + ["share"])
    ensures SchemeRoot(root, "headers") == Some(root + ["include"])
    ensures SchemeRoot(root, scheme).Some? ==> scheme in {"site", "scripts", "data", "headers"}
  {
  }

  lemma {:induction false} ResolveClimbs(base: Path, parts: seq<string>, n: nat)
    requires n <= |parts| && (forall i :: 0 <= i < n ==> parts[i] == "..") && Plain(parts[n..])
    ensures Resolve(base, parts) == (if n <= |base| then base[..|base| - n] else []) + parts[n..]
  {
    if n > 0 {
      ResolveClimbs(Up(base), parts[1..], n - 1);
      assert parts[1..][n - 1..] == parts[n..];
      if 1 <= n <= |base| {
        assert Up(base)[..|Up(base)| - (n - 1)] == base[..|base| - n];
      }
    } else {
      ResolvePlain(base, parts);
      assert parts[0..] == parts && base[..|base|] == base;
    }
  }

  /** What binds, piece by piece: a known scheme, no backslash, colon or null, and
      some parents before plain pieces that lead back below the scheme. */
  lemma FinalExactly(root: Path, d: Owned, n: nat)
    requires var parts := Split(d.relative);
      n <= |parts| && (forall i :: 0 <= i < n ==> parts[i] == "..") && (n < |parts| ==> parts[n] != "..")
    ensures SchemeRoot(root, d.scheme).None? ==> Final(root, d).None?
    ensures SchemeRoot(root, d.scheme).Some? ==>
      var base, tail := SchemeRoot(root, d.scheme).value, Split(d.relative)[n..];
      var final := (if n <= |base| then base[..|base| - n] else []) + tail;
      Final(root, d) ==
        if (forall c :: c in d.relative ==> c != '\\' && c != '\0' && c != ':')
          && (forall piece :: piece in tail ==> piece != "" && piece != "." && piece != "..")
          && |base| < |final| && final[..|base|] == base then Some(final) else None
  {
    hide SchemeRoot;
    var parts := Split(d.relative);
    var tail := parts[n..];
    PortableExactly(d.relative);
    SplitStart(d.relative);
    if SchemeRoot(root, d.scheme).Some? {
      var base := SchemeRoot(root, d.scheme).value;
      PlainExactly(tail);
      if Plain(tail) {
        ResolveClimbs(base, parts, n);
        assert forall i :: n <= i < |parts| ==> parts[i] == tail[i - n];
        assert CleanRelative(parts);
      } else {
        UncleanTail(root, d, base, parts, n);
      }
    }
  }

  lemma PortableExactly(s: string)
    ensures Portable(s) <==> forall c :: c in s ==> c != '\\' && c != '\0' && c != ':'
  {
    assert forall i :: 0 <= i < |s| ==> s[i] in s;
  }

  lemma PlainExactly(parts: seq<string>)
    ensures Plain(parts) <==> forall piece :: piece in parts ==> piece != "" && piece != "." && piece != ".."
  {
    assert forall i :: 0 <= i < |parts| ==> parts[i] in parts;
  }

  lemma SplitStart(s: string)
    ensures s == "" || s[0] == '/' ==> Split(s)[0] == ""
    ensures Split(s)[0] == "" ==> s == "" || s[0] == '/'
  {
  }

  lemma UncleanTail(root: Path, d: Owned, base: Path, parts: seq<string>, n: nat)
    requires parts == Split(d.relative) && SchemeRoot(root, d.scheme) == Some(base) && n <= |parts|
    requires (n < |parts| ==> parts[n] != "..") && !Plain(parts[n..])
    ensures Final(root, d).None?
  {
    var i :| 0 <= i < |parts[n..]| && (parts[n..][i] == "" || parts[n..][i] == "." || parts[n..][i] == "..");
    assert parts[n..][i] == parts[n + i];
    if parts == ["."] {
      assert parts[1..] == [];
      assert Resolve(base, parts) == Resolve(base, []);
    } else {
      assert !CleanRelative(parts);
    }
  }

  predicate Piece(part: string) {
    part != "" && part != "." && part != ".." && '/' !in part && Portable(part)
  }

  lemma {:induction false} ResolvePieces(base: Path, parts: seq<string>, from: nat)
    requires forall part :: part in parts ==> Portable(part) && '/' !in part
    requires forall i :: from <= i < |base| ==> Piece(base[i])
    ensures forall i :: from <= i < |Resolve(base, parts)| ==> Piece(Resolve(base, parts)[i])
    decreases |parts|
  {
    if |parts| > 0 {
      var next := if parts[0] == "" || parts[0] == "." then base
                  else if parts[0] == ".." then Up(base) else base + [parts[0]];
      assert forall part :: part in parts[1..] ==> part in parts;
      ResolvePieces(next, parts[1..], from);
    }
  }

  lemma {:induction false} SplitPortable(s: string)
    requires Portable(s)
    ensures forall part :: part in Split(s) ==> Portable(part)
  {
    if s != "" {
      SplitPortable(s[1..]);
      var rest := Split(s[1..]);
      assert rest[0] in rest && forall part :: part in rest[1..] ==> part in rest;
      assert forall part :: part in Split(s) ==> part == "" || part == [s[0]] + rest[0] || part in rest;
    }
  }

  lemma {:induction false} JoinPieces(parts: seq<string>)
    requires |parts| > 0 && forall i :: 0 <= i < |parts| ==> Piece(parts[i])
    ensures Portable(Join(parts)) && Join(parts) != "" && Join(parts)[0] != '/'
  {
    if |parts| > 1 {
      JoinPieces(parts[1..]);
    }
  }

  /** The identity a final path has when it is written without parent pieces. */
  function Twin(root: Path, d: Owned): Owned
    requires Final(root, d).Some?
  {
    d.(relative := Join(Final(root, d).value[|SchemeRoot(root, d.scheme).value|..]))
  }

  /** Every bound identity shares its final path with its twin, so a final path
      determines the identity exactly for those without parent pieces. */
  lemma BindingTwin(root: Path, d: Owned)
    requires Final(root, d).Some?
    ensures Final(root, Twin(root, d)) == Final(root, d)
    ensures Twin(root, d) == d <==> Plain(Split(d.relative))
  {
    var base := SchemeRoot(root, d.scheme).value;
    var final := Final(root, d).value;
    var tail := final[|base|..];
    SplitPortable(d.relative);
    ResolvePieces(base, Split(d.relative), |base|);
    assert forall i :: 0 <= i < |tail| ==> tail[i] == final[i + |base|];
    JoinPieces(tail);
    SplitJoin(tail);
    ResolvePlain(base, tail);
    assert base + tail == final;
    if Plain(Split(d.relative)) {
      ResolvePlain(base, Split(d.relative));
      assert tail == Split(d.relative);
      JoinSplit(d.relative);
    }
  }

  /** An identity with parent pieces that `bind` accepts, next to the plain one
      it collides with. */
  lemma ParentPiecesCollide(root: Path, d: Owned, e: Owned)
    requires d.scheme == e.scheme == "scripts" && d.relative == "../bin/x" && e.relative == "x"
    ensures Final(root, d) == Final(root, e) == Some(root + ["bin", "x"])
  {
    var s := root + ["bin"];
    SplitExample();
    PiecesExample();
    hide Split, Portable, Plain, CleanRelative, Resolve, Final;
    ResolveUp(root, "bin", ["bin", "x"]);
    assert [".."] + ["bin", "x"] == ["..", "bin", "x"];
    ResolvePlain(root, ["bin", "x"]);
    ResolvePlain(s, ["x"]);
    BindsTo(root, d, ["..", "bin", "x"], root + ["bin", "x"]);
    assert s + ["x"] == root + ["bin", "x"];
    BindsTo(root, e, ["x"], root + ["bin", "x"]);
  }

  lemma BindsTo(root: Path, d: Owned, parts: seq<string>, final: Path)
    requires d.scheme == "scripts" && d.relative != "" && Portable(d.relative) && d.relative[0] != '/'
    requires Split(d.relative) == parts && CleanRelative(parts)
    requires Resolve(root + ["bin"], parts) == final && Within(root + ["bin"], final)
    ensures Final(root, d) == Some(final)
  {
  }

  lemma ResolveUp(root: Path, name: string, parts: seq<string>)
    ensures Resolve(root + [name], [".."] + parts) == Resolve(root, parts)
  {
    assert ([".."] + parts)[1..] == parts;
    assert Up(root + [name]) == root;
  }

  lemma PiecesExample()
    ensures Portable("../bin/x") && Portable("x") && Plain(["bin", "x"]) && Plain(["x"])
    ensures CleanRelative(["..", "bin", "x"]) && CleanRelative(["x"])
  {
  }

  lemma SplitExample()
    ensures Split("../bin/x") == ["..", "bin", "x"] && Split("x") == ["x"]
  {
    SplitJoin(["..", "bin", "x"]);
    SplitJoin(["x"]);
    assert ["..", "bin", "x"][1..] == ["bin", "x"] && ["bin", "x"][1..] == ["x"];
    assert Join(["bin", "x"]) == "bin/x";
    assert Join(["..", "bin", "x"]) == "../bin/x";
  }

  /** Keys are read back uniquely: schemes contain no slash. */
  lemma KeyInjective(root: Path, d: Owned, e: Owned)
    requires SchemeRoot(root, d.scheme).Some? && SchemeRoot(root, e.scheme).Some?
    requires Key(d) == Key(e)
    ensures d.scheme == e.scheme && d.relative == e.relative
  {
    var k := Key(d);
    assert k[..|d.scheme|] == d.scheme && k[..|e.scheme|] == e.scheme;
    assert k[|d.scheme|] == '/' && k[|e.scheme|] == '/';
    if |d.scheme| == |e.scheme| {
      assert k[|d.scheme| + 1..] == d.relative && k[|e.scheme| + 1..] == e.relative;
    }
  }

  // ------------------------------------------------------- ownership metadata

  function MetadataPath(root: Path): Path {
    root + [".heliopause", "pypi-transaction.json"]
  }

  predicate ValidEntry(root: Path, key: string, d: Owned) {
    && Final(root, d).Some? && key == Key(d) && HexDigest(d.digest) && d.size >= 0 && ValidOwners(d)
  }

  /** `readState`: the table on disk, the empty one when there is none, or an
      error. */
  function ReadState(names: Names, root: Path): Option<Files> {
    var meta := MetadataPath(root);
    if meta !in names then Some(map[])
    else if !SingleLinkFile(names, meta) || !names[meta].content.Ownership? then None
    else
      var stored := names[meta].content;
      if stored.version == 2 && |stored.files| > 0
         && forall key :: key in stored.files ==> ValidEntry(root, key, stored.files[key])
      then Some(stored.files) else None
  }

  predicate HasBytes(names: Names, p: Path, digest: string, size: int) {
    SingleLinkFile(names, p) && names[p].content.Data?
    && names[p].content.digest == digest && names[p].content.size == size
  }

  predicate VerifiedEntry(names: Names, root: Path, key: string, d: Owned) {
    Final(root, d).Some? && key == Key(d) && HasBytes(names, Final(root, d).value, d.digest, d.size)
  }

  /** `verifyState`: every recorded file is on disk with the recorded bytes. */
  predicate VerifyState(names: Names, root: Path, files: Files) {
    forall key :: key in files ==> VerifiedEntry(names, root, key, files[key])
  }

  /** What the next transaction has to find before it will begin. */
  predicate Describes(names: Names, root: Path, files: Files) {
    ReadState(names, root) == Some(files) && VerifyState(names, root, files)
  }

  // --------------------------------------------------------------- one update

  function NewFiles(news: seq<Owned>): Files {
    if |news| == 0 then map[] else NewFiles(news[..|news| - 1])[Key(news[|news| - 1]) := news[|news| - 1]]
  }

  predicate NamesDistribution(d: Owned, distribution: string) {
    exists o :: o in Owners(d) && o.distribution == distribution
  }

  /** The distributions an update installs: the keys of `projects`. */
  predicate Updated(news: seq<Owned>, distribution: string) {
    exists d :: d in news && NamesDistribution(d, distribution)
  }

  predicate Replaced(news: seq<Owned>, d: Owned) {
    forall o :: o in Owners(d) ==> Updated(news, o.distribution)
  }

  predicate Untouched(news: seq<Owned>, d: Owned) {
    forall o :: o in Owners(d) ==> !Updated(news, o.distribution)
  }

  predicate SameVersion(d: Owned, e: Owned) {
    forall o, p :: o in Owners(d) && p in Owners(e) && o.distribution == p.distribution ==> o.version == p.version
  }

  /** The conditions of `prepare` that do not look at the disk. */
  predicate Compatible(current: Files, news: seq<Owned>) {
    && |news| > 0
    && (forall d :: d in news ==> ValidOwners(d))
    && (forall d, e :: d in news && e in news ==> SameVersion(d, e))
    && (forall key :: key in current ==>
          && (Replaced(news, current[key]) || Untouched(news, current[key]))
          && (key in NewFiles(news) ==>
              Replaced(news, current[key]) && current[key].scheme == NewFiles(news)[key].scheme))
  }

  function Desired(current: Files, news: seq<Owned>): Files {
    map key | key in current.Keys + NewFiles(news).Keys && (key in NewFiles(news) || !Replaced(news, current[key]))
      :: if key in NewFiles(news) then NewFiles(news)[key] else current[key]
  }

  function ObsoleteKeys(current: Files, news: seq<Owned>): set<string> {
    set key | key in current && key !in NewFiles(news) && Replaced(news, current[key])
  }

  function OwnedBy(files: Files, distribution: string): set<string> {
    set key | key in files && NamesDistribution(files[key], distribution)
  }

  ghost predicate OneVersion(files: Files) {
    forall k, l :: k in files && l in files ==> SameVersion(files[k], files[l])
  }

  lemma {:induction false} NewFilesEntries(news: seq<Owned>)
    ensures forall key :: key in NewFiles(news) ==> NewFiles(news)[key] in news && key == Key(NewFiles(news)[key])
    ensures forall d :: d in news ==> Key(d) in NewFiles(news)
  {
    if |news| > 0 {
      var init := news[..|news| - 1];
      NewFilesEntries(init);
      assert news == init + [news[|news| - 1]];
      forall key | key in NewFiles(news)
        ensures NewFiles(news)[key] in news && key == Key(NewFiles(news)[key])
      {
        if key != Key(news[|news| - 1]) {
          assert NewFiles(init)[key] in init;
        }
      }
    }
  }

  /** Every file of the old table is exactly one of replaced in place, obsolete
      or retained, and the new table is the new files plus the retained ones. */
  lemma UpdatePartition(current: Files, news: seq<Owned>)
    requires Compatible(current, news)
    ensures forall key :: key in current ==>
      (if key in NewFiles(news) then 1 else 0)
      + (if key in ObsoleteKeys(current, news) then 1 else 0)
      + (if Untouched(news, current[key]) then 1 else 0) == 1
    ensures Desired(current, news).Keys + ObsoleteKeys(current, news) == current.Keys + NewFiles(news).Keys
    ensures Desired(current, news).Keys !! ObsoleteKeys(current, news)
  {
    forall key | key in current
      ensures !(Replaced(news, current[key]) && Untouched(news, current[key]))
    {
      var o := Owners(current[key])[0];
      assert o in Owners(current[key]);
    }
  }

  /** After an update the files of each updated distribution are exactly those
      it just installed. */
  lemma UpdatedOwnership(current: Files, news: seq<Owned>, distribution: string)
    requires Compatible(current, news) && Updated(news, distribution)
    ensures OwnedBy(Desired(current, news), distribution) == OwnedBy(NewFiles(news), distribution)
  {
    var desired := Desired(current, news);
    forall key | key in desired && key !in NewFiles(news)
      ensures !NamesDistribution(desired[key], distribution)
    {
      assert Untouched(news, current[key]);
    }
  }

  /** A distribution the update does not name keeps its files, and their
      records, as they were. */
  lemma OtherOwnership(current: Files, news: seq<Owned>, distribution: string)
    requires Compatible(current, news) && !Updated(news, distribution)
    ensures OwnedBy(Desired(current, news), distribution) == OwnedBy(current, distribution)
    ensures forall key :: key in OwnedBy(current, distribution) ==> Desired(current, news)[key] == current[key]
  {
    var desired := Desired(current, news);
    NewFilesEntries(news);
    assert forall key :: key in NewFiles(news) ==> !NamesDistribution(NewFiles(news)[key], distribution);
    forall key | key in current && NamesDistribution(current[key], distribution)
      ensures key in desired && desired[key] == current[key]
    {
      var o :| o in Owners(current[key]) && o.distribution == distribution;
      assert !Replaced(news, current[key]);
    }
  }

  /** One version per distribution survives every update. */
  lemma UpdateKeepsOneVersion(current: Files, news: seq<Owned>)
    requires Compatible(current, news) && OneVersion(current)
    ensures OneVersion(Desired(current, news))
  {
    NewFilesEntries(news);
    var desired := Desired(current, news);
    forall k, l | k in desired && l in desired
      ensures SameVersion(desired[k], desired[l])
    {
      forall o, p | o in Owners(desired[k]) && p in Owners(desired[l]) && o.distribution == p.distribution
        ensures o.version == p.version
      {
        if k in NewFiles(news) && l !in NewFiles(news) {
          assert Untouched(news, current[l]);
          assert desired[k] in news && NamesDistribution(desired[k], o.distribution);
        } else if l in NewFiles(news) && k !in NewFiles(news) {
          assert Untouched(news, current[k]);
          assert desired[l] in news && NamesDistribution(desired[l], p.distribution);
        } else if k in NewFiles(news) {
          assert desired[k] in news && desired[l] in news;
          assert SameVersion(desired[k], desired[l]);
        }
      }
    }
  }
}
