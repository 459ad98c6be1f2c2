/** The archive of a private Cargo build, reduced to its top-level products.
    Hard links are resolved inside the archive. */
module CargoOutput {
  import opened Wrappers
  import opened Text

  const MAX_FILES := 10000
  const MAX_FILE_BYTES := 0x400_0000
  const MAX_EXPANDED_BYTES := 0xC80_0000
  const MAX_OUTPUT_FILES := 128

  datatype Kind = Regular | Link | Directory | Other

  /** A header, and the bytes that follow it. */
  datatype Entry = Entry(name: string, kind: Kind, size: int, link: string, mode: int, uid: int, gid: int, pax: nat,
    data: string)

  function TrimDot(s: string): string {
    if |s| >= 2 && s[0] == '.' && s[1] == '/' then s[2..] else s
  }

  function TrimSlash(s: string): string {
    if |s| >= 1 && s[|s| - 1] == '/' then s[..|s| - 1] else s
  }

  predicate RootDot(e: Entry) {
    e.name == "." || e.name == "./"
  }

  function NameOf(e: Entry): string {
    if RootDot(e) then "." else TrimSlash(TrimDot(e.name))
  }

  /** `validClosureDestination`. */
  predicate ValidDestination(name: string) {
    && (forall i :: 0 <= i < |name| ==> name[i] != '\\' && name[i] != '\0' && name[i] != '\n' && name[i] != '\r')
    && forall part :: part in Split(name) ==> part != "" && part != "." && part != ".."
  }

  /** Permission bits only, and none for others to write. */
  predicate SafeMode(mode: int) {
    0 <= mode <= 0x1FF && (mode / 16) % 2 == 0 && (mode / 2) % 2 == 0
  }

  /** The header by itself, `first` being the first of the archive. */
  predicate SafeHeader(e: Entry, first: bool) {
    var name := NameOf(e);
    && (if name == "." then RootDot(e) && first && e.kind == Directory && e.size == 0 else ValidDestination(name))
    && |name| <= 4096 && e.uid == 1000 && e.gid == 1000 && SafeMode(e.mode) && e.pax == 0
  }

  predicate SafeBody(e: Entry) {
    match e.kind
    case Directory => e.size == 0 && e.link == ""
    case Regular => e.link == "" && 0 <= e.size <= MAX_FILE_BYTES && |e.data| == e.size
    case Link => e.size == 0 && ValidDestination(TrimDot(e.link)) && |TrimDot(e.link)| <= 4096
    case Other => false
  }

  /** A product: at the top level, not hidden, and no dependency file. */
  predicate Product(e: Entry) {
    var name := NameOf(e);
    && e.kind != Directory && '/' !in name && !(name != "" && name[0] == '.')
    && !(|name| >= 2 && name[|name| - 2..] == ".d")
  }

  // ------------------------------------------------------------- the whole thing

  /** The entry a name stands for. */
  ghost predicate Names(es: seq<Entry>, name: string, i: nat) {
    i < |es| && NameOf(es[i]) == name
  }

  /** A link goes to a regular file of the same mode and owner, before or after it,
      and never to another link. */
  ghost predicate Resolves(es: seq<Entry>, e: Entry, i: nat) {
    Names(es, TrimDot(e.link), i) && es[i].kind == Regular && es[i].mode == e.mode && es[i].uid == e.uid &&
      es[i].gid == e.gid
  }

  ghost predicate Distinct(es: seq<Entry>) {
    forall i, j :: 0 <= i < j < |es| ==> NameOf(es[i]) != NameOf(es[j])
  }

  /** The bytes an entry stands for. */
  ghost function Bytes(es: seq<Entry>, e: Entry): string {
    if e.kind == Regular then e.data
    else if e.kind == Link && exists i: nat :: Resolves(es, e, i) then
      var i: nat :| Resolves(es, e, i);
      es[i].data
    else ""
  }

  function FileCount(es: seq<Entry>): nat {
    if es == [] then 0 else FileCount(es[..|es| - 1]) + (if es[|es| - 1].kind != Directory then 1 else 0)
  }

  function Products(es: seq<Entry>): seq<Entry> {
    if es == [] then [] else Products(es[..|es| - 1]) + (if Product(es[|es| - 1]) then [es[|es| - 1]] else [])
  }

  /** The bytes of the entries of one kind among the first of an archive. */
  ghost function Expanded(es: seq<Entry>, kind: Kind, k: nat): nat
    requires k <= |es|
  {
    if k == 0 then 0 else Expanded(es, kind, k - 1) + (if es[k - 1].kind == kind then |Bytes(es, es[k - 1])| else 0)
  }

  ghost predicate Safe(es: seq<Entry>) {
    && |es| <= 2 * MAX_FILES && FileCount(es) <= MAX_FILES && Distinct(es)
    && forall i :: 0 <= i < |es| ==> SafeHeader(es[i], i == 0) && SafeBody(es[i])
  }

  ghost predicate AllResolve(es: seq<Entry>) {
    forall i :: 0 <= i < |es| && es[i].kind == Link ==> exists j: nat :: Resolves(es, es[i], j)
  }

  /** What an archive needs to be filtered: in all, files and aliases together stay
      within the bound. */
  ghost predicate Filterable(es: seq<Entry>) {
    && Safe(es)
    && AllResolve(es)
    && Expanded(es, Regular, |es|) + Expanded(es, Link, |es|) <= MAX_EXPANDED_BYTES
    && 0 < |Products(es)| <= MAX_OUTPUT_FILES
  }

  datatype Output = Output(name: string, data: string)

  ghost function Outputs(es: seq<Entry>): (outputs: seq<Output>)
    ensures |outputs| == |Products(es)|
  {
    seq(|Products(es)|,
      i requires 0 <= i < |Products(es)| => Output(NameOf(Products(es)[i]), Bytes(es, Products(es)[i])))
  }

  // ---------------------------------------------------------- what follows of it

  lemma ResolvesOnce(es: seq<Entry>, e: Entry, i: nat, j: nat)
    requires Distinct(es) && Resolves(es, e, i) && Resolves(es, e, j)
    ensures i == j
  {
  }

  lemma BytesOf(es: seq<Entry>, e: Entry, i: nat)
    requires Distinct(es) && e.kind == Link && Resolves(es, e, i)
    ensures Bytes(es, e) == es[i].data
  {
    var j: nat :| Resolves(es, e, j) && Bytes(es, e) == es[j].data;
    ResolvesOnce(es, e, i, j);
  }

  lemma {:induction false} ProductsOf(es: seq<Entry>)
    ensures forall e :: e in Products(es) <==> e in es && Product(e)
    ensures |Products(es)| <= |es|
  {
    if es != [] {
      ProductsOf(es[..|es| - 1]);
      assert es == es[..|es| - 1] + [es[|es| - 1]];
    }
  }

  /** Products come out in the order of the archive. */
  lemma {:induction false} ProductsInOrder(es: seq<Entry>, i: nat, j: nat)
    requires Distinct(es) && i < j < |Products(es)|
    ensures NameOf(Products(es)[i]) != NameOf(Products(es)[j])
    ensures exists k, l :: 0 <= k < l < |es| && es[k] == Products(es)[i] && es[l] == Products(es)[j]
  {
    var n := |es| - 1;
    var init := es[..n];
    assert Distinct(init);
    var ps := Products(es);
    if Product(es[n]) && j == |ps| - 1 {
      ProductsOf(init);
      assert ps[i] == Products(init)[i] && ps[i] in Products(init);
      var k :| 0 <= k < n && init[k] == ps[i];
      assert es[k] == ps[i] && es[n] == ps[j];
    } else {
      assert ps[i] == Products(init)[i] && ps[j] == Products(init)[j];
      ProductsInOrder(init, i, j);
      var k, l :| 0 <= k < l < n && init[k] == ps[i] && init[l] == ps[j];
      assert es[k] == ps[i] && es[l] == ps[j];
    }
  }

  /** The bytes are those of a regular file, the entry itself or what it links to. */
  ghost predicate FromRegular(es: seq<Entry>, e: Entry, bytes: string, k: nat) {
    k < |es| && es[k].kind == Regular && es[k].data == bytes && (es[k] == e || Resolves(es, e, k))
  }

  lemma BytesAreRegular(es: seq<Entry>, k: nat)
    requires Filterable(es) && k < |es| && es[k].kind != Directory
    ensures exists j: nat :: FromRegular(es, es[k], Bytes(es, es[k]), j)
  {
    assert SafeBody(es[k]);
    if es[k].kind == Link {
      var j: nat :| Resolves(es, es[k], j);
      BytesOf(es, es[k], j);
      assert FromRegular(es, es[k], Bytes(es, es[k]), j);
    } else {
      assert FromRegular(es, es[k], Bytes(es, es[k]), k);
    }
  }

  lemma ProductIsFile(e: Entry)
    requires Product(e)
    ensures e.kind != Directory
  {
  }

  /** Every product is written once, as the bytes of a regular file of the archive. */
  lemma OutputsAreRegular(es: seq<Entry>, i: nat)
    requires Filterable(es) && i < |Products(es)|
    ensures exists k: nat :: FromRegular(es, Products(es)[i], Outputs(es)[i].data, k)
    ensures forall j :: 0 <= j < |Products(es)| && j != i ==> Outputs(es)[j].name != Outputs(es)[i].name
  {
    hide Bytes, SafeHeader, SafeBody, FromRegular, Product, Products, NameOf, Distinct, Resolves, Expanded;
    ProductsOf(es);
    var e := Products(es)[i];
    assert e in es;
    var k :| 0 <= k < |es| && es[k] == e;
    ProductIsFile(e);
    BytesAreRegular(es, k);
    assert Outputs(es)[i].data == Bytes(es, e);
    assert Distinct(es);
    forall j | 0 <= j < |Products(es)| && j != i ensures Outputs(es)[j].name != Outputs(es)[i].name {
      if i < j {
        ProductsInOrder(es, i, j);
      } else {
        ProductsInOrder(es, j, i);
      }
    }
  }

  // --------------------------------------------- the same, by names and numbers

  /** How an archive may spell the path of a member. */
  predicate Spelled(name: string, path: string) {
    name == path || name == "./" + path || name == path + "/" || name == "./" + path + "/"
  }

  predicate Piece(s: string) {
    && s != "" && s != "." && s != ".."
    && '/' !in s && '\\' !in s && '\0' !in s && '\n' !in s && '\r' !in s
  }

  /** Pieces with slashes between them, and no way up or out. */
  ghost predicate Inner(path: string) {
    exists pieces: seq<string> :: |pieces| > 0 && path == Join(pieces) && forall piece :: piece in pieces ==>
      Piece(piece)
  }

  /** The name of a file that a build is for. */
  ghost predicate TopLevel(path: string) {
    path != "" && '/' !in path && path[0] != '.' && !(exists stem :: path == stem + ".d")
  }

  /** In octal: any bits for the owner, none for others to write. */
  ghost predicate OthersReadOnly(mode: int) {
    exists owner, group, other :: mode == Octal(owner, group, other)
      && 0 <= owner <= 7 && group in {0, 1, 4, 5} && other in {0, 1, 4, 5}
  }

  function Octal(owner: int, group: int, other: int): int {
    64 * owner + 8 * group + other
  }

  /** What the filter lets pass: plain files, links and directories of the build's
      own user, inside the archive. */
  ghost predicate Plain(e: Entry, first: bool) {
    && e.uid == 1000 && e.gid == 1000 && OthersReadOnly(e.mode) && e.pax == 0
    && (|| (first && e.kind == Directory && (e.name == "." || e.name == "./"))
        || exists path :: Spelled(e.name, path) && Inner(path) && |path| <= 4096)
    && (|| (e.kind == Directory && e.size == 0 && e.link == "")
        || (e.kind == Regular && e.link == "" && |e.data| == e.size <= 64 * 1024 * 1024)
        || (e.kind == Link && e.size == 0
            && exists path :: (e.link == path || e.link == "./" + path) && Inner(path) && |path| <= 4096))
  }

  lemma InnerIsValid(path: string)
    ensures Inner(path) <==> ValidDestination(path)
  {
    hide Piece, Join, Split, ValidDestination;
    if Inner(path) {
      var pieces :| |pieces| > 0 && path == Join(pieces) && forall piece :: piece in pieces ==> Piece(piece);
      PiecesAreValid(pieces);
    }
    if ValidDestination(path) {
      ValidHasPieces(path);
    }
  }

  lemma PiecesAreValid(pieces: seq<string>)
    requires |pieces| > 0 && forall piece :: piece in pieces ==> Piece(piece)
    ensures ValidDestination(Join(pieces))
  {
    hide Join, Split;
    SplitJoin(pieces);
    CleanJoin(pieces);
    var path := Join(pieces);
    forall i | 0 <= i < |path|
      ensures path[i] != '\\' && path[i] != '\0' && path[i] != '\n' && path[i] != '\r' {
      assert path[i] in path;
    }
  }

  lemma ValidHasPieces(path: string)
    requires ValidDestination(path)
    ensures |Split(path)| > 0 && path == Join(Split(path)) && forall piece :: piece in Split(path) ==> Piece(piece)
  {
    hide Join, Split;
    JoinSplit(path);
    forall piece | piece in Split(path) ensures Piece(piece) {
      PieceWithin(path, piece);
    }
  }

  lemma {:induction false} CleanJoin(pieces: seq<string>)
    requires |pieces| > 0 && forall piece :: piece in pieces ==> Piece(piece)
    ensures forall c :: c in Join(pieces) ==> c != '\\' && c != '\0' && c != '\n' && c != '\r'
  {
    assert pieces[0] in pieces;
    if |pieces| > 1 {
      CleanJoin(pieces[1..]);
    }
  }

  lemma {:induction false} PieceWithin(s: string, piece: string)
    requires piece in Split(s)
    ensures forall c :: c in piece ==> c in s
  {
    if s != "" {
      var rest := Split(s[1..]);
      if piece in rest {
        PieceWithin(s[1..], piece);
      } else if s[0] != '/' && piece == [s[0]] + rest[0] {
        PieceWithin(s[1..], rest[0]);
      }
    }
  }

  lemma ModeInOctal(mode: int)
    ensures OthersReadOnly(mode) <==> SafeMode(mode)
  {
    hide SafeMode, Octal;
    Digits(mode);
    if SafeMode(mode) {
      SafeInOctal(mode, mode / 64, (mode / 8) % 8, mode % 8);
    }
    if OthersReadOnly(mode) {
      var owner, group, other :| mode == Octal(owner, group, other)
        && 0 <= owner <= 7 && group in {0, 1, 4, 5} && other in {0, 1, 4, 5};
      SafeInOctal(mode, owner, group, other);
    }
  }

  lemma Digits(mode: int)
    ensures mode == Octal(mode / 64, (mode / 8) % 8, mode % 8)
  {
  }

  lemma SafeInOctal(mode: int, owner: int, group: int, other: int)
    requires mode == Octal(owner, group, other) && 0 <= group <= 7 && 0 <= other <= 7
    ensures SafeMode(mode) <==> 0 <= owner <= 7 && group in {0, 1, 4, 5} && other in {0, 1, 4, 5}
  {
    Quotients(mode, 4 * owner + group / 2, 32 * owner + 4 * group + other / 2);
    NotForWriting(group);
    NotForWriting(other);
    EvenMore(2 * owner, group / 2);
    EvenMore(16 * owner + 2 * group, other / 2);
  }

  lemma Quotients(mode: int, sixteenth: int, half: int)
    requires 16 * sixteenth <= mode < 16 * (sixteenth + 1) && 2 * half <= mode < 2 * (half + 1)
    ensures mode / 16 == sixteenth && mode / 2 == half
  {
  }

  lemma EvenMore(a: int, b: int)
    ensures (2 * a + b) % 2 == b % 2
  {
  }

  lemma NotForWriting(digit: int)
    requires 0 <= digit <= 7
    ensures (digit / 2) % 2 == 0 <==> digit in {0, 1, 4, 5}
  {
  }

  lemma NameIsSpelled(e: Entry)
    requires !RootDot(e)
    ensures Spelled(e.name, NameOf(e))
  {
    hide RootDot;
    var t := TrimDot(e.name);
    var n := NameOf(e);
    assert n == TrimSlash(t);
    DotBefore(e.name);
    SlashAfter(t);
    assert "./" + (n + "/") == "./" + n + "/";
  }

  lemma DotBefore(s: string)
    ensures s == TrimDot(s) || s == "./" + TrimDot(s)
  {
    if TrimDot(s) != s {
      assert s[..2] == "./" && s == s[..2] + s[2..];
    }
  }

  lemma SlashAfter(s: string)
    ensures s == TrimSlash(s) || s == TrimSlash(s) + "/"
  {
    if TrimSlash(s) != s {
      assert s == s[..|s| - 1] + [s[|s| - 1]];
    }
  }

  lemma SpelledIsName(e: Entry, path: string)
    requires Spelled(e.name, path) && path != "" && path[|path| - 1] != '/'
    requires !(|path| >= 2 && path[0] == '.' && path[1] == '/') && path != "."
    ensures !RootDot(e) && NameOf(e) == path
  {
    if e.name == "./" + path {
      assert e.name[2..] == path;
    } else if e.name == "./" + path + "/" {
      assert e.name[2..] == path + "/" && (path + "/")[..|path|] == path;
    } else if e.name == path + "/" {
      assert (path + "/")[..|path|] == path;
      assert |path| >= 2 ==> e.name[0] == path[0] && e.name[1] == path[1];
    }
  }

  lemma InnerEnds(path: string)
    requires ValidDestination(path)
    ensures path != "" && path[|path| - 1] != '/' && path != "."
    ensures !(|path| >= 2 && path[0] == '.' && path[1] == '/')
  {
    assert Split("") == [""];
    assert "."[1..] == "" && Split(".")[0] == ".";
    assert forall i :: 0 <= i < |Split(path)| ==> Split(path)[i] in Split(path);
    assert Split(path)[0] in Split(path);
    if path != "" && path[|path| - 1] == '/' {
      LastPiece(path);
    }
    if |path| >= 2 && path[0] == '.' && path[1] == '/' {
      FirstIsDot(path);
    }
  }

  lemma FirstIsDot(path: string)
    requires |path| >= 2 && path[0] == '.' && path[1] == '/'
    ensures Split(path)[0] == "."
  {
    assert path[1..][0] == '/' && Split(path[1..])[0] == "";
  }

  lemma {:induction false} LastPiece(s: string)
    requires s != "" && s[|s| - 1] == '/'
    ensures |Split(s)| >= 2 && Split(s)[|Split(s)| - 1] == ""
  {
    if |s| > 1 {
      LastPiece(s[1..]);
    } else {
      assert s[1..] == "";
    }
  }

  /** What the filter lets pass, header and body, stated without how it trims. */
  lemma PlainExactly(e: Entry, first: bool)
    ensures SafeHeader(e, first) && SafeBody(e) <==> Plain(e, first)
  {
    hide SafeMode, ValidDestination;
    ModeInOctal(e.mode);
    HeaderPath(e);
    LinkPath(e);
  }

  lemma HeaderPath(e: Entry)
    ensures !RootDot(e) ==>
      ((NameOf(e) != "." && ValidDestination(NameOf(e)) && |NameOf(e)| <= 4096) <==>
       exists path :: Spelled(e.name, path) && Inner(path) && |path| <= 4096)
    ensures RootDot(e) ==> forall path :: Spelled(e.name, path) ==> !Inner(path)
  {
    hide ValidDestination, NameOf, Inner, Spelled;
    if !RootDot(e) {
      NameIsSpelled(e);
      InnerIsValid(NameOf(e));
      if ValidDestination(NameOf(e)) {
        InnerEnds(NameOf(e));
      }
    }
    forall path | Spelled(e.name, path) && Inner(path) ensures !RootDot(e) && NameOf(e) == path && path != "." {
      InnerIsValid(path);
      InnerEnds(path);
      SpelledIsName(e, path);
    }
  }

  lemma LinkPath(e: Entry)
    ensures ValidDestination(TrimDot(e.link)) && |TrimDot(e.link)| <= 4096 <==>
      exists path :: (e.link == path || e.link == "./" + path) && Inner(path) && |path| <= 4096
  {
    hide ValidDestination, Inner;
    InnerIsValid(TrimDot(e.link));
    DotBefore(e.link);
    forall path | (e.link == path || e.link == "./" + path) && Inner(path) ensures TrimDot(e.link) == path {
      InnerIsValid(path);
      InnerEnds(path);
      if e.link == "./" + path {
        assert e.link[2..] == path;
      }
    }
  }

  lemma NoStem(name: string)
    requires !(|name| >= 2 && name[|name| - 2..] == ".d")
    ensures forall stem :: name != stem + ".d"
  {
    forall stem ensures name != stem + ".d" {
      EndsInD(stem);
    }
  }

  lemma HasStem(name: string)
    ensures |name| >= 2 && name[|name| - 2..] == ".d" ==> exists stem :: name == stem + ".d"
  {
    if |name| >= 2 && name[|name| - 2..] == ".d" {
      assert name == name[..|name| - 2] + ".d";
    }
  }

  lemma EndsInD(stem: string)
    ensures var name := stem + ".d"; |name| >= 2 && name[|name| - 2..] == ".d"
  {
  }

  /** An entry is a product exactly when it spells a top-level name. */
  lemma ProductExactly(e: Entry)
    ensures Product(e) && ValidDestination(NameOf(e)) ==> TopLevel(NameOf(e)) && Spelled(e.name, NameOf(e))
    ensures forall path :: e.kind != Directory && TopLevel(path) && Spelled(e.name, path) ==>
      Product(e) && NameOf(e) == path
  {
    hide ValidDestination;
    if Product(e) && ValidDestination(NameOf(e)) {
      InnerEnds(NameOf(e));
      NameIsSpelled(e);
      NoStem(NameOf(e));
    }
    forall path | e.kind != Directory && TopLevel(path) && Spelled(e.name, path)
      ensures Product(e) && NameOf(e) == path {
      SpelledIsName(e, path);
      HasStem(path);
    }
  }

  /** What is written of an archive, without its bookkeeping: the files with
      top-level names, each with the bytes of a plain file that it is or is a link
      to; and only of an archive in which everything is plain and within bounds. */
  ghost predicate Filtered(es: seq<Entry>, outputs: seq<Output>) {
    && (forall o :: o in outputs ==> TopLevel(o.name) && exists e, f :: CameFrom(es, o, e, f))
    && (forall e, path :: e in es && e.kind != Directory && TopLevel(path) && Spelled(e.name, path) ==>
        exists o :: o in outputs && o.name == path)
    && (forall i :: 0 <= i < |es| ==> Plain(es[i], i == 0))
    && |es| <= 20000 && 1 <= |outputs| <= 128
  }

  ghost predicate CameFrom(es: seq<Entry>, o: Output, e: Entry, f: Entry) {
    && e in es && f in es && e.kind != Directory && Spelled(e.name, o.name)
    && f.kind == Regular && f.data == o.data && (f == e || LinkTo(e, f))
  }

  ghost predicate LinkTo(e: Entry, f: Entry) {
    && e.kind == Link && f.mode == e.mode
    && exists path :: (e.link == path || e.link == "./" + path) && Spelled(f.name, path) && Inner(path)
  }

  lemma OutputsFiltered(es: seq<Entry>)
    requires Filterable(es)
    ensures Filtered(es, Outputs(es))
  {
    hide Product, Products, Plain, SafeHeader, SafeBody, NameOf, TopLevel, Spelled, Expanded, Bytes, CameFrom;
    hide FileCount;
    var outputs := Outputs(es);
    ProductsOf(es);
    forall i | 0 <= i < |es| ensures Plain(es[i], i == 0) {
      PlainExactly(es[i], i == 0);
    }
    forall o | o in outputs ensures TopLevel(o.name) && exists e, f :: CameFrom(es, o, e, f) {
      var i :| 0 <= i < |outputs| && outputs[i] == o;
      OneOutput(es, i);
    }
    forall e, path | e in es && e.kind != Directory && TopLevel(path) && Spelled(e.name, path)
      ensures exists o :: o in outputs && o.name == path {
      ProductExactly(e);
      var i :| 0 <= i < |Products(es)| && Products(es)[i] == e;
      assert outputs[i].name == path && outputs[i] in outputs;
    }
  }

  lemma OneOutput(es: seq<Entry>, i: nat)
    requires Filterable(es) && i < |Outputs(es)|
    ensures TopLevel(Outputs(es)[i].name) && exists e, f :: CameFrom(es, Outputs(es)[i], e, f)
  {
    hide Bytes, Product, Products, NameOf, TopLevel, Spelled, Expanded, SafeHeader, SafeBody, Distinct, Resolves;
    hide FileCount, FromRegular, LinkTo;
    assert |Outputs(es)| == |Products(es)|;
    ProductsOf(es);
    var e, o := Products(es)[i], Outputs(es)[i];
    assert e in Products(es) && e in es;
    var n :| 0 <= n < |es| && es[n] == e;
    ProductIsFile(e);
    ProductExactly(e);
    SafeIsValid(es, n);
    OutputsAreRegular(es, i);
    var k: nat :| FromRegular(es, e, o.data, k);
    RegularOrLink(es, e, o.data, k);
    assert CameFrom(es, o, e, es[k]);
  }

  lemma SafeIsValid(es: seq<Entry>, n: nat)
    requires Safe(es) && n < |es| && Product(es[n])
    ensures ValidDestination(NameOf(es[n]))
  {
    assert SafeHeader(es[n], n == 0) && SafeBody(es[n]);
  }

  lemma RootDotName(e: Entry)
    ensures RootDot(e) ==> NameOf(e) == "."
  {
  }

  lemma NothingUnnamed(e: Entry, first: bool)
    requires SafeHeader(e, first)
    ensures NameOf(e) != ""
  {
    assert Split("") == [""] && Split("")[0] in Split("");
  }

  lemma RegularOrLink(es: seq<Entry>, e: Entry, bytes: string, k: nat)
    requires Safe(es) && e in es && e.kind != Directory && FromRegular(es, e, bytes, k)
    ensures k < |es| && es[k] in es && es[k].kind == Regular && es[k].data == bytes && (es[k] == e || LinkTo(e, es[k]))
  {
    hide ValidDestination, Inner, Spelled, NameOf;
    var n :| 0 <= n < |es| && es[n] == e;
    assert SafeBody(e) && SafeHeader(es[n], n == 0) && SafeHeader(es[k], k == 0);
    if es[k] != e {
      assert Resolves(es, e, k);
      NothingUnnamed(es[k], k == 0);
      InnerIsValid(TrimDot(e.link));
      InnerEnds(TrimDot(e.link));
      RootDotName(es[k]);
      DotBefore(e.link);
      NameIsSpelled(es[k]);
    }
  }

  ghost function Files(es: seq<Entry>): set<Entry> {
    set e | e in es && e.kind != Directory
  }

  ghost function TopFiles(es: seq<Entry>): set<Entry> {
    set e | e in Files(es) && exists path :: TopLevel(path) && Spelled(e.name, path)
  }

  /** No two entries spell the same path. */
  ghost predicate SpelledOnce(es: seq<Entry>) {
    forall i, j, path :: 0 <= i < j < |es| && Inner(path) && Spelled(es[i].name, path) ==> !Spelled(es[j].name, path)
  }

  /** Which archives are filtered, without the bookkeeping. */
  ghost predicate Allowed(es: seq<Entry>) {
    && |es| <= 20000 && |Files(es)| <= 10000 && 1 <= |TopFiles(es)| <= 128
    && (forall i :: 0 <= i < |es| ==> Plain(es[i], i == 0)) && SpelledOnce(es)
    && (forall e :: e in es && e.kind == Link ==> exists f :: f in es && f.kind == Regular && LinkTo(e, f))
    && Expanded(es, Regular, |es|) + Expanded(es, Link, |es|) <= 200 * 1024 * 1024
  }

  lemma AllowedExactly(es: seq<Entry>)
    ensures Filterable(es) <==> Allowed(es)
  {
    hide *;
    FilterableParts(es);
    AllowedParts(es);
    if forall i :: 0 <= i < |es| ==> Plain(es[i], i == 0) {
      PlainApart(es);
      if Distinct(es) {
        FilesCounted(es);
        TopFilesCounted(es);
        PlainLinks(es);
      }
    }
    SafeInParts(es);
  }

  lemma AllowedParts(es: seq<Entry>)
    ensures Allowed(es) <==>
      && |es| <= 20000 && |Files(es)| <= 10000 && 1 <= |TopFiles(es)| <= 128
      && (forall i :: 0 <= i < |es| ==> Plain(es[i], i == 0)) && SpelledOnce(es)
      && (forall e :: e in es && e.kind == Link ==> exists f :: f in es && f.kind == Regular && LinkTo(e, f))
      && Expanded(es, Regular, |es|) + Expanded(es, Link, |es|) <= 209_715_200
    ensures MAX_OUTPUT_FILES == 128 && MAX_EXPANDED_BYTES == 209_715_200
  {
    hide Files, TopFiles, Plain, SpelledOnce, LinkTo, Expanded;
  }

  lemma SafeInParts(es: seq<Entry>)
    ensures Safe(es) <==>
      |es| <= 20000 && FileCount(es) <= 10000 && Distinct(es) && forall i :: 0 <= i < |es| ==> Plain(es[i], i == 0)
  {
    hide SafeHeader, SafeBody, Plain, Distinct;
    forall i | 0 <= i < |es| ensures SafeHeader(es[i], i == 0) && SafeBody(es[i]) <==> Plain(es[i], i == 0) {
      PlainExactly(es[i], i == 0);
    }
  }

  lemma PlainApart(es: seq<Entry>)
    requires forall i :: 0 <= i < |es| ==> Plain(es[i], i == 0)
    ensures SpelledOnce(es) <==> Distinct(es)
  {
    hide Inner, Spelled, ValidDestination, NameOf, Plain;
    forall i, j | 0 <= i < j < |es|
      ensures NameOf(es[i]) == NameOf(es[j]) <==>
        exists path :: Inner(path) && Spelled(es[i].name, path) && Spelled(es[j].name, path)
    {
      PlainName(es[i], i == 0);
      PlainName(es[j], false);
    }
  }

  /** The paths an entry spells. */
  lemma PlainName(e: Entry, first: bool)
    requires Plain(e, first)
    ensures forall path :: Inner(path) && Spelled(e.name, path) ==> NameOf(e) == path && path != "."
    ensures (NameOf(e) == "." && first) || (Inner(NameOf(e)) && Spelled(e.name, NameOf(e)) && NameOf(e) != ".")
  {
    hide ValidDestination, NameOf, Inner, Spelled;
    PlainExactly(e, first);
    RootDotName(e);
    if !RootDot(e) {
      NameIsSpelled(e);
      assert SafeHeader(e, first);
      InnerIsValid(NameOf(e));
    }
    forall path | Inner(path) && Spelled(e.name, path) ensures NameOf(e) == path && path != "." {
      InnerIsValid(path);
      InnerEnds(path);
      SpelledIsName(e, path);
    }
  }

  lemma PlainLinks(es: seq<Entry>)
    requires Distinct(es) && forall i :: 0 <= i < |es| ==> Plain(es[i], i == 0)
    ensures AllResolve(es) <==>
      forall e :: e in es && e.kind == Link ==> exists f :: f in es && f.kind == Regular && LinkTo(e, f)
  {
    hide Plain, Distinct, Resolves, LinkTo;
    forall e | e in es && e.kind == Link
      ensures (exists j: nat :: Resolves(es, e, j)) <==> exists f :: f in es && f.kind == Regular && LinkTo(e, f) {
      PlainLink(es, e);
    }
    if AllResolve(es) {
      forall e | e in es && e.kind == Link ensures exists j: nat :: Resolves(es, e, j) {
        var i :| 0 <= i < |es| && es[i] == e;
      }
    }
  }

  lemma PlainLink(es: seq<Entry>, e: Entry)
    requires e in es && e.kind == Link && forall i :: 0 <= i < |es| ==> Plain(es[i], i == 0)
    ensures (exists j: nat :: Resolves(es, e, j)) <==> exists f :: f in es && f.kind == Regular && LinkTo(e, f)
  {
    hide Plain, Inner, Spelled, NameOf;
    var i :| 0 <= i < |es| && es[i] == e;
    LinkInner(e, i == 0);
    if j: nat :| Resolves(es, e, j) {
      PlainName(es[j], j == 0);
      DotBefore(e.link);
      assert LinkTo(e, es[j]);
    }
    if f :| f in es && f.kind == Regular && LinkTo(e, f) {
      var j :| 0 <= j < |es| && es[j] == f;
      LinkResolves(es, e, j, i == 0);
    }
  }

  lemma LinkInner(e: Entry, first: bool)
    requires Plain(e, first) && e.kind == Link
    ensures Inner(TrimDot(e.link)) && TrimDot(e.link) != "."
  {
    hide Inner, ValidDestination, Spelled;
    LinkPath(e);
    InnerIsValid(TrimDot(e.link));
    InnerEnds(TrimDot(e.link));
  }

  lemma LinkResolves(es: seq<Entry>, e: Entry, j: nat, first: bool)
    requires j < |es| && Plain(e, first) && Plain(es[j], j == 0) && es[j].kind == Regular && LinkTo(e, es[j])
    ensures Resolves(es, e, j)
  {
    hide Plain, Inner, Spelled, NameOf, LinkTo;
    PlainUser(e, first);
    PlainUser(es[j], j == 0);
    PlainName(es[j], j == 0);
    LinkIs(e, es[j]);
  }

  lemma LinkIs(e: Entry, f: Entry)
    requires LinkTo(e, f) && forall path :: Inner(path) && Spelled(f.name, path) ==> NameOf(f) == path
    ensures NameOf(f) == TrimDot(e.link) && f.mode == e.mode
  {
    hide Inner, Spelled, NameOf, ValidDestination;
    var path :| (e.link == path || e.link == "./" + path) && Spelled(f.name, path) && Inner(path);
    InnerIsValid(path);
    InnerEnds(path);
    assert ("./" + path)[2..] == path;
  }

  lemma PlainUser(e: Entry, first: bool)
    requires Plain(e, first)
    ensures e.uid == 1000 && e.gid == 1000
  {
  }

  lemma {:induction false} FilesCounted(es: seq<Entry>)
    requires Distinct(es)
    ensures FileCount(es) == |Files(es)|
  {
    hide Distinct;
    if es != [] {
      var n := |es| - 1;
      var init, e := es[..n], es[n];
      assert es == init + [e];
      FirstDistinct(es, n);
      FilesCounted(init);
      NotAgain(es, n);
      assert Files(es) == Files(init) + (if e.kind != Directory then {e} else {});
    }
  }

  lemma FirstDistinct(es: seq<Entry>, n: nat)
    requires Distinct(es) && n <= |es|
    ensures Distinct(es[..n])
  {
    hide NameOf;
  }

  lemma NotAgain(es: seq<Entry>, n: nat)
    requires Distinct(es) && n < |es|
    ensures es[n] !in es[..n]
  {
  }

  lemma {:induction false} TopFilesCounted(es: seq<Entry>)
    requires Distinct(es) && forall e :: e in es ==> Plain(e, true) || Plain(e, false)
    ensures |Products(es)| == |TopFiles(es)|
  {
    hide NameOf, Plain, TopLevel, Spelled, Product, Distinct;
    if es != [] {
      var n := |es| - 1;
      var init, e := es[..n], es[n];
      assert es == init + [e] && e in es;
      FirstDistinct(es, n);
      assert forall f :: f in init ==> f in es;
      TopFilesCounted(init);
      NotAgain(es, n);
      ProductIsTop(e, Plain(e, true));
      assert TopFiles(es) == TopFiles(init) + (if Product(e) then {e} else {});
    }
  }

  lemma ProductIsTop(e: Entry, first: bool)
    requires Plain(e, first)
    ensures Product(e) <==> e.kind != Directory && exists path :: TopLevel(path) && Spelled(e.name, path)
  {
    hide TopLevel, Spelled, NameOf;
    PlainExactly(e, first);
    ProductExactly(e);
    if Product(e) {
      ProductValid(e, first);
    }
  }

  lemma ProductValid(e: Entry, first: bool)
    requires SafeHeader(e, first) && Product(e)
    ensures ValidDestination(NameOf(e)) && e.kind != Directory
  {
  }

  ghost function Written(es: seq<Entry>, k: nat): nat
    requires k <= |es|
  {
    if k == 0 then 0 else Written(es, k - 1) + (if Product(es[k - 1]) then |Bytes(es, es[k - 1])| else 0)
  }

  /** What is written stays within the bound, aliases counted in full. */
  lemma {:induction false} WrittenWithin(es: seq<Entry>, k: nat)
    requires k <= |es| && forall i :: 0 <= i < |es| ==> SafeBody(es[i])
    ensures Written(es, k) <= Expanded(es, Regular, k) + Expanded(es, Link, k)
  {
    hide Bytes, NameOf;
    if k > 0 {
      WrittenWithin(es, k - 1);
      assert SafeBody(es[k - 1]);
    }
  }

  lemma {:induction false} ExpandedGrows(es: seq<Entry>, kind: Kind, j: nat, k: nat)
    requires j <= k <= |es|
    ensures Expanded(es, kind, j) <= Expanded(es, kind, k)
  {
    if j < k {
      ExpandedGrows(es, kind, j, k - 1);
    }
  }

  // ----------------------------------------------------------------- the filter

  ghost predicate Indexed(es: seq<Entry>, k: nat, members: map<string, nat>)
    requires k <= |es|
  {
    && (forall i :: 0 <= i < k ==> NameOf(es[i]) in members && members[NameOf(es[i])] == i)
    && (forall name :: name in members ==> members[name] < k && NameOf(es[members[name]]) == name)
  }

  /** The bytes of regular files are there, links have none yet. */
  ghost predicate Loaded(es: seq<Entry>, k: nat, data: seq<string>)
    requires k <= |es|
  {
    |data| == k && forall i :: 0 <= i < k ==> data[i] == if es[i].kind == Regular then es[i].data else ""
  }

  ghost predicate Chosen(es: seq<Entry>, k: nat, selected: seq<nat>)
    requires k <= |es|
  {
    && |selected| == |Products(es[..k])| <= MAX_OUTPUT_FILES
    && (forall i :: 0 <= i < |selected| ==> selected[i] < k && es[selected[i]] == Products(es[..k])[i])
  }

  lemma IndexedNext(es: seq<Entry>, k: nat, members: map<string, nat>)
    requires k < |es| && Indexed(es, k, members)
    ensures NameOf(es[k]) in members <==> exists i :: 0 <= i < k && NameOf(es[i]) == NameOf(es[k])
    ensures NameOf(es[k]) !in members ==> Indexed(es, k + 1, members[NameOf(es[k]) := k])
  {
  }

  lemma LoadedNext(es: seq<Entry>, k: nat, data: seq<string>)
    requires k < |es| && Loaded(es, k, data)
    ensures Loaded(es, k + 1, data + [if es[k].kind == Regular then es[k].data else ""])
  {
  }

  lemma ChosenNext(es: seq<Entry>, k: nat, selected: seq<nat>)
    requires k < |es| && Chosen(es, k, selected)
    ensures Product(es[k]) && |selected| < MAX_OUTPUT_FILES ==> Chosen(es, k + 1, selected + [k])
    ensures !Product(es[k]) ==> Chosen(es, k + 1, selected)
    ensures |Products(es[..k + 1])| == |selected| + (if Product(es[k]) then 1 else 0)
  {
    hide Product;
    NextFilterable(es, k);
  }

  /** What has been read of the archive. */
  class Inventory {
    var members: map<string, nat>
    var data: seq<string>
    var selected: seq<nat>
    var files: nat
    var total: nat

    ghost predicate Holds(es: seq<Entry>, k: nat)
      reads this
    {
      && k <= |es| && Safe(es[..k]) && files == FileCount(es[..k])
      && total == Expanded(es, Regular, k) <= MAX_EXPANDED_BYTES
      && Indexed(es, k, members) && Loaded(es, k, data) && Chosen(es, k, selected)
    }

    constructor ()
      ensures forall es :: Holds(es, 0)
    {
      members, data, selected, files, total := map[], [], [], 0, 0;
    }

    lemma HoldsParts(es: seq<Entry>, k: nat)
      requires Holds(es, k)
      ensures k <= |es| && Safe(es[..k]) && files == FileCount(es[..k])
      ensures total == Expanded(es, Regular, k) <= MAX_EXPANDED_BYTES
      ensures Indexed(es, k, members) && Loaded(es, k, data) && Chosen(es, k, selected)
    {
    }

    lemma HoldsAgain(es: seq<Entry>, k: nat)
      requires k <= |es| && Safe(es[..k]) && files == FileCount(es[..k])
      requires total == Expanded(es, Regular, k) <= MAX_EXPANDED_BYTES
      requires Indexed(es, k, members) && Loaded(es, k, data) && Chosen(es, k, selected)
      ensures Holds(es, k)
    {
    }

    /** The body of the next entry: `None` refuses the archive. */
    method ReadBody(e: Entry) returns (bytes: Option<string>)
      requires total <= MAX_EXPANDED_BYTES
      modifies this`total
      ensures bytes.Some? <==> SafeBody(e) && (e.kind == Regular ==> old(total) + |e.data| <= MAX_EXPANDED_BYTES)
      ensures bytes.Some? ==> bytes.value == (if e.kind == Regular then e.data else "")
      ensures bytes.Some? ==> total == old(total) + (if e.kind == Regular then |e.data| else 0)
    {
      match e.kind
      case Directory =>
        return if e.size != 0 || e.link != "" then None else Some("");
      case Regular =>
        if e.link != "" || e.size < 0 || e.size > MAX_FILE_BYTES || e.size > MAX_EXPANDED_BYTES - total {
          return None;
        }
        total := total + e.size;
        bytes := if |e.data| != e.size then None else Some(e.data);
      case Link =>
        var target := TrimDot(e.link);
        return if e.size != 0 || !ValidDestination(target) || |target| > 4096 then None else Some("");
      case Other =>
        return None;
    }

    /** The next entry is taken in, or refuses the archive. */
    method Take(es: seq<Entry>, k: nat) returns (ok: bool)
      requires Holds(es, k) && k < |es|
      modifies this
      ensures ok ==> Holds(es, k + 1)
      ensures !ok ==> !Filterable(es)
    {
      hide *;
      HoldsParts(es, k);
      NextSafe(es, k);
      NextFilterable(es, k);
      IndexedNext(es, k, members);
      LoadedNext(es, k, data);
      ChosenNext(es, k, selected);
      var e, name := es[k], NameOf(es[k]);
      ok := k + 1 <= 2 * MAX_FILES && SafeHeader(e, k == 0) && name !in members;
      if !ok { return; }
      members := members[name := k];
      if e.kind != Directory {
        files := files + 1;
        ok := files <= MAX_FILES;
        if !ok { return; }
      }
      var bytes := ReadBody(e);
      ok := bytes.Some?;
      if !ok { return; }
      data := data + [bytes.value];
      if Product(e) {
        selected := selected + [k];
        ok := |selected| <= MAX_OUTPUT_FILES;
      }
      if ok {
        HoldsAgain(es, k + 1);
      }
    }

    /** Once all names are known every alias gets the bytes of its regular file. */
    method ResolveAliases(es: seq<Entry>) returns (ok: bool)
      requires Holds(es, |es|)
      modifies this`data, this`total
      ensures ok ==> AllResolve(es) && Expanded(es, Regular, |es|) + Expanded(es, Link, |es|) <= MAX_EXPANDED_BYTES
      ensures !ok ==> !AllResolve(es) || Expanded(es, Regular, |es|) + Expanded(es, Link, |es|) > MAX_EXPANDED_BYTES
      ensures ok ==> AllLoaded(es, |es|, data)
    {
      hide *;
      HoldsParts(es, |es|);
      assert es[..|es|] == es;
      SafeIsDistinct(es);
      LoadedAll(es, data);
      var i := 0;
      while i < |es|
        invariant 0 <= i <= |es| && Indexed(es, |es|, members) && AllLoaded(es, i, data)
        invariant total == Expanded(es, Regular, |es|) + Expanded(es, Link, i) <= MAX_EXPANDED_BYTES
        invariant forall j :: 0 <= j < i && es[j].kind == Link ==> exists t: nat :: Resolves(es, es[j], t)
      {
        var e := es[i];
        AliasNext(es, i, members, data);
        if e.kind == Link {
          var target := TrimDot(e.link);
          ok := target in members && es[members[target]].kind == Regular && es[members[target]].mode == e.mode
            && es[members[target]].uid == e.uid && es[members[target]].gid == e.gid;
          if !ok {
            Unresolved(es, i);
            return;
          }
          var bytes := data[members[target]];
          if |bytes| > MAX_EXPANDED_BYTES - total {
            ExpandedGrows(es, Link, i + 1, |es|);
            return false;
          }
          total := total + |bytes|;
          data := data[i := bytes];
        }
        i := i + 1;
      }
      AllResolved(es);
      ok := true;
    }
  }

  lemma SafeIsDistinct(es: seq<Entry>)
    requires Safe(es)
    ensures Distinct(es)
  {
  }

  lemma Unresolved(es: seq<Entry>, i: nat)
    requires i < |es| && es[i].kind == Link && !(exists j: nat :: Resolves(es, es[i], j))
    ensures !AllResolve(es)
  {
  }

  lemma AllResolved(es: seq<Entry>)
    requires forall i :: 0 <= i < |es| && es[i].kind == Link ==> exists j: nat :: Resolves(es, es[i], j)
    ensures AllResolve(es)
  {
  }

  lemma OutputsAre(es: seq<Entry>, outputs: seq<Output>)
    requires |outputs| == |Products(es)|
    requires forall i ::
      0 <= i < |outputs| ==> outputs[i] == Output(NameOf(Products(es)[i]), Bytes(es, Products(es)[i]))
    ensures outputs == Outputs(es)
  {
  }

  /** All regular files have their bytes, and so have the first links. */
  ghost predicate AllLoaded(es: seq<Entry>, k: nat, data: seq<string>) {
    |data| == |es| && forall i :: 0 <= i < |es| && (es[i].kind == Regular || (i < k && es[i].kind == Link)) ==>
      data[i] == Bytes(es, es[i])
  }

  lemma LoadedAll(es: seq<Entry>, data: seq<string>)
    requires Loaded(es, |es|, data)
    ensures AllLoaded(es, 0, data) && Expanded(es, Link, 0) == 0
  {
  }

  lemma AliasNext(es: seq<Entry>, i: nat, members: map<string, nat>, data: seq<string>)
    requires i < |es| && Distinct(es) && Indexed(es, |es|, members) && AllLoaded(es, i, data)
    ensures es[i].kind != Link ==> AllLoaded(es, i + 1, data) && Expanded(es, Link, i + 1) == Expanded(es, Link, i)
    ensures i < |data|
    ensures es[i].kind == Link ==>
      var target := TrimDot(es[i].link);
      && (target in members ==> members[target] < |data| && members[target] < |es|)
      && (target in members ==>
            var m := es[members[target]];
            (Resolves(es, es[i], members[target]) <==>
              m.kind == Regular && m.mode == es[i].mode && m.uid == es[i].uid && m.gid == es[i].gid))
      && ((exists j: nat :: Resolves(es, es[i], j)) <==> target in members && Resolves(es, es[i], members[target]))
      && (target in members && Resolves(es, es[i], members[target]) ==>
            && AllLoaded(es, i + 1, data[i := data[members[target]]])
            && Expanded(es, Link, i + 1) == Expanded(es, Link, i) + |data[members[target]]|)
  {
    if es[i].kind == Link {
      var target := TrimDot(es[i].link);
      if target in members && Resolves(es, es[i], members[target]) {
        BytesOf(es, es[i], members[target]);
      }
    }
  }

  /** `filterCargoBuildOutputs`: `intact` when the archive ends as it should. */
  method FilterOutputs(es: seq<Entry>, intact: bool) returns (ok: bool, outputs: seq<Output>)
    ensures ok <==> intact && Filterable(es)
    ensures ok <==> intact && Allowed(es)
    ensures ok ==> outputs == Outputs(es)
    ensures ok ==> Filtered(es, outputs)
  {
    hide *;
    AllowedExactly(es);
    if Filterable(es) {
      OutputsFiltered(es);
    }
    var inventory := new Inventory();
    var k := 0;
    outputs := [];
    while k < |es|
      invariant 0 <= k <= |es| && fresh(inventory) && inventory.Holds(es, k)
    {
      ok := inventory.Take(es, k);
      if !ok { return; }
      k := k + 1;
    }
    inventory.HoldsParts(es, |es|);
    assert es[..|es|] == es;
    var selected := inventory.selected;
    ChosenAll(es, selected);
    ok := inventory.ResolveAliases(es);
    FilterableParts(es);
    ok := ok && intact && |selected| != 0;
    if !ok { return; }
    var data := inventory.data;
    var i := 0;
    while i < |selected|
      invariant 0 <= i <= |selected| && |outputs| == i
      invariant forall j :: 0 <= j < i ==> outputs[j] == Output(NameOf(Products(es)[j]), Bytes(es, Products(es)[j]))
    {
      ProductLoaded(es, selected, data, i);
      outputs := outputs + [Output(NameOf(es[selected[i]]), data[selected[i]])];
      i := i + 1;
    }
    OutputsAre(es, outputs);
  }

  lemma ChosenAll(es: seq<Entry>, selected: seq<nat>)
    requires Chosen(es, |es|, selected)
    ensures |selected| == |Products(es)| <= MAX_OUTPUT_FILES
    ensures forall i :: 0 <= i < |selected| ==> selected[i] < |es| && es[selected[i]] == Products(es)[i]
  {
    assert es[..|es|] == es;
  }

  lemma ProductLoaded(es: seq<Entry>, selected: seq<nat>, data: seq<string>, i: nat)
    requires i < |selected| == |Products(es)| && selected[i] < |es| && es[selected[i]] == Products(es)[i]
    requires AllLoaded(es, |es|, data) && Safe(es)
    ensures selected[i] < |data| && data[selected[i]] == Bytes(es, Products(es)[i])
  {
    ProductsOf(es);
    assert Products(es)[i] in Products(es);
    assert SafeBody(es[selected[i]]);
  }

  lemma FilterableParts(es: seq<Entry>)
    ensures Filterable(es) <==>
      (&& Safe(es) && AllResolve(es)
       && Expanded(es, Regular, |es|) + Expanded(es, Link, |es|) <= MAX_EXPANDED_BYTES
       && 0 < |Products(es)| <= MAX_OUTPUT_FILES)
  {
  }

  lemma {:induction false} PrefixSafe(es: seq<Entry>, k: nat)
    requires k <= |es| && Safe(es)
    ensures Safe(es[..k])
    decreases |es|
  {
    hide SafeHeader, SafeBody;
    if k < |es| {
      var init := es[..|es| - 1];
      assert Safe(init);
      PrefixSafe(init, k);
      assert init[..k] == es[..k];
    } else {
      assert es[..k] == es;
    }
  }

  lemma NextSafe(es: seq<Entry>, k: nat)
    requires k < |es| && Safe(es[..k])
    ensures Safe(es[..k + 1]) <==>
      (&& k + 1 <= 2 * MAX_FILES && SafeHeader(es[k], k == 0) && SafeBody(es[k]) &&
        !(exists i :: 0 <= i < k && NameOf(es[i]) == NameOf(es[k]))
       && FileCount(es[..k]) + (if es[k].kind != Directory then 1 else 0) <= MAX_FILES)
    ensures FileCount(es[..k + 1]) == FileCount(es[..k]) + (if es[k].kind != Directory then 1 else 0)
  {
    hide SafeHeader, SafeBody, NameOf;
    var more := es[..k + 1];
    assert more[..k] == es[..k] && more[k] == es[k];
    assert forall i :: 0 <= i < k ==> es[..k][i] == es[i] == more[i];
  }

  lemma {:induction false} ProductsPrefix(es: seq<Entry>, k: nat)
    requires k <= |es|
    ensures |Products(es[..k])| <= |Products(es)|
    decreases |es|
  {
    if k < |es| {
      ProductsPrefix(es[..|es| - 1], k);
      assert es[..|es| - 1][..k] == es[..k];
    } else {
      assert es[..k] == es;
    }
  }

  lemma NextFilterable(es: seq<Entry>, k: nat)
    requires k < |es|
    ensures Filterable(es) ==>
      && Safe(es[..k + 1]) && |Products(es[..k + 1])| <= MAX_OUTPUT_FILES
      && Expanded(es, Regular, k + 1) <= MAX_EXPANDED_BYTES
    ensures Expanded(es, Regular, k + 1) ==
      Expanded(es, Regular, k) + (if es[k].kind == Regular then |es[k].data| else 0)
    ensures Products(es[..k + 1]) == Products(es[..k]) + (if Product(es[k]) then [es[k]] else [])
  {
    hide Safe, Product;
    assert es[..k + 1][..k] == es[..k];
    if Filterable(es) {
      PrefixSafe(es, k + 1);
      ProductsPrefix(es, k + 1);
      ExpandedGrows(es, Regular, k + 1, |es|);
    }
  }
}
