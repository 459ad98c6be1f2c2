/** An npm transaction member: an exact file or tree, recorded, compared and
    removed as a whole. */
module NpmMember {
  import opened Wrappers
  import opened Text
  import opened FileSystem

  /** Paths relative to the member; the empty path is the member itself. */
  datatype Member = Member(directories: map<Path, Object>, files: map<Path, Object>)

  /** What a walk from the root comes by. */
  function Below(names: Names, root: Path): set<Path> {
    set p | p in names && Prefix(root, p) :: p[|root|..]
  }

  lemma BelowMeans(names: Names, root: Path, rel: Path)
    ensures rel in Below(names, root) <==> root + rel in names
  {
    assert (root + rel)[|root|..] == rel && (root + rel)[..|root|] == root;
    if rel in Below(names, root) {
      var p :| p in names && Prefix(root, p) && p[|root|..] == rel;
      assert p == root + rel;
    }
  }

  /** A recording: its own root, directories and single-link files. */
  predicate Recorded(m: Member) {
    && m.directories.Keys !! m.files.Keys && ([] in m.directories || [] in m.files)
    && (forall rel :: rel in m.directories ==> m.directories[rel].Dir?)
    && (forall rel :: rel in m.files ==> m.files[rel].File? && m.files[rel].links == 1)
  }

  predicate Matching(names: Names, root: Path, m: Member, rel: Path) {
    && root + rel in names
    && (if rel in m.directories then names[root + rel] == m.directories[rel]
        else rel in m.files && names[root + rel] == m.files[rel])
  }

  /** The tree on disk is the recorded one, no more and no less. */
  ghost predicate Exact(names: Names, root: Path, m: Member) {
    Below(names, root) == m.directories.Keys + m.files.Keys && forall rel :: rel in Below(names, root) ==>
      Matching(names, root, m, rel)
  }

  ghost predicate Recordable(names: Names, root: Path) {
    root in names && forall rel :: rel in Below(names, root) ==>
      root + rel in names && (names[root + rel].Dir? || SingleLinkFile(names, root + rel))
  }

  /** What exact means: the same names, and at each the very object recorded. */
  lemma ExactExactly(names: Names, root: Path, m: Member)
    requires m.directories.Keys !! m.files.Keys
    ensures Exact(names, root, m) <==>
      && (forall rel :: root + rel in names <==> rel in m.directories || rel in m.files)
      && (forall rel :: rel in m.directories && root + rel in names ==> names[root + rel] == m.directories[rel])
      && forall rel :: rel in m.files && root + rel in names ==> names[root + rel] == m.files[rel]
  {
    hide Below, Matching;
    forall rel ensures rel in Below(names, root) <==> root + rel in names {
      BelowMeans(names, root, rel);
    }
    forall rel ensures Matching(names, root, m, rel) <==>
      && root + rel in names
      && if rel in m.directories then names[root + rel] == m.directories[rel]
        else rel in m.files && names[root + rel] == m.files[rel] {
      MatchingMeans(names, root, m, rel);
    }
    assert Below(names, root) == m.directories.Keys + m.files.Keys <==>
      forall rel :: rel in Below(names, root) <==> rel in m.directories || rel in m.files;
  }

  lemma MatchingMeans(names: Names, root: Path, m: Member, rel: Path)
    ensures Matching(names, root, m, rel) <==>
      && root + rel in names
      && if rel in m.directories then names[root + rel] == m.directories[rel]
        else rel in m.files && names[root + rel] == m.files[rel]
  {
  }

  /** Which trees can be recorded: directories, and files without a second link. */
  lemma RecordableExactly(names: Names, root: Path)
    ensures Recordable(names, root) <==>
      && root in names
      && forall p :: p in names && |p| >= |root| && p[..|root|] == root ==>
          names[p].Dir? || (names[p].File? && names[p].links == 1)
  {
    hide Below;
    forall rel ensures rel in Below(names, root) <==> root + rel in names {
      BelowMeans(names, root, rel);
    }
    assert forall rel :: (root + rel)[..|root|] == root;
    assert forall p: Path :: |p| >= |root| && p[..|root|] == root ==> root + p[|root|..] == p;
  }

  /** The names met so far are recorded. */
  ghost predicate Walked(names: Names, root: Path, m: Member, seen: set<Path>) {
    && m.directories.Keys + m.files.Keys == seen && m.directories.Keys !! m.files.Keys
    && (forall rel :: rel in seen ==> Matching(names, root, m, rel))
    && (forall rel :: rel in m.directories ==> m.directories[rel].Dir?)
    && (forall rel :: rel in m.files ==> m.files[rel].File? && m.files[rel].links == 1)
  }

  function Noted(names: Names, root: Path, m: Member, rel: Path): Member
    requires root + rel in names
  {
    if names[root + rel].Dir? then m.(directories := m.directories[rel := names[root + rel]])
    else m.(files := m.files[rel := names[root + rel]])
  }

  lemma WalkedNothing(names: Names, root: Path)
    ensures Walked(names, root, Member(map[], map[]), {})
  {
  }

  lemma WalkedNext(names: Names, root: Path, m: Member, seen: set<Path>, rel: Path)
    requires Walked(names, root, m, seen) && rel !in seen && root + rel in names
    requires names[root + rel].Dir? || SingleLinkFile(names, root + rel)
    ensures Walked(names, root, Noted(names, root, m, rel), seen + {rel})
  {
  }

  lemma WalkedAll(names: Names, root: Path, m: Member)
    requires Walked(names, root, m, Below(names, root)) && root in names
    ensures Recorded(m) && Exact(names, root, m) && Recordable(names, root)
    ensures forall rel :: rel in m.directories ==> m.directories[rel].Dir?
    ensures forall rel :: rel in m.files ==> m.files[rel].File? && m.files[rel].links == 1
  {
    BelowMeans(names, root, []);
    assert root + [] == root;
    forall rel | rel in Below(names, root)
      ensures root + rel in names && (names[root + rel].Dir? || SingleLinkFile(names, root + rel)) {
      assert Matching(names, root, m, rel);
    }
  }

  /** `snapshotNPMTransactionMember`. */
  method Snapshot(disk: Disk, root: Path) returns (ok: bool, m: Member)
    modifies disk`faults
    ensures disk.faults >= old(disk.faults)
    ensures ok <==> disk.faults == old(disk.faults) && Recordable(disk.names, root)
    ensures ok ==> Recorded(m) && Exact(disk.names, root, m)
    ensures ok ==>
      && (forall rel :: rel in m.directories ==> m.directories[rel].Dir?)
      && forall rel :: rel in m.files ==> m.files[rel].File? && m.files[rel].links == 1
  {
    hide Walked, Exact, Recorded, Below;
    m := Member(map[], map[]);
    ok := disk.Try();
    ok := ok && root in disk.names;
    if !ok { return; }
    var names := disk.names;
    var walk := Below(names, root);
    var todo := walk;
    WalkedNothing(names, root);
    assert walk - todo == {};
    while ok && todo != {}
      invariant disk.names == names && disk.faults >= old(disk.faults) && todo <= walk
      invariant ok ==> disk.faults == old(disk.faults) && Walked(names, root, m, walk - todo)
      invariant !ok && disk.faults == old(disk.faults) ==> !Recordable(names, root)
      decreases ok, |todo|
    {
      var rel :| rel in todo;
      BelowMeans(names, root, rel);
      ok := disk.Try();
      if ok {
        ok := names[root + rel].Dir? || SingleLinkFile(names, root + rel);
        if ok {
          WalkedNext(names, root, m, walk - todo, rel);
          assert walk - todo + {rel} == walk - (todo - {rel});
          m := Noted(names, root, m, rel);
        }
      }
      todo := todo - {rel};
    }
    if ok {
      assert walk - todo == walk;
      WalkedAll(names, root, m);
    }
  }

  /** `verify`: every name met is recorded and unchanged, and as many are met as
      are recorded. */
  method Verify(disk: Disk, root: Path, m: Member) returns (ok: bool)
    requires Recorded(m)
    modifies disk`faults
    ensures disk.faults >= old(disk.faults)
    ensures ok <==> disk.faults == old(disk.faults) && Exact(disk.names, root, m)
  {
    var names := disk.names;
    BelowMeans(names, root, []);
    assert root + [] == root;
    ok := disk.Try();
    ok := ok && root in names;
    if !ok { return; }
    var walk := Below(names, root);
    var todo, count := walk, 0;
    while ok && todo != {}
      invariant disk.names == names && disk.faults >= old(disk.faults) && todo <= walk
      invariant ok ==> disk.faults == old(disk.faults) && count + |todo| == |walk|
      invariant ok ==> forall rel :: rel in walk - todo ==> Matching(names, root, m, rel)
      invariant !ok && disk.faults == old(disk.faults) ==> !Exact(names, root, m)
      decreases ok, |todo|
    {
      var rel :| rel in todo;
      BelowMeans(names, root, rel);
      ok := disk.Try();
      ok := ok && Matching(names, root, m, rel);
      count := count + 1;
      todo := todo - {rel};
    }
    if ok {
      CountedExact(names, root, m);
      ok := count == |m.directories| + |m.files|;
    }
  }

  /** Meeting only recorded names, and as many as there are, is meeting them all. */
  lemma CountedExact(names: Names, root: Path, m: Member)
    requires Recorded(m) && forall rel :: rel in Below(names, root) ==> Matching(names, root, m, rel)
    ensures |Below(names, root)| == |m.directories| + |m.files| <==> Exact(names, root, m)
  {
    var all := m.directories.Keys + m.files.Keys;
    assert |all| == |m.directories.Keys| + |m.files.Keys|;
    assert Below(names, root) <= all;
    if |Below(names, root)| == |all| {
      SubsetOfSameSize(Below(names, root), all);
    }
  }

  // ------------------------------------------------------------------- removal

  /** The names left after these were removed. */
  function Without(names: Names, root: Path, gone: set<Path>): Names {
    names - (set rel | rel in gone :: root + rel)
  }

  lemma WithoutMeans(names: Names, root: Path, gone: set<Path>, rel: Path)
    ensures root + rel in Without(names, root, gone) <==> root + rel in names && rel !in gone
    ensures root + rel in Without(names, root, gone) ==> Without(names, root, gone)[root + rel] == names[root + rel]
  {
    if root + rel in (set r | r in gone :: root + r) {
      var r :| r in gone && root + r == root + rel;
      assert (root + r)[|root|..] == r && (root + rel)[|root|..] == rel;
    }
  }

  lemma WithoutNothing(names: Names, root: Path)
    ensures Without(names, root, {}) == names
  {
  }

  lemma WithoutMore(names: Names, root: Path, gone: set<Path>, rel: Path)
    ensures Without(names, root, gone) - {root + rel} == Without(names, root, gone + {rel})
  {
    assert (set r | r in gone + {rel} :: root + r) == (set r | r in gone :: root + r) + {root + rel};
  }

  /** The length of the name a relative path is written as. */
  function Length(rel: Path): nat {
    if rel == [] then 1 else |Join(rel)|
  }

  lemma {:induction false} JoinLonger(rel: Path, name: string)
    requires rel != []
    ensures |Join(rel + [name])| > |Join(rel)|
  {
    if |rel| > 1 {
      JoinLonger(rel[1..], name);
      assert (rel + [name])[1..] == rel[1..] + [name];
    }
  }

  lemma {:induction false} LongestExists(todo: set<Path>) returns (d: Path)
    requires todo != {}
    ensures d in todo && forall e :: e in todo ==> Length(e) <= Length(d)
  {
    d :| d in todo;
    if todo != {d} {
      var longest := LongestExists(todo - {d});
      if Length(longest) > Length(d) {
        d := longest;
      }
    }
  }

  /** Once the files and all longer names are gone, the longest directory left is
      empty. */
  lemma EmptyWhenReached(start: Names, root: Path, m: Member, todo: set<Path>, d: Path)
    requires Exact(start, root, m) && todo <= m.directories.Keys && d in todo && d != []
    requires forall e :: e in todo ==> Length(e) <= Length(d)
    ensures !HasChild(Without(start, root, Done(m, todo)), root + d)
  {
    var gone := Done(m, todo);
    var names := Without(start, root, gone);
    if q :| q in names && |q| > 0 && Parent(q) == root + d {
      var rel := d + [q[|q| - 1]];
      assert q == root + rel;
      WithoutMeans(start, root, gone, rel);
      BelowMeans(start, root, rel);
      JoinLonger(d, q[|q| - 1]);
    }
  }

  lemma RootEmpty(start: Names, root: Path, m: Member)
    requires Exact(start, root, m)
    ensures !HasChild(Without(start, root, Done(m, {})), root)
  {
    var gone := Done(m, {});
    var names := Without(start, root, gone);
    if q :| q in names && |q| > 0 && Parent(q) == root {
      var rel := [q[|q| - 1]];
      assert q == root + rel;
      WithoutMeans(start, root, gone, rel);
      BelowMeans(start, root, rel);
    }
  }

  /** Nothing but some of these names is gone. */
  ghost predicate GoneWithin(start: Names, names: Names, root: Path, some: set<Path>) {
    exists gone :: gone <= some && names == Without(start, root, gone)
  }

  lemma GoneSome(start: Names, root: Path, gone: set<Path>, some: set<Path>)
    requires gone <= some
    ensures GoneWithin(start, Without(start, root, gone), root, some)
  {
  }

  /** Files, in any order. */
  method RemoveFiles(disk: Disk, root: Path, m: Member) returns (ok: bool)
    requires Tree(disk.names) && Recorded(m) && Exact(disk.names, root, m) && |root| > 0
    modifies disk
    ensures Tree(disk.names) && disk.faults >= old(disk.faults)
    ensures GoneWithin(old(disk.names), disk.names, root, m.files.Keys)
    ensures ok <==> disk.faults == old(disk.faults)
    ensures ok ==> disk.names == Without(old(disk.names), root, m.files.Keys)
  {
    hide *;
    ghost var start := disk.names;
    var todo := m.files.Keys;
    ghost var gone: set<Path> := {};
    ok := true;
    WithoutNothing(start, root);
    while ok && todo != {}
      invariant todo <= m.files.Keys && gone <= m.files.Keys && Tree(disk.names) && disk.faults >= old(disk.faults)
      invariant ok <==> disk.faults == old(disk.faults)
      invariant disk.names == Without(start, root, gone) && (ok ==> gone == m.files.Keys - todo)
      decreases ok, |todo|
    {
      var rel :| rel in todo;
      FileThere(start, root, m, gone, rel);
      WithoutMore(start, root, gone, rel);
      ok := disk.Try();
      ok := ok && Matches(disk.names, root + rel, m.files[rel]);
      if ok {
        ok := disk.Remove(root + rel);
      }
      todo := todo - {rel};
      if ok {
        gone := gone + {rel};
      }
    }
    assert ok ==> gone == m.files.Keys;
    GoneSome(start, root, gone, m.files.Keys);
  }

  lemma FileThere(start: Names, root: Path, m: Member, gone: set<Path>, rel: Path)
    requires Recorded(m) && Exact(start, root, m) && rel in m.files && rel !in gone && |root| > 0
    ensures Matches(Without(start, root, gone), root + rel, m.files[rel])
    ensures CanRemove(Without(start, root, gone), root + rel)
  {
    WithoutMeans(start, root, gone, rel);
    assert Matching(start, root, m, rel);
  }

  /** What is gone while these directories are still to be removed. */
  ghost function Done(m: Member, todo: set<Path>): set<Path> {
    (m.directories.Keys + m.files.Keys) - todo - {[]}
  }

  lemma DoneParts(m: Member, todo: set<Path>, d: Path)
    requires Recorded(m) && [] in m.directories && d in todo && todo <= m.directories.Keys
    ensures Done(m, todo - {d}) == if d == [] then Done(m, todo) else Done(m, todo) + {d}
    ensures d !in Done(m, todo)
    ensures Done(m, m.directories.Keys) == m.files.Keys
    ensures Done(m, todo) <= m.directories.Keys + m.files.Keys
  {
  }

  lemma DoneWithin(m: Member, todo: set<Path>)
    ensures Done(m, todo) <= m.directories.Keys + m.files.Keys
  {
  }

  lemma AllButRoot(m: Member)
    requires [] in m.directories
    ensures Done(m, {}) + {[]} == m.directories.Keys + m.files.Keys
  {
    var all := m.directories.Keys + m.files.Keys;
    assert [] in all;
    assert Done(m, {}) + {[]} == all;
  }

  /** One directory, unless it is the member itself. */
  method RemoveNext(disk: Disk, root: Path, m: Member, d: Path, ghost todo: set<Path>, ghost start: Names)
    returns (ok: bool)
    requires Tree(disk.names) && Recorded(m) && Exact(start, root, m) && |root| > 0 && [] in m.directories
    requires todo <= m.directories.Keys && d in todo && forall e :: e in todo ==> Length(e) <= Length(d)
    requires disk.names == Without(start, root, Done(m, todo))
    modifies disk
    ensures Tree(disk.names) && disk.faults >= old(disk.faults)
    ensures ok <==> disk.faults == old(disk.faults)
    ensures disk.names == Without(start, root, Done(m, if ok then todo - {d} else todo))
  {
    hide *;
    DoneParts(m, todo, d);
    DirectoryThere(start, root, m, Done(m, todo), d);
    ok := disk.Try();
    ok := ok && root + d in disk.names && disk.names[root + d] == m.directories[d];
    if ok && d != [] {
      EmptyWhenReached(start, root, m, todo, d);
      WithoutMore(start, root, Done(m, todo), d);
      ok := disk.Remove(root + d);
    }
  }

  /** Directories, the longest name first; the member itself is only looked at. */
  method RemoveDirectories(disk: Disk, root: Path, m: Member, ghost start: Names) returns (ok: bool)
    requires Tree(disk.names) && Recorded(m) && Exact(start, root, m) && |root| > 0 && [] in m.directories
    requires disk.names == Without(start, root, m.files.Keys)
    modifies disk
    ensures Tree(disk.names) && disk.faults >= old(disk.faults)
    ensures GoneWithin(start, disk.names, root, m.directories.Keys + m.files.Keys)
    ensures ok <==> disk.faults == old(disk.faults)
    ensures ok ==> disk.names == Without(start, root, Done(m, {}))
  {
    hide *;
    var todo := m.directories.Keys;
    ghost var left := todo;
    ok := true;
    DoneParts(m, todo, []);
    while ok && todo != {}
      invariant todo <= m.directories.Keys && left <= m.directories.Keys && Tree(disk.names)
      invariant disk.faults >= old(disk.faults)
      invariant ok <==> disk.faults == old(disk.faults)
      invariant disk.names == Without(start, root, Done(m, left)) && (ok ==> left == todo)
      decreases ok, |todo|
    {
      var d := Longest(todo);
      ok := RemoveNext(disk, root, m, d, todo, start);
      left := if ok then todo - {d} else todo;
      todo := todo - {d};
    }
    DoneWithin(m, left);
    GoneSome(start, root, Done(m, left), m.directories.Keys + m.files.Keys);
  }

  /** The next in the order of decreasing length. */
  method Longest(todo: set<Path>) returns (d: Path)
    requires todo != {}
    ensures d in todo && forall e :: e in todo ==> Length(e) <= Length(d)
  {
    ghost var longest := LongestExists(todo);
    d :| d in todo && forall e :: e in todo ==> Length(e) <= Length(d);
  }

  lemma DirectoryThere(start: Names, root: Path, m: Member, gone: set<Path>, d: Path)
    requires Recorded(m) && Exact(start, root, m) && d in m.directories && d !in gone && |root| > 0
    ensures var names := Without(start, root, gone);
      root + d in names && names[root + d] == m.directories[d] &&
        (!HasChild(names, root + d) ==> CanRemove(names, root + d))
  {
    WithoutMeans(start, root, gone, d);
    assert Matching(start, root, m, d);
  }

  /** What is gone was recorded and unchanged; nothing else is touched. */
  ghost predicate OnlyRecordedGone(a: Names, b: Names, root: Path, m: Member) {
    && (forall p :: p in b ==> p in a && b[p] == a[p])
    && (forall p :: p in a && p !in b ==> Prefix(root, p) && Matching(a, root, m, p[|root|..]))
  }

  lemma OnlyRecorded(start: Names, root: Path, m: Member, gone: set<Path>)
    requires Exact(start, root, m) && gone <= m.directories.Keys + m.files.Keys
    ensures OnlyRecordedGone(start, Without(start, root, gone), root, m)
  {
    var names := Without(start, root, gone);
    forall p | p in start && p !in names ensures Prefix(root, p) && Matching(start, root, m, p[|root|..]) {
      var rel :| rel in gone && p == root + rel;
      assert p[|root|..] == rel;
    }
  }

  /** `remove`: without a fault an unchanged member goes whole, every directory
      being empty when it is reached; a changed one is not begun. */
  method Remove(disk: Disk, root: Path, m: Member) returns (ok: bool)
    requires Tree(disk.names) && Recorded(m) && |root| > 0
    modifies disk
    ensures Tree(disk.names) && disk.faults >= old(disk.faults)
    ensures ok <==> disk.faults == old(disk.faults) && Exact(old(disk.names), root, m)
    ensures ok ==> forall p :: p in disk.names <==> p in old(disk.names) && !Prefix(root, p)
    ensures OnlyRecordedGone(old(disk.names), disk.names, root, m)
    ensures !Exact(old(disk.names), root, m) ==> disk.names == old(disk.names)
  {
    hide *;
    ghost var start := disk.names;
    NothingGone(start, root, m);
    ok := Verify(disk, root, m);
    if !ok { return; }
    ghost var all := m.directories.Keys + m.files.Keys;
    if [] in m.files {
      ok := RemoveFile(disk, root, m);
      return;
    }
    ok := disk.Try();
    DirectoryRoot(start, root, m);
    ok := ok && root in disk.names && disk.names[root] == m.directories[[]];
    if !ok { return; }
    ok := RemoveFiles(disk, root, m);
    GoneRecorded(start, disk.names, root, m);
    if !ok { return; }
    ok := RemoveDirectories(disk, root, m, start);
    GoneRecorded(start, disk.names, root, m);
    if !ok { return; }
    RootEmpty(start, root, m);
    RootThere(start, root, m);
    WithoutMore(start, root, Done(m, {}), []);
    assert root + [] == root;
    DoneWithin(m, {});
    AllButRoot(m);
    GoneSome(start, root, all, all);
    GoneSome(start, root, Done(m, {}), all);
    ok := disk.Remove(root);
    AllGone(start, root, m);
    GoneRecorded(start, disk.names, root, m);
  }

  /** A member that is a single file. */
  method RemoveFile(disk: Disk, root: Path, m: Member) returns (ok: bool)
    requires Tree(disk.names) && Recorded(m) && |root| > 0 && Exact(disk.names, root, m) && [] in m.files
    modifies disk
    ensures Tree(disk.names) && disk.faults >= old(disk.faults)
    ensures ok <==> disk.faults == old(disk.faults)
    ensures ok ==> forall p :: p in disk.names <==> p in old(disk.names) && !Prefix(root, p)
    ensures OnlyRecordedGone(old(disk.names), disk.names, root, m)
  {
    hide *;
    ghost var start := disk.names;
    NothingGone(start, root, m);
    FileThere(start, root, m, {}, []);
    WithoutNothing(start, root);
    assert root + [] == root;
    ok := disk.Try();
    ok := ok && Matches(disk.names, root, m.files[[]]);
    if !ok { return; }
    ok := disk.Remove(root);
    ghost var none: set<Path> := {};
    WithoutMore(start, root, none, []);
    FileIsAll(start, root, m);
    assert none + {[]} == {[]};
    if ok {
      AllGone(start, root, m);
      OnlyRecorded(start, root, m, {[]});
    }
  }

  lemma AboveIsDirectory(start: Names, root: Path, rel: Path)
    requires Tree(start) && root + rel in start
    ensures rel != [] ==> IsDir(start, root)
  {
    if rel != [] {
      AncestorIsDir(start, root + rel, |root|);
      assert (root + rel)[..|root|] == root;
    }
  }

  /** A file has nothing below it. */
  lemma FileIsAll(start: Names, root: Path, m: Member)
    requires Tree(start) && Recorded(m) && Exact(start, root, m) && [] in m.files
    ensures m.directories.Keys + m.files.Keys == {[]}
  {
    forall rel | rel in m.directories.Keys + m.files.Keys ensures rel == [] {
      assert Matching(start, root, m, rel) && Matching(start, root, m, []);
      assert root + [] == root;
      AboveIsDirectory(start, root, rel);
    }
  }

  lemma NothingGone(start: Names, root: Path, m: Member)
    ensures OnlyRecordedGone(start, start, root, m)
  {
  }

  lemma GoneRecorded(start: Names, names: Names, root: Path, m: Member)
    requires Exact(start, root, m)
    requires GoneWithin(start, names, root, m.files.Keys) ||
      GoneWithin(start, names, root, m.directories.Keys + m.files.Keys)
    ensures OnlyRecordedGone(start, names, root, m)
  {
    var gone :| gone <= m.directories.Keys + m.files.Keys && names == Without(start, root, gone);
    OnlyRecorded(start, root, m, gone);
  }

  lemma AllGone(start: Names, root: Path, m: Member)
    requires Exact(start, root, m)
    ensures forall p :: p in Without(start, root, m.directories.Keys + m.files.Keys) <==> p in start && !Prefix(root, p)
  {
    var all := m.directories.Keys + m.files.Keys;
    forall rel ensures Prefix(root, root + rel) {
      assert (root + rel)[..|root|] == root;
    }
    forall p ensures p in Without(start, root, all) <==> p in start && !Prefix(root, p) {
      if Prefix(root, p) {
        assert p == root + p[|root|..];
        WithoutMeans(start, root, all, p[|root|..]);
        BelowMeans(start, root, p[|root|..]);
      }
    }
  }

  lemma DirectoryRoot(start: Names, root: Path, m: Member)
    requires Recorded(m) && Exact(start, root, m) && [] !in m.files
    ensures [] in m.directories && root in start && start[root] == m.directories[[]]
  {
    assert root + [] == root;
    assert Matching(start, root, m, []);
  }

  lemma RootThere(start: Names, root: Path, m: Member)
    requires Recorded(m) && Exact(start, root, m) && [] in m.directories && |root| > 0
    ensures var names := Without(start, root, Done(m, {}));
      root in names && (!HasChild(names, root) ==> CanRemove(names, root))
  {
    assert root + [] == root;
    WithoutMeans(start, root, Done(m, {}), []);
    assert Matching(start, root, m, []);
  }
}
