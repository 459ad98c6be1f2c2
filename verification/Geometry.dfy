/** Where the paths of one virtual environment lie relative to each other. */
module Geometry {
  import opened Wrappers
  import opened FileSystem
  import opened Ownership
  import opened Frames
  import opened Layout

  const COMMIT_PREFIX := ".heliopause-pypi-commit-"

  predicate BackupPath(root: Path, p: Path) {
    && |p| == |root| + 1 && p[..|root|] == root
    && |p[|root|]| >= 24 && p[|root|][..24] == COMMIT_PREFIX
  }

  predicate InScheme(root: Path, p: Path) {
    || Within(SchemeRoot(root, "site").value, p) || Within(SchemeRoot(root, "scripts").value, p)
    || Within(SchemeRoot(root, "data").value, p) || Within(SchemeRoot(root, "headers").value, p)
  }

  /** A private place: outside the environment, or beside the schemes, the lock and
      the configuration, as the promotion workspace is. */
  predicate Private(root: Path, p: Path) {
    Prefix(root, p) ==>
      && |p| > |root|
      && p[|root|] != ".heliopause-pypi-transaction.lock" && p[|root|] != "pyvenv.cfg"
      && p[|root|] != "lib" && p[|root|] != "bin" && p[|root|] != "share" && p[|root|] != "include"
      && p[|root|] != ".heliopause"
      && !(|p[|root|]| >= 24 && p[|root|][..24] == COMMIT_PREFIX)
  }

  lemma FinalInSomeScheme(root: Path, d: Records.Owned)
    requires Final(root, d).Some?
    ensures InScheme(root, Final(root, d).value)
  {
  }

  lemma SchemeApart(root: Path, backup: Path, p: Path)
    requires InScheme(root, p) && BackupPath(root, backup)
    ensures Within(root, p) && !Prefix(backup, p)
    ensures p != MetadataPath(root) && Ordinary(root, p) && p !in FixedPaths(root)
    ensures !Private(root, p)
  {
    assert p[..|root|] == root;
    assert p[|root|] == "lib" || p[|root|] == "bin" || p[|root|] == "share" || p[|root|] == "include";
    assert |p| >= |root| + 2;
    if Prefix(backup, p) {
      BelowBackup(root, backup, p);
    }
    assert MetadataPath(root)[|root|] == ".heliopause";
  }

  lemma BackupApart(root: Path, backup: Path, p: Path)
    requires BackupPath(root, backup) && Prefix(backup, p)
    ensures Within(root, p) && Ordinary(root, p) && p != MetadataPath(root) && p !in FixedPaths(root)
  {
    assert p[..|root|] == backup[..|root|] == root;
    assert p[|root|] == p[..|backup|][|root|] == backup[|root|];
    assert p[|root|][..24] == COMMIT_PREFIX;
    assert LockPath(root)[|root|] == ".heliopause-pypi-transaction.lock";
    assert ".heliopause-pypi-transaction.lock"[17] == 't' && COMMIT_PREFIX[17] == 'c';
    assert p[|root|][17] == COMMIT_PREFIX[17];
    assert ConfigPath(root)[|root|] == "pyvenv.cfg";
    assert MetadataPath(root)[|root|] == ".heliopause" && MetadataDir(root)[|root|] == ".heliopause";
    assert SchemeRoot(root, "site").value[|root|] == "lib";
    assert SchemeRoot(root, "scripts").value[|root|] == "bin";
    assert SchemeRoot(root, "data").value[|root|] == "share";
    assert SchemeRoot(root, "headers").value[|root|] == "include";
  }

  lemma MetadataApart(root: Path, backup: Path)
    requires BackupPath(root, backup)
    ensures !Prefix(backup, MetadataPath(root)) && Ordinary(root, MetadataPath(root))
    ensures MetadataPath(root) !in FixedPaths(root)
    ensures Parent(MetadataPath(root)) == MetadataDir(root) && MetadataDir(root) in FixedPaths(root)
    ensures !Prefix(backup, LockPath(root)) && LockPath(root) != MetadataPath(root)
    ensures Within(root, MetadataPath(root)) && !Private(root, MetadataPath(root))
  {
    if Prefix(backup, MetadataPath(root)) {
      BackupApart(root, backup, MetadataPath(root));
    }
    if Prefix(backup, LockPath(root)) {
      BackupApart(root, backup, LockPath(root));
    }
    assert MetadataPath(root)[|root|] == ".heliopause";
    assert SchemeRoot(root, "site").value[|root|] == "lib";
  }

  /** A directory the ledger can name: inside a scheme, or the metadata one. */
  predicate Placeable(root: Path, p: Path) {
    || p == MetadataDir(root)
    || Prefix(SchemeRoot(root, "site").value, p) || Prefix(SchemeRoot(root, "scripts").value, p)
    || Prefix(SchemeRoot(root, "data").value, p) || Prefix(SchemeRoot(root, "headers").value, p)
  }

  lemma PrivateApart(root: Path, p: Path)
    requires Private(root, p)
    ensures !InScheme(root, p) && p != MetadataPath(root) && p != LockPath(root) && p != ConfigPath(root)
    ensures forall backup :: BackupPath(root, backup) ==> !Prefix(backup, p)
  {
    assert MetadataPath(root)[|root|] == ".heliopause" && MetadataPath(root)[..|root|] == root;
    assert LockPath(root)[..|root|] == root && ConfigPath(root)[..|root|] == root;
    if InScheme(root, p) {
      SchemeStart(root, p);
    }
    forall backup | BackupPath(root, backup) ensures !Prefix(backup, p) {
      if Prefix(backup, p) {
        BelowBackup(root, backup, p);
      }
    }
  }

  lemma BelowBackup(root: Path, backup: Path, p: Path)
    requires BackupPath(root, backup) && Prefix(backup, p)
    ensures Prefix(root, p) && |p| > |root| && |p[|root|]| >= 24 && p[|root|][..24] == COMMIT_PREFIX
  {
    assert p[..|backup|][..|root|] == p[..|root|];
    assert p[|root|] == p[..|backup|][|root|];
  }

  lemma PlaceableNotPrivate(root: Path, p: Path)
    requires Placeable(root, p) && Within(root, p)
    ensures !Private(root, p)
  {
    assert p[|root|] == "lib" || p[|root|] == "bin" || p[|root|] == "share" || p[|root|] == "include" ||
      p[|root|] == ".heliopause";
    assert Prefix(root, p);
  }

  lemma SchemeStart(root: Path, p: Path)
    requires InScheme(root, p)
    ensures Prefix(root, p) && |p| > |root|
    ensures p[|root|] == "lib" || p[|root|] == "bin" || p[|root|] == "share" || p[|root|] == "include"
  {
    assert p[..|root|] == root;
  }
}
