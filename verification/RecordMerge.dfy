/** Merging the RECORD entries of all distributions: one destination for every
    file, owned by all distributions that record it. */
module RecordMerge {
  import opened Wrappers
  import opened Text
  import opened Records
  import opened FileSystem
  import opened Ownership
  import opened Sorting
  import opened InstalledRecords

  /** One distribution's claim to one file. */
  datatype Claim = Claim(source: Path, scheme: string, relative: string, digest: string, size: int, owner: Owner)

  function NameOf(o: Owner): string {
    o.distribution
  }

  predicate Named(o: Owner) {
    o.distribution != "" && o.version != "" && o.artifact != ""
  }

  /** Two claims to one file can stand together. */
  predicate Sharing(c: Claim, d: Claim) {
    && c.scheme == "site" && d.scheme == "site" && c.relative == d.relative && c.digest == d.digest && c.size == d.size
    && c.owner.distribution != d.owner.distribution && Named(c.owner) && Named(d.owner)
  }

  function OwnersAt(claims: seq<Claim>, p: Path): set<Owner> {
    set c | c in claims && c.source == p :: c.owner
  }

  /** All claims can stand together. */
  ghost predicate Mergeable(claims: seq<Claim>) {
    && (forall i, j :: 0 <= i < j < |claims| && claims[i].source == claims[j].source ==> Sharing(claims[i], claims[j]))
    && (forall p :: |OwnersAt(claims, p)| <= 64)
  }

  /** The destination a file has: the facts all claims agree on, and their owners
      in order. */
  ghost predicate EntryFor(claims: seq<Claim>, d: Destination) {
    && d.bound.None? && Ascending(Owners(d.owned), NameOf) && Elements(Owners(d.owned)) == OwnersAt(claims, d.source)
    && Owners(d.owned)[0] == Owner(d.owned.distribution, d.owned.version, d.owned.artifact) && |d.owned.shared| != 1
    && forall c :: c in claims && c.source == d.source ==>
         c.scheme == d.owned.scheme && c.relative == d.owned.relative && c.digest == d.owned.digest &&
           c.size == d.owned.size
  }

  ghost predicate Tabulates(claims: seq<Claim>, recorded: map<Path, nat>, destinations: seq<Destination>) {
    && (forall p :: p in recorded ==> recorded[p] < |destinations| && destinations[recorded[p]].source == p)
    && (forall i :: 0 <= i < |destinations| ==>
      && destinations[i].source in recorded && recorded[destinations[i].source] == i
      && EntryFor(claims, destinations[i]))
    && (forall c :: c in claims ==> c.source in recorded)
  }

  // ------------------------------------------------------------- one more claim

  lemma OwnersAtMore(claims: seq<Claim>, c: Claim, p: Path)
    ensures OwnersAt(claims + [c], p) == OwnersAt(claims, p) + (if c.source == p then {c.owner} else {})
  {
    forall o ensures o in OwnersAt(claims + [c], p) <==> o in OwnersAt(claims, p) || (c.source == p && o == c.owner) {
      assert forall d :: d in claims + [c] <==> d in claims || d == c;
      if o in OwnersAt(claims, p) {
        var d :| d in claims && d.source == p && d.owner == o;
        assert d in claims + [c];
      }
      if c.source == p && o == c.owner {
        assert c in claims + [c];
      }
    }
  }

  /** What the next claim has to agree with. */
  ghost predicate Admits(claims: seq<Claim>, c: Claim) {
    && (forall d :: d in claims && d.source == c.source ==> Sharing(d, c))
    && |OwnersAt(claims, c.source) + {c.owner}| <= 64
  }

  lemma MergeableMore(claims: seq<Claim>, c: Claim)
    requires Mergeable(claims)
    ensures Mergeable(claims + [c]) <==> Admits(claims, c)
  {
    var more := claims + [c];
    OwnersAtMore(claims, c, c.source);
    if Admits(claims, c) {
      forall p ensures |OwnersAt(more, p)| <= 64 {
        OwnersAtMore(claims, c, p);
      }
      forall i, j | 0 <= i < j < |more| && more[i].source == more[j].source ensures Sharing(more[i], more[j]) {
        if j == |claims| {
          assert more[i] in claims;
        }
      }
    }
    if Mergeable(more) {
      forall d | d in claims && d.source == c.source ensures Sharing(d, c) {
        var i :| 0 <= i < |claims| && claims[i] == d;
        assert more[i] == d && more[|claims|] == c;
      }
      assert |OwnersAt(more, c.source)| <= 64;
    }
  }

  /** A prefix of claims that can stand together can. */
  lemma MergeablePrefix(a: seq<Claim>, b: seq<Claim>)
    requires Mergeable(a + b)
    ensures Mergeable(a)
  {
    var c := a + b;
    forall i, j | 0 <= i < j < |a| && a[i].source == a[j].source ensures Sharing(a[i], a[j]) {
      assert c[i] == a[i] && c[j] == a[j];
    }
    forall p ensures |OwnersAt(a, p)| <= 64 {
      forall o | o in OwnersAt(a, p) ensures o in OwnersAt(c, p) {
        var d :| d in a && d.source == p && d.owner == o;
        assert d in c;
      }
      SubsetSize(OwnersAt(a, p), OwnersAt(c, p));
    }
  }

  function FirstEntry(c: Claim): Destination {
    Destination(Owned(c.scheme, c.relative, c.owner.distribution, c.owner.version, c.owner.artifact, [], c.digest,
      c.size), c.source, None)
  }

  /** The entry with one more owner. */
  function SharedEntry(d: Destination, o: Owner): Destination {
    var owners := Insert(o, Owners(d.owned), NameOf);
    d.(owned := d.owned.(distribution := owners[0].distribution, version := owners[0].version,
      artifact := owners[0].artifact, shared := owners))
  }

  lemma FirstFor(claims: seq<Claim>, c: Claim)
    requires forall d :: d in claims ==> d.source != c.source
    ensures EntryFor(claims + [c], FirstEntry(c))
  {
    OwnersAtMore(claims, c, c.source);
    assert OwnersAt(claims, c.source) == {};
    assert Elements(Owners(FirstEntry(c).owned)) == {c.owner};
  }

  /** A shared entry is valid exactly when the new claim agrees with all before. */
  lemma SharedFor(claims: seq<Claim>, c: Claim, d: Destination)
    requires EntryFor(claims, d) && d.source == c.source && Mergeable(claims)
    requires c.scheme == d.owned.scheme == "site" && c.relative == d.owned.relative && c.digest == d.owned.digest
    requires c.size == d.owned.size && c.owner.artifact != ""
    ensures ValidOwners(SharedEntry(d, c.owner).owned) <==> Admits(claims, c)
    ensures Admits(claims, c) ==> EntryFor(claims + [c], SharedEntry(d, c.owner))
  {
    hide *;
    EntryParts(claims, d);
    var owners := Owners(d.owned);
    var more := Insert(c.owner, owners, NameOf);
    InsertAscends(c.owner, owners, NameOf);
    InsertElements(c.owner, owners, NameOf);
    AgreesWithAll(claims, c, d);
    SharedParts(d, c.owner);
    AscendsValid(SharedEntry(d, c.owner).owned);
    if Ascending(more, NameOf) {
      AscendingDistinct(more, NameOf);
    }
    OwnersAtMore(claims, c, c.source);
    SharedAdmits(claims, c, owners, more);
    if Admits(claims, c) {
      SharedEntryFor(claims, c, d);
    }
  }

  lemma EntryParts(claims: seq<Claim>, d: Destination)
    requires EntryFor(claims, d)
    ensures Ascending(Owners(d.owned), NameOf) && Elements(Owners(d.owned)) == OwnersAt(claims, d.source)
    ensures |Owners(d.owned)| > 0
  {
  }

  lemma SharedParts(d: Destination, o: Owner)
    ensures var e, owners := SharedEntry(d, o), Insert(o, Owners(d.owned), NameOf);
      && e.source == d.source && e.bound == d.bound && e.owned.shared == owners && Owners(e.owned) == owners
      && |owners| >= 2
      && e.owned.scheme == d.owned.scheme && e.owned.relative == d.owned.relative && e.owned.digest == d.owned.digest
      && e.owned.size == d.owned.size
      && owners[0] == Owner(e.owned.distribution, e.owned.version, e.owned.artifact)
  {
  }

  /** Order, number and names of the owners against what has to agree. */
  lemma SharedAdmits(claims: seq<Claim>, c: Claim, owners: seq<Owner>, more: seq<Owner>)
    requires Elements(owners) == OwnersAt(claims, c.source) && Elements(more) == Elements(owners) + {c.owner}
    requires Ascending(more, NameOf) <==> forall o :: o in owners ==> NameOf(o) != NameOf(c.owner)
    requires Ascending(more, NameOf) ==> |Elements(more)| == |more|
    requires (forall e :: e in claims && e.source == c.source ==> Sharing(e, c))
      <==> ((forall o :: o in owners ==> NameOf(o) != NameOf(c.owner) && Named(o)) && Named(c.owner))
    ensures Admits(claims, c) <==>
      Ascending(more, NameOf) && |more| <= 64 && forall o :: o in Elements(more) ==> Named(o)
  {
    hide Named, NameOf, Ascending, Sharing, OwnersAt;
    assert forall o :: o in owners <==> o in Elements(owners);
  }

  lemma SharedEntryFor(claims: seq<Claim>, c: Claim, d: Destination)
    requires EntryFor(claims, d) && d.source == c.source && Ascending(Insert(c.owner, Owners(d.owned), NameOf), NameOf)
    requires c.scheme == d.owned.scheme && c.relative == d.owned.relative && c.digest == d.owned.digest
    requires c.size == d.owned.size
    ensures EntryFor(claims + [c], SharedEntry(d, c.owner))
  {
    hide Ascending, Insert, NameOf, Owners;
    SharedParts(d, c.owner);
    InsertElements(c.owner, Owners(d.owned), NameOf);
    OwnersAtMore(claims, c, c.source);
  }

  /** Validity of shared owners: an order, a bound, and names. */
  lemma AscendsValid(d: Owned)
    requires |d.shared| >= 2 && d.scheme == "site" && d.shared[0] == Owner(d.distribution, d.version, d.artifact)
    ensures ValidOwners(d) <==>
      Ascending(d.shared, NameOf) && |d.shared| <= 64 && forall o :: o in Elements(d.shared) ==> Named(o)
  {
    if ValidOwners(d) {
      forall i, j | 0 <= i < j < |d.shared| ensures Less(d.shared[i].distribution, d.shared[j].distribution) {
        Consecutive(d.shared, i, j);
      }
    }
    if forall o :: o in Elements(d.shared) ==> Named(o) {
      assert forall i :: 0 <= i < |d.shared| ==> d.shared[i] in Elements(d.shared);
    }
  }

  lemma AgreesWithAll(claims: seq<Claim>, c: Claim, d: Destination)
    requires EntryFor(claims, d) && d.source == c.source
    requires c.scheme == d.owned.scheme == "site" && c.relative == d.owned.relative && c.digest == d.owned.digest
    requires c.size == d.owned.size
    ensures (forall e :: e in claims && e.source == c.source ==> Sharing(e, c))
      <==> (forall o :: o in Owners(d.owned) ==> NameOf(o) != NameOf(c.owner) && Named(o)) && Named(c.owner)
  {
    var owners := Owners(d.owned);
    assert owners[0] in Elements(owners);
    var f :| f in claims && f.source == d.source && f.owner == owners[0];
    forall o | o in owners ensures exists e :: e in claims && e.source == c.source && e.owner == o {
      assert o in Elements(owners);
    }
    forall e | e in claims && e.source == c.source ensures e.owner in owners {
      assert e.owner in OwnersAt(claims, d.source);
    }
  }

  lemma OtherFor(claims: seq<Claim>, c: Claim, d: Destination)
    requires EntryFor(claims, d) && d.source != c.source
    ensures EntryFor(claims + [c], d)
  {
    OwnersAtMore(claims, c, d.source);
  }

  lemma NotRecorded(claims: seq<Claim>, c: Claim, recorded: map<Path, nat>, destinations: seq<Destination>)
    requires Tabulates(claims, recorded, destinations) && c.source !in recorded
    ensures Tabulates(claims + [c], recorded[c.source := |destinations|], destinations + [FirstEntry(c)])
    ensures Admits(claims, c)
  {
    var more, known := destinations + [FirstEntry(c)], recorded[c.source := |destinations|];
    FirstFor(claims, c);
    forall i | 0 <= i < |more|
      ensures more[i].source in known && known[more[i].source] == i && EntryFor(claims + [c], more[i]) {
      if i < |destinations| {
        OtherFor(claims, c, destinations[i]);
      }
    }
    assert OwnersAt(claims, c.source) == {};
  }

  lemma RecordedAgain(claims: seq<Claim>, c: Claim, recorded: map<Path, nat>, destinations: seq<Destination>,
      e: Destination)
    requires Tabulates(claims, recorded, destinations) && c.source in recorded && e.source == c.source
    requires EntryFor(claims + [c], e)
    ensures Tabulates(claims + [c], recorded, destinations[recorded[c.source] := e])
  {
    var more := destinations[recorded[c.source] := e];
    forall i | 0 <= i < |more|
      ensures more[i].source in recorded && recorded[more[i].source] == i && EntryFor(claims + [c], more[i]) {
      if i != recorded[c.source] {
        assert destinations[i].source != c.source;
        OtherFor(claims, c, destinations[i]);
      }
    }
  }

  /** A claim that differs from the entry cannot be admitted. */
  lemma Differs(claims: seq<Claim>, c: Claim, d: Destination)
    requires EntryFor(claims, d) && d.source == c.source
    requires c.scheme != "site" || d.owned.scheme != "site" || c.relative != d.owned.relative ||
      c.digest != d.owned.digest || c.size != d.owned.size || c.owner.artifact == ""
    ensures !Admits(claims, c)
  {
    assert Owners(d.owned)[0] in Elements(Owners(d.owned));
    var f :| f in claims && f.source == d.source && f.owner == Owners(d.owned)[0];
    assert !Sharing(f, c);
  }

  // ------------------------------------------------------------ distributions

  /** A line of a RECORD file: its path, what is on disk there, and whether the
      hash and size it declares are right. */
  datatype Row = Row(value: string, digest: string, size: int, sound: bool)

  datatype Installed = Installed(name: string, version: string, info: string, rows: seq<Row>)

  function OwnerOf(expected: map<string, Owner>, d: Installed): Owner {
    if d.name in expected then Owner(d.name, d.version, expected[d.name].artifact) else Owner(d.name, d.version, "")
  }

  function ClaimOf(base: Path, info: string, owner: Owner, row: Row): Option<Claim> {
    var r := ResolveRecord(base, info, row.value);
    if r.None? || !row.sound then None
    else Some(Claim(r.value.source, r.value.scheme, r.value.relative, row.digest, row.size, owner))
  }

  predicate GoodRows(base: Path, info: string, owner: Owner, rows: seq<Row>) {
    forall row :: row in rows ==> ClaimOf(base, info, owner, row).Some?
  }

  function ClaimsOf(base: Path, info: string, owner: Owner, rows: seq<Row>): (claims: seq<Claim>)
    requires GoodRows(base, info, owner, rows)
    ensures |claims| == |rows| && forall i :: 0 <= i < |rows| ==> claims[i] == ClaimOf(base, info, owner, rows[i]).value
  {
    if rows == [] then []
    else
      var last := rows[|rows| - 1];
      assert rows == rows[..|rows| - 1] + [last];
      ClaimsOf(base, info, owner, rows[..|rows| - 1]) + [ClaimOf(base, info, owner, last).value]
  }

  class Merge {
    var recorded: map<Path, nat>
    var destinations: seq<Destination>
    ghost var claims: seq<Claim>

    ghost predicate Valid()
      reads this
    {
      Tabulates(claims, recorded, destinations) && Mergeable(claims)
    }

    constructor ()
      ensures Valid() && claims == []
    {
      recorded, destinations, claims := map[], [], [];
      new;
      assert forall p :: OwnersAt([], p) == {};
    }

    lemma ValidParts()
      requires Valid()
      ensures Tabulates(claims, recorded, destinations) && Mergeable(claims)
    {
    }

    lemma ValidAgain()
      requires Tabulates(claims, recorded, destinations) && Mergeable(claims)
      ensures Valid()
    {
    }

    /** One entry joins the table, or the whole installation is refused. */
    method Add(c: Claim) returns (ok: bool)
      requires Valid()
      modifies this
      ensures claims == old(claims) + [c]
      ensures ok <==> Mergeable(claims)
      ensures ok ==> Valid()
    {
      hide *;
      ghost var before := claims;
      ValidParts();
      claims := claims + [c];
      MergeableMore(before, c);
      ok := true;
      if c.source in recorded {
        var i := recorded[c.source];
        PriorFor(before, recorded, destinations, c.source);
        var prior := destinations[i];
        if c.scheme != "site" || prior.owned.scheme != "site" || c.digest != prior.owned.digest ||
          c.size != prior.owned.size
          || c.relative != prior.owned.relative || c.owner.artifact == "" {
          Differs(before, c, prior);
          return false;
        }
        SharedFor(before, c, prior);
        var e := SharedEntry(prior, c.owner);
        SharedParts(prior, c.owner);
        destinations := destinations[i := e];
        ok := ValidOwners(e.owned);
        if ok {
          RecordedAgain(before, c, recorded, old(destinations), e);
        }
      } else {
        NotRecorded(before, c, recorded, destinations);
        recorded := recorded[c.source := |destinations|];
        destinations := destinations + [FirstEntry(c)];
      }
      if ok {
        ValidAgain();
      }
    }

    /** `validateInstalledRecord`: all lines of one RECORD file. */
    method Record(base: Path, info: string, owner: Owner, rows: seq<Row>) returns (ok: bool)
      requires Valid()
      modifies this
      ensures ok <==>
        |rows| > 0 && GoodRows(base, info, owner, rows) && Mergeable(old(claims) + ClaimsOf(base, info, owner, rows))
      ensures ok ==> Valid() && claims == old(claims) + ClaimsOf(base, info, owner, rows)
    {
      hide *;
      ghost var before := claims;
      ValidParts();
      NoRows(base, info, owner, rows, before);
      var count := 0;
      while count < |rows|
        invariant 0 <= count <= |rows| && Valid() && GoodRows(base, info, owner, rows[..count])
        invariant claims == before + ClaimsOf(base, info, owner, rows[..count])
      {
        var c := ClaimOf(base, info, owner, rows[count]);
        NextRow(base, info, owner, rows, count, before);
        if c.None? {
          return false;
        }
        ok := Add(c.value);
        if !ok {
          return;
        }
        count := count + 1;
      }
      assert rows[..count] == rows;
      ValidParts();
      ok := count != 0;
    }
  }

  lemma NoRows(base: Path, info: string, owner: Owner, rows: seq<Row>, before: seq<Claim>)
    ensures GoodRows(base, info, owner, rows[..0]) && before + ClaimsOf(base, info, owner, rows[..0]) == before
  {
  }

  lemma NextRow(base: Path, info: string, owner: Owner, rows: seq<Row>, k: nat, before: seq<Claim>)
    requires k < |rows| && GoodRows(base, info, owner, rows[..k])
    ensures GoodRows(base, info, owner, rows) ==> ClaimOf(base, info, owner, rows[k]).Some?
    ensures var c := ClaimOf(base, info, owner, rows[k]);
      c.Some? ==>
        && GoodRows(base, info, owner, rows[..k + 1])
        && before + ClaimsOf(base, info, owner, rows[..k + 1]) ==
            before + ClaimsOf(base, info, owner, rows[..k]) + [c.value]
        && (GoodRows(base, info, owner, rows) && Mergeable(before + ClaimsOf(base, info, owner, rows)) ==>
              Mergeable(before + ClaimsOf(base, info, owner, rows[..k]) + [c.value]))
  {
    hide *;
    var c := ClaimOf(base, info, owner, rows[k]);
    RowIn(base, info, owner, rows, k);
    if c.Some? {
      GoodRowsMore(base, info, owner, rows, k);
      NextClaims(base, info, owner, rows, k, c.value);
      var next := before + ClaimsOf(base, info, owner, rows[..k]) + [c.value];
      assert before + ClaimsOf(base, info, owner, rows[..k + 1]) == next;
      if GoodRows(base, info, owner, rows) {
        ClaimsPrefix(base, info, owner, rows, k + 1);
        var all := ClaimsOf(base, info, owner, rows);
        assert before + all == next + all[k + 1..];
        if Mergeable(before + all) {
          MergeablePrefix(next, all[k + 1..]);
        }
      }
    }
  }

  lemma RowIn(base: Path, info: string, owner: Owner, rows: seq<Row>, k: nat)
    requires k < |rows|
    ensures GoodRows(base, info, owner, rows) ==> ClaimOf(base, info, owner, rows[k]).Some?
  {
    assert rows[k] in rows;
  }

  lemma NextClaims(base: Path, info: string, owner: Owner, rows: seq<Row>, k: nat, c: Claim)
    requires k < |rows| && GoodRows(base, info, owner, rows[..k]) && GoodRows(base, info, owner, rows[..k + 1])
    requires ClaimOf(base, info, owner, rows[k]) == Some(c)
    ensures ClaimsOf(base, info, owner, rows[..k + 1]) == ClaimsOf(base, info, owner, rows[..k]) + [c]
  {
    assert rows[..k + 1][..k] == rows[..k];
  }

  lemma PriorFor(claims: seq<Claim>, recorded: map<Path, nat>, destinations: seq<Destination>, p: Path)
    requires Tabulates(claims, recorded, destinations) && p in recorded
    ensures recorded[p] < |destinations| && destinations[recorded[p]].source == p
    ensures EntryFor(claims, destinations[recorded[p]])
  {
  }

  lemma GoodRowsMore(base: Path, info: string, owner: Owner, rows: seq<Row>, k: nat)
    requires k < |rows| && GoodRows(base, info, owner, rows[..k]) && ClaimOf(base, info, owner, rows[k]).Some?
    ensures GoodRows(base, info, owner, rows[..k + 1])
  {
    assert rows[..k + 1] == rows[..k] + [rows[k]];
  }

  lemma ClaimsPrefix(base: Path, info: string, owner: Owner, rows: seq<Row>, k: nat)
    requires k <= |rows| && GoodRows(base, info, owner, rows)
    ensures GoodRows(base, info, owner, rows[..k])
    ensures ClaimsOf(base, info, owner, rows) ==
      ClaimsOf(base, info, owner, rows[..k]) + ClaimsOf(base, info, owner, rows)[k..]
  {
    hide ClaimOf;
    assert forall row :: row in rows[..k] ==> row in rows;
    var all, some := ClaimsOf(base, info, owner, rows), ClaimsOf(base, info, owner, rows[..k]);
    assert all[..k] == some;
  }

  // ---------------------------------------------------------- all distributions

  predicate AllGood(base: Path, expected: map<string, Owner>, ds: seq<Installed>) {
    forall d :: d in ds ==> GoodRows(base, d.info, OwnerOf(expected, d), d.rows)
  }

  function AllClaims(base: Path, expected: map<string, Owner>, ds: seq<Installed>): seq<Claim>
    requires AllGood(base, expected, ds)
  {
    if ds == [] then []
    else
      var last := ds[|ds| - 1];
      assert last in ds && forall d :: d in ds[..|ds| - 1] ==> d in ds;
      AllClaims(base, expected, ds[..|ds| - 1]) + ClaimsOf(base, last.info, OwnerOf(expected, last), last.rows)
  }

  function NamesOf(ds: seq<Installed>): set<string> {
    set d | d in ds :: d.name
  }

  predicate Expected(expected: map<string, Owner>, d: Installed) {
    d.name in expected && expected[d.name].version == d.version && |d.rows| > 0
  }

  /** The distributions are exactly the expected ones, each once. */
  ghost predicate ExactSet(expected: map<string, Owner>, ds: seq<Installed>) {
    |NamesOf(ds)| == |ds| && NamesOf(ds) == expected.Keys && forall d :: d in ds ==> Expected(expected, d)
  }

  function SourcesOf(claims: seq<Claim>): set<Path> {
    set c | c in claims :: c.source
  }

  function KeyOf(d: Destination): string {
    Key(d.owned)
  }

  /** The table of all destinations, in the order of their keys. */
  ghost predicate IsTable(claims: seq<Claim>, table: seq<Destination>) {
    && Ascending(table, KeyOf) && (forall d :: d in table ==> EntryFor(claims, d))
    && (forall c :: c in claims ==> exists d :: d in table && d.source == c.source)
  }

  /** What an installation needs to be promoted. */
  ghost predicate Promotable(base: Path, expected: map<string, Owner>, ds: seq<Installed>, files: set<Path>) {
    && |expected| > 0 && ExactSet(expected, ds) && AllGood(base, expected, ds)
    && Mergeable(AllClaims(base, expected, ds)) && files <= SourcesOf(AllClaims(base, expected, ds))
  }

  // ------------------------------------------------------------ order is nothing

  /** The entry of a file is determined by the claims, in whatever order. */
  lemma EntryUnique(a: seq<Claim>, b: seq<Claim>, d: Destination, e: Destination)
    requires (forall c :: c in a <==> c in b) && EntryFor(a, d) && EntryFor(b, e) && d.source == e.source
    ensures d == e
  {
    assert OwnersAt(a, d.source) == OwnersAt(b, d.source);
    AscendingSame(Owners(d.owned), Owners(e.owned), NameOf);
    assert Owners(d.owned)[0] in Elements(Owners(d.owned));
    var c :| c in a && c.source == d.source && c.owner == Owners(d.owned)[0];
    assert d.owned.shared == e.owned.shared;
  }

  lemma {:induction false} TableUnique(a: seq<Claim>, b: seq<Claim>, s: seq<Destination>, t: seq<Destination>)
    requires (forall c :: c in a <==> c in b) && IsTable(a, s) && IsTable(b, t)
    ensures s == t
  {
    TableWithin(a, b, s, t);
    TableWithin(b, a, t, s);
    AscendingSame(s, t, KeyOf);
  }

  lemma TableWithin(a: seq<Claim>, b: seq<Claim>, s: seq<Destination>, t: seq<Destination>)
    requires (forall c :: c in a <==> c in b) && IsTable(a, s) && IsTable(b, t)
    ensures Elements(s) <= Elements(t)
  {
    forall d | d in s ensures d in t {
      assert Owners(d.owned)[0] in Elements(Owners(d.owned));
      var c :| c in a && c.source == d.source && c.owner == Owners(d.owned)[0];
      var e :| e in t && e.source == c.source;
      EntryUnique(a, b, d, e);
    }
  }

  lemma TwoPlaces<T>(s: seq<T>, i: nat, j: nat)
    requires i < j < |s| && s[i] == s[j]
    ensures multiset(s)[s[i]] >= 2
  {
    assert s == s[..j] + s[j..];
    assert s[..j][i] == s[i] && s[j..][0] == s[i];
    assert multiset(s) == multiset(s[..j]) + multiset(s[j..]);
    assert s[i] in multiset(s[..j]) && s[i] in multiset(s[j..]);
  }

  lemma {:induction false} PlacesOfTwo<T>(s: seq<T>, x: T)
    requires multiset(s)[x] >= 2
    ensures exists i, j :: 0 <= i < j < |s| && s[i] == x && s[j] == x
  {
    assert x in s;
    var i :| 0 <= i < |s| && s[i] == x;
    var rest := s[..i] + s[i + 1..];
    assert s == s[..i] + [x] + s[i + 1..];
    assert multiset(s) == multiset(rest) + multiset([x]);
    assert x in multiset(rest);
    var k :| 0 <= k < |rest| && rest[k] == x;
    var j := if k < i then k else k + 1;
    assert s[j] == x && j != i;
    assert (i < j && s[i] == x && s[j] == x) || (j < i && s[j] == x && s[i] == x);
  }

  /** Whether claims can stand together does not depend on their order. */
  lemma MergeablePermuted(a: seq<Claim>, b: seq<Claim>)
    requires multiset(a) == multiset(b) && Mergeable(a)
    ensures Mergeable(b)
  {
    assert forall c :: c in a <==> c in multiset(a);
    assert forall c :: c in b <==> c in multiset(b);
    forall p ensures |OwnersAt(b, p)| <= 64 {
      assert OwnersAt(a, p) == OwnersAt(b, p);
    }
    forall i, j | 0 <= i < j < |b| && b[i].source == b[j].source ensures Sharing(b[i], b[j]) {
      if b[i] == b[j] {
        TwoPlaces(b, i, j);
        PlacesOfTwo(a, b[i]);
      } else {
        assert b[i] in a && b[j] in a;
        var k :| 0 <= k < |a| && a[k] == b[i];
        var l :| 0 <= l < |a| && a[l] == b[j];
        assert if k < l then Sharing(a[k], a[l]) else Sharing(a[l], a[k]);
      }
    }
  }

  function Bag(base: Path, expected: map<string, Owner>): Installed -> multiset<Claim> {
    (d: Installed) => if GoodRows(base, d.info, OwnerOf(expected, d), d.rows) then
      multiset(ClaimsOf(base, d.info, OwnerOf(expected, d), d.rows)) else multiset{}
  }

  lemma {:induction false} ClaimsSum(base: Path, expected: map<string, Owner>, ds: seq<Installed>)
    requires AllGood(base, expected, ds)
    ensures multiset(AllClaims(base, expected, ds)) == Sum(ds, Bag(base, expected))
  {
    hide GoodRows, ClaimsOf;
    if ds != [] {
      var n := |ds| - 1;
      assert ds[n] in ds && forall d :: d in ds[..n] ==> d in ds;
      ClaimsSum(base, expected, ds[..n]);
    }
  }

  lemma ClaimsPermuted(base: Path, expected: map<string, Owner>, a: seq<Installed>, b: seq<Installed>)
    requires multiset(a) == multiset(b) && AllGood(base, expected, a) && AllGood(base, expected, b)
    ensures multiset(AllClaims(base, expected, a)) == multiset(AllClaims(base, expected, b))
  {
    ClaimsSum(base, expected, a);
    ClaimsSum(base, expected, b);
    SumPermuted(a, b, Bag(base, expected));
  }

  lemma SetPermuted(base: Path, expected: map<string, Owner>, a: seq<Installed>, b: seq<Installed>)
    requires multiset(a) == multiset(b)
    ensures ExactSet(expected, a) <==> ExactSet(expected, b)
    ensures AllGood(base, expected, a) <==> AllGood(base, expected, b)
  {
    assert forall d :: d in a <==> d in multiset(a);
    assert forall d :: d in b <==> d in multiset(b);
    assert |a| == |multiset(a)| == |multiset(b)| == |b|;
    assert NamesOf(a) == NamesOf(b);
  }

  /** Success and the table do not depend on the order of the distributions. */
  lemma OrderIsNothing(base: Path, expected: map<string, Owner>, a: seq<Installed>, b: seq<Installed>, files: set<Path>)
    requires multiset(a) == multiset(b)
    ensures Promotable(base, expected, a, files) <==> Promotable(base, expected, b, files)
    ensures Promotable(base, expected, a, files) ==>
      forall s, t :: IsTable(AllClaims(base, expected, a), s) && IsTable(AllClaims(base, expected, b), t) ==> s == t
  {
    hide ExactSet, GoodRows, AllGood, Mergeable, IsTable, AllClaims;
    SetPermuted(base, expected, a, b);
    if AllGood(base, expected, a) {
      ClaimsPermuted(base, expected, a, b);
      var c, d := AllClaims(base, expected, a), AllClaims(base, expected, b);
      SameClaims(c, d);
      if Mergeable(c) { MergeablePermuted(c, d); }
      if Mergeable(d) { MergeablePermuted(d, c); }
      forall s, t | IsTable(c, s) && IsTable(d, t) ensures s == t {
        TableUnique(c, d, s, t);
      }
    }
  }

  lemma SameClaims(a: seq<Claim>, b: seq<Claim>)
    requires multiset(a) == multiset(b)
    ensures (forall c :: c in a <==> c in b) && SourcesOf(a) == SourcesOf(b)
  {
    assert forall c :: c in a <==> c in multiset(a);
    assert forall c :: c in b <==> c in multiset(b);
  }

  // ------------------------------------------------------------- the whole table

  /** The claim comes from a line of some RECORD file. */
  ghost predicate Derived(base: Path, c: Claim) {
    exists info, value :: ResolveRecord(base, info, value) == Some(Resolved(c.scheme, c.relative, c.source))
  }

  lemma ClaimsDerived(base: Path, info: string, owner: Owner, rows: seq<Row>)
    requires GoodRows(base, info, owner, rows)
    ensures forall c :: c in ClaimsOf(base, info, owner, rows) ==> Derived(base, c)
  {
    hide ResolveRecord;
    var claims := ClaimsOf(base, info, owner, rows);
    forall c | c in claims ensures Derived(base, c) {
      var i :| 0 <= i < |claims| && claims[i] == c;
      assert rows[i] in rows && ClaimOf(base, info, owner, rows[i]).Some?;
      assert ResolveRecord(base, info, rows[i].value) == Some(Resolved(c.scheme, c.relative, c.source));
    }
  }

  lemma {:induction false} AllDerived(base: Path, expected: map<string, Owner>, ds: seq<Installed>)
    requires AllGood(base, expected, ds)
    ensures forall c :: c in AllClaims(base, expected, ds) ==> Derived(base, c)
  {
    hide Derived, GoodRows, ClaimsOf;
    if ds != [] {
      var n := |ds| - 1;
      assert ds[n] in ds && forall d :: d in ds[..n] ==> d in ds;
      AllDerived(base, expected, ds[..n]);
      ClaimsDerived(base, ds[n].info, OwnerOf(expected, ds[n]), ds[n].rows);
    }
  }

  /** Different files have different keys. */
  lemma KeysDiffer(base: Path, c: Claim, d: Claim)
    requires Derived(base, c) && Derived(base, d) && c.source != d.source
    ensures c.scheme + "/" + c.relative != d.scheme + "/" + d.relative
  {
    hide ResolveRecord, SchemeRoot;
    var i, v :| ResolveRecord(base, i, v) == Some(Resolved(c.scheme, c.relative, c.source));
    var j, w :| ResolveRecord(base, j, w) == Some(Resolved(d.scheme, d.relative, d.source));
    SameSource(base, i, v, j, w);
    ResolvedScheme(base, i, v);
    ResolvedScheme(base, j, w);
    var o := Owned(c.scheme, c.relative, "", "", "", [], "", 0);
    var p := Owned(d.scheme, d.relative, "", "", "", [], "", 0);
    if Key(o) == Key(p) {
      KeyInjective(base, o, p);
    }
  }

  lemma ResolvedScheme(base: Path, info: string, value: string)
    requires ResolveRecord(base, info, value).Some?
    ensures SchemeRoot(base, ResolveRecord(base, info, value).value.scheme).Some?
  {
    hide ResolveRecord;
    ResolvedParts(base, info, value);
  }

  lemma EntryClaim(claims: seq<Claim>, d: Destination) returns (c: Claim)
    requires EntryFor(claims, d)
    ensures c in claims && c.source == d.source && c.scheme == d.owned.scheme && c.relative == d.owned.relative
  {
    assert Owners(d.owned)[0] in Elements(Owners(d.owned));
    c :| c in claims && c.source == d.source && c.owner == Owners(d.owned)[0];
  }

  lemma SortedTable(base: Path, claims: seq<Claim>, recorded: map<Path, nat>, destinations: seq<Destination>)
    requires Tabulates(claims, recorded, destinations) && forall c :: c in claims ==> Derived(base, c)
    ensures IsTable(claims, Sort(destinations, KeyOf)) && recorded.Keys == SourcesOf(claims)
  {
    hide Derived, EntryFor;
    var table := Sort(destinations, KeyOf);
    SameElements(table, destinations);
    forall i, j | 0 <= i < j < |destinations| ensures KeyOf(destinations[i]) != KeyOf(destinations[j]) {
      var c := EntryClaim(claims, destinations[i]);
      var d := EntryClaim(claims, destinations[j]);
      KeysDiffer(base, c, d);
    }
    SortAscends(destinations, KeyOf);
    forall d | d in table ensures EntryFor(claims, d) {
      assert d in Elements(table);
    }
    forall c | c in claims ensures exists d :: d in table && d.source == c.source {
      var d := destinations[recorded[c.source]];
      assert d in Elements(destinations) && d in Elements(table);
    }
    forall p | p in recorded ensures p in SourcesOf(claims) {
      var c := EntryClaim(claims, destinations[recorded[p]]);
    }
  }

  lemma DuplicateName(ds: seq<Installed>, k: nat)
    requires k < |ds| && ds[k].name in NamesOf(ds[..k])
    ensures |NamesOf(ds)| < |ds|
  {
    NamesBound(ds[..k]);
    NamesBound(ds[k + 1..]);
    assert ds == ds[..k] + [ds[k]] + ds[k + 1..];
    assert NamesOf(ds) == NamesOf(ds[..k]) + NamesOf(ds[k + 1..]);
  }

  lemma {:induction false} NamesBound(ds: seq<Installed>)
    ensures |NamesOf(ds)| <= |ds|
  {
    if ds != [] {
      NamesBound(ds[1..]);
      assert ds == [ds[0]] + ds[1..];
      assert NamesOf(ds) == {ds[0].name} + NamesOf(ds[1..]);
    }
  }

  lemma {:induction false} AllClaimsPrefix(base: Path, expected: map<string, Owner>, ds: seq<Installed>, k: nat)
    requires k <= |ds| && AllGood(base, expected, ds)
    ensures AllGood(base, expected, ds[..k])
    ensures |AllClaims(base, expected, ds[..k])| <= |AllClaims(base, expected, ds)|
    ensures AllClaims(base, expected, ds) ==
      AllClaims(base, expected, ds[..k]) + AllClaims(base, expected, ds)[|AllClaims(base, expected, ds[..k])|..]
    decreases |ds|
  {
    hide GoodRows, ClaimsOf;
    assert forall d :: d in ds[..k] ==> d in ds;
    if k < |ds| {
      var n := |ds| - 1;
      assert forall d :: d in ds[..n] ==> d in ds;
      AllClaimsPrefix(base, expected, ds[..n], k);
      assert ds[..n][..k] == ds[..k];
    } else {
      assert ds[..k] == ds;
    }
  }

  // --------------------------------------------------- the table, line by line

  /** The scheme of a directory of the private installation. */
  function SchemeIn(directory: string): string {
    if directory == "bin" then "scripts" else if directory == "share" then "data"
    else if directory == "include" then "headers" else "site"
  }

  /** The entry says of its file what a line of a RECORD file and its owner say. */
  ghost predicate Carries(base: Path, row: Row, owner: Owner, e: Destination) {
    && row.sound && e.owned.digest == row.digest && e.owned.size == row.size && HasOwner(e.owned, owner)
    && e.bound.None?
    && exists directory, tail ::
        && Leads(row.value, directory, tail) && e.source == base + [directory] + tail
        && e.owned.scheme == SchemeIn(directory) && e.owned.relative == Join(tail)
  }

  /** What a claim takes from its line. */
  lemma ClaimExactly(base: Path, info: string, owner: Owner, row: Row)
    ensures ClaimOf(base, info, owner, row).Some? <==>
      row.sound && exists directory, tail :: Leads(row.value, directory, tail)
    ensures forall directory, tail :: row.sound && Leads(row.value, directory, tail) ==>
      ClaimOf(base, info, owner, row) ==
        Some(Claim(base + [directory] + tail, SchemeIn(directory), Join(tail), row.digest, row.size, owner))
  {
    hide ResolveRecord, Join;
    forall directory, tail | Leads(row.value, directory, tail)
      ensures ResolveRecord(base, info, row.value) ==
        Some(Resolved(SchemeIn(directory), Join(tail), base + [directory] + tail)) {
      LeadsResolved(base, info, row.value, directory, tail);
    }
    if ResolveRecord(base, info, row.value).Some? {
      ResolvedLeads(base, info, row.value);
    }
  }

  /** The lines before those of a distribution. */
  function Offset(ds: seq<Installed>, i: nat): nat
    requires i <= |ds|
  {
    if i == 0 then 0 else Offset(ds, i - 1) + |ds[i - 1].rows|
  }

  lemma {:induction false} OffsetPrefix(ds: seq<Installed>, n: nat, i: nat)
    requires i <= n <= |ds|
    ensures Offset(ds[..n], i) == Offset(ds, i)
  {
    if i > 0 {
      OffsetPrefix(ds, n, i - 1);
    }
  }

  lemma {:induction false} OffsetGrows(ds: seq<Installed>, i: nat, j: nat)
    requires i < j <= |ds|
    ensures Offset(ds, i) + |ds[i].rows| <= Offset(ds, j)
  {
    if i < j - 1 {
      OffsetGrows(ds, i, j - 1);
    }
  }

  lemma {:induction false} ClaimsCount(base: Path, expected: map<string, Owner>, ds: seq<Installed>)
    requires AllGood(base, expected, ds)
    ensures |AllClaims(base, expected, ds)| == Offset(ds, |ds|)
  {
    hide ClaimOf, OwnerOf, GoodRows;
    if ds != [] {
      var n := |ds| - 1;
      assert ds[n] in ds && forall d :: d in ds[..n] ==> d in ds;
      ClaimsCount(base, expected, ds[..n]);
      OffsetPrefix(ds, n, n);
    }
  }

  lemma {:induction false} ClaimAt(base: Path, expected: map<string, Owner>, ds: seq<Installed>, i: nat, k: nat)
    requires AllGood(base, expected, ds) && i < |ds| && k < |ds[i].rows|
    ensures Offset(ds, i) + k < |AllClaims(base, expected, ds)|
    ensures Some(AllClaims(base, expected, ds)[Offset(ds, i) + k]) ==
      ClaimOf(base, ds[i].info, OwnerOf(expected, ds[i]), ds[i].rows[k])
    decreases |ds|
  {
    hide ClaimOf, OwnerOf, GoodRows;
    var n := |ds| - 1;
    var last := ds[n];
    assert last in ds && forall d :: d in ds[..n] ==> d in ds;
    var before, mine := AllClaims(base, expected, ds[..n]),
      ClaimsOf(base, last.info, OwnerOf(expected, last), last.rows);
    assert AllClaims(base, expected, ds) == before + mine;
    if i < n {
      OffsetPrefix(ds, n, i);
      ClaimAt(base, expected, ds[..n], i, k);
    } else {
      ClaimsCount(base, expected, ds[..n]);
      OffsetPrefix(ds, n, n);
      assert (before + mine)[|before| + k] == mine[k];
      ClaimAmong(base, last.info, OwnerOf(expected, last), last.rows, k);
    }
  }

  lemma ClaimAmong(base: Path, info: string, owner: Owner, rows: seq<Row>, k: nat)
    requires GoodRows(base, info, owner, rows) && k < |rows|
    ensures Some(ClaimsOf(base, info, owner, rows)[k]) == ClaimOf(base, info, owner, rows[k])
  {
    assert rows[k] in rows;
  }

  /** Every claim is that of a line. */
  lemma {:induction false} LineAt(ds: seq<Installed>, n: nat) returns (i: nat, k: nat)
    requires n < Offset(ds, |ds|)
    ensures i < |ds| && k < |ds[i].rows| && n == Offset(ds, i) + k
  {
    var last := |ds| - 1;
    if n >= Offset(ds, last) {
      i, k := last, n - Offset(ds, last);
    } else {
      OffsetPrefix(ds, last, last);
      i, k := LineAt(ds[..last], n);
      OffsetPrefix(ds, last, i);
    }
  }

  // ------------------------------------------- what is promotable, line by line

  /** A line whose hash and size are right, and that leads somewhere. */
  ghost predicate Leading(row: Row) {
    row.sound && exists directory, tail :: Leads(row.value, directory, tail)
  }

  /** Two lines name the same file. */
  ghost predicate SameFile(v: Row, w: Row) {
    exists directory, tail :: Leads(v.value, directory, tail) && Leads(w.value, directory, tail)
  }

  ghost predicate Attributed(expected: map<string, Owner>, d: Installed) {
    d.name != "" && d.version != "" && d.name in expected && expected[d.name].artifact != ""
  }

  /** Two lines that name the same file can do so: below `site`, alike, and in two
      distributions. */
  ghost predicate Together(expected: map<string, Owner>, d: Installed, v: Row, e: Installed, w: Row) {
    && (exists tail :: Leads(v.value, "site", tail)) && v.digest == w.digest && v.size == w.size
    && d.name != e.name && Attributed(expected, d) && Attributed(expected, e)
  }

  ghost predicate LeadsTo(base: Path, row: Row, p: Path) {
    exists directory, tail :: Leads(row.value, directory, tail) && p == base + [directory] + tail
  }

  /** The distributions that record a file. */
  ghost function RecordedBy(base: Path, expected: map<string, Owner>, ds: seq<Installed>, p: Path): set<Owner> {
    set d, row | d in ds && row in d.rows && LeadsTo(base, row, p) ::
      Owner(d.name, d.version, if d.name in expected then expected[d.name].artifact else "")
  }

  lemma OwnerExactly(expected: map<string, Owner>, d: Installed)
    ensures OwnerOf(expected, d) ==
      Owner(d.name, d.version, if d.name in expected then expected[d.name].artifact else "")
  {
  }

  lemma LinesTogether(base: Path, expected: map<string, Owner>, d: Installed, v: Row, e: Installed, w: Row)
    requires var a, b := ClaimOf(base, d.info, OwnerOf(expected, d), v), ClaimOf(base, e.info, OwnerOf(expected, e), w);
      a.Some? && b.Some?
    ensures var a, b := ClaimOf(base, d.info, OwnerOf(expected, d), v).value,
        ClaimOf(base, e.info, OwnerOf(expected, e), w).value;
      && (a.source == b.source <==> SameFile(v, w))
      && (SameFile(v, w) ==> (Sharing(a, b) <==> Together(expected, d, v, e, w)))
      && (Sharing(a, b) <==> Sharing(b, a))
  {
    hide ClaimOf, OwnerOf, Leads, Join;
    ClaimExactly(base, d.info, OwnerOf(expected, d), v);
    ClaimExactly(base, e.info, OwnerOf(expected, e), w);
    OwnerExactly(expected, d);
    OwnerExactly(expected, e);
    var x, p :| Leads(v.value, x, p);
    var y, q :| Leads(w.value, y, q);
    LeadsApart(base, x, p, y, q);
    if SameFile(v, w) {
      var z, t :| Leads(v.value, z, t) && Leads(w.value, z, t);
      LeadsOnce(v.value, x, p, z, t);
      LeadsOnce(w.value, y, q, z, t);
      LeadsKnown(v.value, x, p);
      if r :| Leads(v.value, "site", r) {
        LeadsOnce(v.value, x, p, "site", r);
      }
    }
  }

  lemma LeadsApart(base: Path, x: string, p: seq<string>, y: string, q: seq<string>)
    ensures base + [x] + p == base + [y] + q <==> x == y && p == q
  {
    var a, b := base + [x] + p, base + [y] + q;
    if a == b {
      assert a[|base|] == x && b[|base|] == y;
      assert a[|base| + 1..] == p && b[|base| + 1..] == q;
    }
  }

  lemma LeadsKnown(value: string, directory: string, tail: seq<string>)
    requires Leads(value, directory, tail)
    ensures SchemeIn(directory) == "site" <==> directory == "site"
  {
  }

  /** The lines of all distributions can stand together exactly when any two that
      name the same file can. */
  lemma LinesMergeable(base: Path, expected: map<string, Owner>, ds: seq<Installed>)
    requires AllGood(base, expected, ds)
    ensures var claims := AllClaims(base, expected, ds);
      (forall m, n :: 0 <= m < n < |claims| && claims[m].source == claims[n].source ==>
        Sharing(claims[m], claims[n])) <==>
        (forall i, k, j, l ::
          0 <= i < |ds| && 0 <= k < |ds[i].rows| && 0 <= j < |ds| && 0 <= l < |ds[j].rows| && (i != j || k != l) &&
            SameFile(ds[i].rows[k], ds[j].rows[l]) ==>
            Together(expected, ds[i], ds[i].rows[k], ds[j], ds[j].rows[l]))
  {
    hide AllClaims, ClaimOf, OwnerOf, AllGood, Sharing, SameFile, Together;
    var claims := AllClaims(base, expected, ds);
    ClaimsCount(base, expected, ds);
    if forall m, n :: 0 <= m < n < |claims| && claims[m].source == claims[n].source ==> Sharing(claims[m], claims[n]) {
      forall i, k, j, l |
        0 <= i < |ds| && 0 <= k < |ds[i].rows| && 0 <= j < |ds| && 0 <= l < |ds[j].rows| && (i != j || k != l) &&
          SameFile(ds[i].rows[k], ds[j].rows[l])
        ensures Together(expected, ds[i], ds[i].rows[k], ds[j], ds[j].rows[l]) {
        ClaimAt(base, expected, ds, i, k);
        ClaimAt(base, expected, ds, j, l);
        LinesTogether(base, expected, ds[i], ds[i].rows[k], ds[j], ds[j].rows[l]);
        if i < j { OffsetGrows(ds, i, j); }
        if j < i { OffsetGrows(ds, j, i); }
        var m, n := Offset(ds, i) + k, Offset(ds, j) + l;
        assert if m < n then Sharing(claims[m], claims[n]) else Sharing(claims[n], claims[m]);
      }
    }
    if forall i, k, j, l ::
        0 <= i < |ds| && 0 <= k < |ds[i].rows| && 0 <= j < |ds| && 0 <= l < |ds[j].rows| && (i != j || k != l) &&
          SameFile(ds[i].rows[k], ds[j].rows[l]) ==>
          Together(expected, ds[i], ds[i].rows[k], ds[j], ds[j].rows[l]) {
      forall m, n | 0 <= m < n < |claims| && claims[m].source == claims[n].source
        ensures Sharing(claims[m], claims[n]) {
        var i, k := LineAt(ds, m);
        var j, l := LineAt(ds, n);
        ClaimAt(base, expected, ds, i, k);
        ClaimAt(base, expected, ds, j, l);
        LinesTogether(base, expected, ds[i], ds[i].rows[k], ds[j], ds[j].rows[l]);
      }
    }
  }

  lemma ClaimAgain(base: Path, expected: map<string, Owner>, ds: seq<Installed>, d: Installed, row: Row)
    returns (c: Claim)
    requires AllGood(base, expected, ds) && d in ds && row in d.rows
    ensures c in AllClaims(base, expected, ds) && ClaimOf(base, d.info, OwnerOf(expected, d), row) == Some(c)
  {
    hide AllClaims, ClaimOf, OwnerOf, AllGood;
    var i :| 0 <= i < |ds| && ds[i] == d;
    var k :| 0 <= k < |d.rows| && d.rows[k] == row;
    ClaimAt(base, expected, ds, i, k);
    c := AllClaims(base, expected, ds)[Offset(ds, i) + k];
  }

  lemma LineOf(base: Path, expected: map<string, Owner>, ds: seq<Installed>, c: Claim) returns (d: Installed, row: Row)
    requires AllGood(base, expected, ds) && c in AllClaims(base, expected, ds)
    ensures d in ds && row in d.rows && ClaimOf(base, d.info, OwnerOf(expected, d), row) == Some(c)
  {
    hide AllClaims, ClaimOf, OwnerOf, AllGood;
    var claims := AllClaims(base, expected, ds);
    ClaimsCount(base, expected, ds);
    var n :| 0 <= n < |claims| && claims[n] == c;
    var i, k := LineAt(ds, n);
    ClaimAt(base, expected, ds, i, k);
    d, row := ds[i], ds[i].rows[k];
  }

  lemma ClaimsLeadTo(base: Path, info: string, owner: Owner, row: Row, p: Path)
    requires ClaimOf(base, info, owner, row).Some?
    ensures LeadsTo(base, row, p) <==> ClaimOf(base, info, owner, row).value.source == p
    ensures ClaimOf(base, info, owner, row).value.owner == owner
  {
    hide ClaimOf, Leads, Join;
    ClaimExactly(base, info, owner, row);
    var x, t :| Leads(row.value, x, t);
    if LeadsTo(base, row, p) {
      var y, u :| Leads(row.value, y, u) && p == base + [y] + u;
      LeadsOnce(row.value, x, t, y, u);
    }
  }

  lemma OwnersRecorded(base: Path, expected: map<string, Owner>, ds: seq<Installed>, p: Path)
    requires AllGood(base, expected, ds)
    ensures OwnersAt(AllClaims(base, expected, ds), p) == RecordedBy(base, expected, ds, p)
    ensures p in SourcesOf(AllClaims(base, expected, ds)) <==>
      exists d, row :: d in ds && row in d.rows && LeadsTo(base, row, p)
  {
    hide AllClaims, ClaimOf, OwnerOf, AllGood, LeadsTo;
    var claims := AllClaims(base, expected, ds);
    forall c | c in claims && c.source == p
      ensures exists d, row :: d in ds && row in d.rows && LeadsTo(base, row, p) && c.owner == OwnerOf(expected, d)
      ensures c.owner in RecordedBy(base, expected, ds, p) {
      var d, row := LineOf(base, expected, ds, c);
      ClaimsLeadTo(base, d.info, OwnerOf(expected, d), row, p);
      OwnerExactly(expected, d);
    }
    forall d, row | d in ds && row in d.rows && LeadsTo(base, row, p)
      ensures OwnerOf(expected, d) in OwnersAt(claims, p) && p in SourcesOf(claims) {
      var c := ClaimAgain(base, expected, ds, d, row);
      ClaimsLeadTo(base, d.info, OwnerOf(expected, d), row, p);
    }
    if p in SourcesOf(claims) {
      var c :| c in claims && c.source == p;
      var d, row := LineOf(base, expected, ds, c);
      ClaimsLeadTo(base, d.info, OwnerOf(expected, d), row, p);
    }
    forall o | o in RecordedBy(base, expected, ds, p) ensures o in OwnersAt(claims, p) {
      var d, row :| d in ds && row in d.rows && LeadsTo(base, row, p) &&
        o == Owner(d.name, d.version, if d.name in expected then expected[d.name].artifact else "");
      OwnerExactly(expected, d);
    }
  }

  lemma MergeableExactly(base: Path, expected: map<string, Owner>, ds: seq<Installed>)
    requires AllGood(base, expected, ds)
    ensures Mergeable(AllClaims(base, expected, ds)) <==>
      && (forall i, k, j, l ::
          0 <= i < |ds| && 0 <= k < |ds[i].rows| && 0 <= j < |ds| && 0 <= l < |ds[j].rows| && (i != j || k != l) &&
            SameFile(ds[i].rows[k], ds[j].rows[l]) ==>
            Together(expected, ds[i], ds[i].rows[k], ds[j], ds[j].rows[l]))
      && forall p :: |RecordedBy(base, expected, ds, p)| <= 64
  {
    hide AllClaims, AllGood, Sharing, SameFile, Together, OwnersAt, RecordedBy;
    LinesMergeable(base, expected, ds);
    forall p ensures OwnersAt(AllClaims(base, expected, ds), p) == RecordedBy(base, expected, ds, p) {
      OwnersRecorded(base, expected, ds, p);
    }
  }

  lemma GoodExactly(base: Path, expected: map<string, Owner>, ds: seq<Installed>)
    ensures AllGood(base, expected, ds) <==>
      forall d, row :: d in ds && row in d.rows ==> Leading(row)
  {
    hide ClaimOf, OwnerOf, Leading;
    forall d, row | d in ds && row in d.rows
      ensures ClaimOf(base, d.info, OwnerOf(expected, d), row).Some? <==> Leading(row) {
      LeadingClaims(base, d.info, OwnerOf(expected, d), row);
    }
    if forall d, row :: d in ds && row in d.rows ==> Leading(row) {
      forall d | d in ds ensures GoodRows(base, d.info, OwnerOf(expected, d), d.rows) {
        assert forall row :: row in d.rows ==> Leading(row);
      }
    }
  }

  lemma LeadingClaims(base: Path, info: string, owner: Owner, row: Row)
    ensures ClaimOf(base, info, owner, row).Some? <==> Leading(row)
  {
    hide ClaimOf, Leads;
    ClaimExactly(base, info, owner, row);
  }

  lemma {:induction false} NamesDistinct(ds: seq<Installed>)
    ensures |NamesOf(ds)| == |ds| <==> forall i, j :: 0 <= i < j < |ds| ==> ds[i].name != ds[j].name
  {
    hide NamesOf;
    if ds != [] {
      var n := |ds| - 1;
      var before := ds[..n];
      NamesDistinct(before);
      NamesBound(before);
      NamesNext(ds, n);
      assert ds[..n + 1] == ds;
      LastName(ds);
      assert (forall i, j :: 0 <= i < j < |ds| ==> ds[i].name != ds[j].name) <==>
        (forall i, j :: 0 <= i < j < n ==> before[i].name != before[j].name) &&
          forall i :: 0 <= i < n ==> ds[i].name != ds[n].name by {
        assert forall i :: 0 <= i < n ==> before[i] == ds[i];
      }
    } else {
      NoNames();
    }
  }

  lemma NoNames()
    ensures NamesOf([]) == {}
  {
  }

  lemma LastName(ds: seq<Installed>)
    requires ds != []
    ensures var n := |ds| - 1;
      ds[n].name in NamesOf(ds[..n]) <==> exists i :: 0 <= i < n && ds[i].name == ds[n].name
  {
    var n := |ds| - 1;
    var before := ds[..n];
    assert forall i :: 0 <= i < n ==> before[i] == ds[i] && before[i] in before;
    if ds[n].name in NamesOf(before) {
      var d :| d in before && d.name == ds[n].name;
      var i :| 0 <= i < n && before[i] == d;
    }
  }

  lemma ExactSetExactly(expected: map<string, Owner>, ds: seq<Installed>)
    ensures ExactSet(expected, ds) <==>
      && (forall i, j :: 0 <= i < j < |ds| ==> ds[i].name != ds[j].name)
      && (forall name :: name in expected ==> exists d :: d in ds && d.name == name)
      && forall d :: d in ds ==> d.name in expected && expected[d.name].version == d.version && |d.rows| > 0
  {
    NamesDistinct(ds);
    if ExactSet(expected, ds) {
      forall name | name in expected ensures exists d :: d in ds && d.name == name {
        assert name in NamesOf(ds);
      }
    }
    if forall d :: d in ds ==> d.name in expected {
      assert NamesOf(ds) <= expected.Keys;
    }
  }

  lemma FilesExactly(base: Path, expected: map<string, Owner>, ds: seq<Installed>, files: set<Path>)
    requires AllGood(base, expected, ds)
    ensures files <= SourcesOf(AllClaims(base, expected, ds)) <==>
      forall p :: p in files ==> exists d, row :: d in ds && row in d.rows && LeadsTo(base, row, p)
  {
    hide *;
    forall p ensures p in SourcesOf(AllClaims(base, expected, ds)) <==>
      exists d, row :: d in ds && row in d.rows && LeadsTo(base, row, p) {
      OwnersRecorded(base, expected, ds, p);
    }
  }

  /** Which installations are promoted: every expected distribution is there once
      and with its version, every line is sound and leads somewhere, lines that
      name the same file can do so, no file has more than 64 owners, and every
      file on disk is recorded. */
  lemma PromotableExactly(base: Path, expected: map<string, Owner>, ds: seq<Installed>, files: set<Path>)
    ensures Promotable(base, expected, ds, files) <==>
      && |expected| > 0
      && (forall i, j :: 0 <= i < j < |ds| ==> ds[i].name != ds[j].name)
      && (forall name :: name in expected ==> exists d :: d in ds && d.name == name)
      && (forall d :: d in ds ==> d.name in expected && expected[d.name].version == d.version && |d.rows| > 0)
      && (forall d, row :: d in ds && row in d.rows ==> Leading(row))
      && (forall i, k, j, l ::
          0 <= i < |ds| && 0 <= k < |ds[i].rows| && 0 <= j < |ds| && 0 <= l < |ds[j].rows| && (i != j || k != l) &&
            SameFile(ds[i].rows[k], ds[j].rows[l]) ==>
            Together(expected, ds[i], ds[i].rows[k], ds[j], ds[j].rows[l]))
      && (forall p :: |RecordedBy(base, expected, ds, p)| <= 64)
      && forall p :: p in files ==> exists d, row :: d in ds && row in d.rows && LeadsTo(base, row, p)
  {
    hide *;
    ExactSetExactly(expected, ds);
    GoodExactly(base, expected, ds);
    PromotableParts(base, expected, ds, files);
    if AllGood(base, expected, ds) {
      MergeableExactly(base, expected, ds);
      FilesExactly(base, expected, ds, files);
    }
  }

  /** A claim and the entry of its file. */
  lemma ClaimCarried(base: Path, info: string, owner: Owner, row: Row, claims: seq<Claim>, c: Claim, e: Destination)
    requires ClaimOf(base, info, owner, row) == Some(c) && c in claims && EntryFor(claims, e) && e.source == c.source
    ensures Carries(base, row, owner, e)
  {
    hide ClaimOf, Leads, Join, Ascending, Owners, HasOwner;
    ClaimExactly(base, info, owner, row);
    ClaimsLeadTo(base, info, owner, row, c.source);
    OwnersExactly(e.owned, owner);
    assert c.owner in Elements(Owners(e.owned));
    var directory, tail :| Leads(row.value, directory, tail);
    assert e.source == base + [directory] + tail;
  }

  /** The table says of every line what the line says, and nothing else. */
  lemma TableCarries(base: Path, expected: map<string, Owner>, ds: seq<Installed>, table: seq<Destination>)
    requires ExactSet(expected, ds) && AllGood(base, expected, ds) && IsTable(AllClaims(base, expected, ds), table)
    ensures forall d, row :: d in ds && row in d.rows ==>
      d.name in expected &&
        exists e :: e in table && Carries(base, row, Owner(d.name, d.version, expected[d.name].artifact), e)
    ensures forall e, owner :: e in table && HasOwner(e.owned, owner) ==>
      exists d, row ::
        && d in ds && row in d.rows && d.name in expected
        && owner == Owner(d.name, d.version, expected[d.name].artifact) && Carries(base, row, owner, e)
  {
    hide AllClaims, ClaimOf, OwnerOf, AllGood, EntryFor, Carries, HasOwner;
    var claims := AllClaims(base, expected, ds);
    forall d, row | d in ds && row in d.rows
      ensures d.name in expected &&
        exists e :: e in table && Carries(base, row, Owner(d.name, d.version, expected[d.name].artifact), e) {
      OwnerExactly(expected, d);
      var c := ClaimAgain(base, expected, ds, d, row);
      var e :| e in table && e.source == c.source;
      ClaimCarried(base, d.info, OwnerOf(expected, d), row, claims, c, e);
    }
    forall e, owner | e in table && HasOwner(e.owned, owner)
      ensures exists d, row ::
        && d in ds && row in d.rows && d.name in expected
        && owner == Owner(d.name, d.version, expected[d.name].artifact) && Carries(base, row, owner, e) {
      OwnersExactly(e.owned, owner);
      var c := OwnerClaims(claims, e, owner);
      var d, row := LineOf(base, expected, ds, c);
      OwnerExactly(expected, d);
      ClaimsLeadTo(base, d.info, OwnerOf(expected, d), row, c.source);
      ClaimCarried(base, d.info, OwnerOf(expected, d), row, claims, c, e);
    }
  }

  lemma OwnerClaims(claims: seq<Claim>, e: Destination, owner: Owner) returns (c: Claim)
    requires EntryFor(claims, e) && owner in Owners(e.owned)
    ensures c in claims && c.source == e.source && c.owner == owner
  {
    assert owner in Elements(Owners(e.owned));
    c :| c in claims && c.source == e.source && c.owner == owner;
  }

  /** The order of the table and of its owners. */
  lemma TableOrdered(claims: seq<Claim>, table: seq<Destination>)
    requires IsTable(claims, table)
    ensures forall i, j :: 0 <= i < j < |table| ==>
      Less(table[i].owned.scheme + "/" + table[i].owned.relative, table[j].owned.scheme + "/" + table[j].owned.relative)
    ensures forall e :: e in table ==>
      && |e.owned.shared| != 1
      && (e.owned.shared == [] || e.owned.shared[0] == Owner(e.owned.distribution, e.owned.version, e.owned.artifact))
      && forall i, j :: 0 <= i < j < |e.owned.shared| ==>
          Less(e.owned.shared[i].distribution, e.owned.shared[j].distribution)
  {
    forall i, j | 0 <= i < j < |table|
      ensures Less(table[i].owned.scheme + "/" + table[i].owned.relative,
        table[j].owned.scheme + "/" + table[j].owned.relative) {
      assert Less(KeyOf(table[i]), KeyOf(table[j]));
    }
    forall e | e in table ensures forall i, j :: 0 <= i < j < |e.owned.shared| ==>
      Less(e.owned.shared[i].distribution, e.owned.shared[j].distribution) {
      assert EntryFor(claims, e);
      forall i, j | 0 <= i < j < |e.owned.shared|
        ensures Less(e.owned.shared[i].distribution, e.owned.shared[j].distribution) {
        assert Less(NameOf(Owners(e.owned)[i]), NameOf(Owners(e.owned)[j]));
      }
    }
  }

  /** What is known after the first distributions. */
  ghost predicate MergedUpTo(base: Path, expected: map<string, Owner>, ds: seq<Installed>, k: nat,
      installed: set<string>, claims: seq<Claim>) {
    && k <= |ds| && AllGood(base, expected, ds[..k]) && claims == AllClaims(base, expected, ds[..k])
    && installed == NamesOf(ds[..k]) && |installed| == k && forall d :: d in ds[..k] ==> Expected(expected, d)
  }

  lemma MergedNext(base: Path, expected: map<string, Owner>, ds: seq<Installed>, k: nat, installed: set<string>,
      claims: seq<Claim>)
    requires MergedUpTo(base, expected, ds, k, installed, claims) && k < |ds|
    ensures ds[k].name in installed || !Expected(expected, ds[k]) ==> !ExactSet(expected, ds)
    ensures !GoodRows(base, ds[k].info, OwnerOf(expected, ds[k]), ds[k].rows) ==> !AllGood(base, expected, ds)
    ensures GoodRows(base, ds[k].info, OwnerOf(expected, ds[k]), ds[k].rows) ==>
      MergedMore(base, expected, ds, k, installed,
        claims + ClaimsOf(base, ds[k].info, OwnerOf(expected, ds[k]), ds[k].rows))
  {
    hide GoodRows, ClaimsOf, Mergeable, Expected, AllClaims, NamesOf, OwnerOf;
    assert ds[k] in ds;
    if ds[k].name in installed {
      DuplicateName(ds, k);
    }
    if GoodRows(base, ds[k].info, OwnerOf(expected, ds[k]), ds[k].rows) {
      ClaimsNext(base, expected, ds, k);
      NamesNext(ds, k);
      MergedPrefix(base, expected, ds, k, claims + ClaimsOf(base, ds[k].info, OwnerOf(expected, ds[k]), ds[k].rows));
      assert ds[..k + 1] == ds[..k] + [ds[k]];
    }
  }

  /** What is known once the lines of the next distribution have been read. */
  ghost predicate MergedMore(base: Path, expected: map<string, Owner>, ds: seq<Installed>, k: nat,
      installed: set<string>, more: seq<Claim>)
    requires k < |ds|
  {
    && (ds[k].name !in installed && Expected(expected, ds[k]) ==>
        MergedUpTo(base, expected, ds, k + 1, installed + {ds[k].name}, more))
    && (AllGood(base, expected, ds) && Mergeable(AllClaims(base, expected, ds)) ==> Mergeable(more))
  }

  lemma ClaimsNext(base: Path, expected: map<string, Owner>, ds: seq<Installed>, k: nat)
    requires k < |ds| && AllGood(base, expected, ds[..k])
    requires GoodRows(base, ds[k].info, OwnerOf(expected, ds[k]), ds[k].rows)
    ensures AllGood(base, expected, ds[..k + 1])
    ensures AllClaims(base, expected, ds[..k + 1])
      == AllClaims(base, expected, ds[..k]) + ClaimsOf(base, ds[k].info, OwnerOf(expected, ds[k]), ds[k].rows)
  {
    hide GoodRows, ClaimsOf;
    assert ds[..k + 1] == ds[..k] + [ds[k]] && ds[..k + 1][..k] == ds[..k];
  }

  lemma NamesNext(ds: seq<Installed>, k: nat)
    requires k < |ds|
    ensures NamesOf(ds[..k + 1]) == NamesOf(ds[..k]) + {ds[k].name}
  {
    assert ds[..k + 1] == ds[..k] + [ds[k]];
  }

  lemma MergedPrefix(base: Path, expected: map<string, Owner>, ds: seq<Installed>, k: nat, more: seq<Claim>)
    requires k < |ds| && AllGood(base, expected, ds[..k + 1]) && more == AllClaims(base, expected, ds[..k + 1])
    ensures AllGood(base, expected, ds) && Mergeable(AllClaims(base, expected, ds)) ==> Mergeable(more)
  {
    hide GoodRows, AllGood, AllClaims, Mergeable;
    if AllGood(base, expected, ds) && Mergeable(AllClaims(base, expected, ds)) {
      AllClaimsPrefix(base, expected, ds, k + 1);
      MergeablePrefix(more, AllClaims(base, expected, ds)[|more|..]);
    }
  }

  lemma MergedAll(base: Path, expected: map<string, Owner>, ds: seq<Installed>, installed: set<string>,
      claims: seq<Claim>)
    requires MergedUpTo(base, expected, ds, |ds|, installed, claims)
    ensures AllGood(base, expected, ds) && claims == AllClaims(base, expected, ds)
    ensures ExactSet(expected, ds) <==> |installed| == |expected|
  {
    hide GoodRows, AllClaims;
    assert ds[..|ds|] == ds;
    assert installed <= expected.Keys && |expected| == |expected.Keys|;
    if |installed| == |expected| {
      SubsetOfSameSize(installed, expected.Keys);
    }
  }

  lemma MergedNothing(base: Path, expected: map<string, Owner>, ds: seq<Installed>)
    ensures MergedUpTo(base, expected, ds, 0, {}, [])
  {
  }

  lemma ExpectedMeans(expected: map<string, Owner>, d: Installed)
    ensures Expected(expected, d) <==> d.name in expected && expected[d.name].version == d.version && |d.rows| > 0
  {
  }

  lemma MergedMeans(base: Path, expected: map<string, Owner>, ds: seq<Installed>, k: nat, installed: set<string>,
      claims: seq<Claim>)
    requires k < |ds|
    requires GoodRows(base, ds[k].info, OwnerOf(expected, ds[k]), ds[k].rows) ==>
      MergedMore(base, expected, ds, k, installed,
        claims + ClaimsOf(base, ds[k].info, OwnerOf(expected, ds[k]), ds[k].rows))
    ensures GoodRows(base, ds[k].info, OwnerOf(expected, ds[k]), ds[k].rows) ==>
      var more := claims + ClaimsOf(base, ds[k].info, OwnerOf(expected, ds[k]), ds[k].rows);
      && (ds[k].name !in installed && Expected(expected, ds[k]) ==>
          MergedUpTo(base, expected, ds, k + 1, installed + {ds[k].name}, more))
      && (AllGood(base, expected, ds) && Mergeable(AllClaims(base, expected, ds)) ==> Mergeable(more))
  {
    hide GoodRows, ClaimsOf, MergedUpTo, Mergeable, AllGood;
  }

  lemma PromotableParts(base: Path, expected: map<string, Owner>, ds: seq<Installed>, files: set<Path>)
    ensures Promotable(base, expected, ds, files) ==>
      |expected| > 0 && ExactSet(expected, ds) && AllGood(base, expected, ds)
    ensures AllGood(base, expected, ds) ==>
      var all := AllClaims(base, expected, ds);
      Promotable(base, expected, ds, files) <==>
        |expected| > 0 && ExactSet(expected, ds) && Mergeable(all) && files <= SourcesOf(all)
  {
    hide ExactSet, AllGood, AllClaims, Mergeable;
  }

  /** `validatedPyPIDestinations`: the table of an installation in which every
      expected distribution is recorded once and every file is recorded.  Its
      entries, in the order of their keys, say what the lines say. */
  method ValidatedDestinations(base: Path, expected: map<string, Owner>, ds: seq<Installed>, files: set<Path>)
    returns (ok: bool, table: seq<Destination>)
    ensures ok <==> Promotable(base, expected, ds, files)
    ensures if ok then IsTable(AllClaims(base, expected, ds), table) else table == []
    ensures ok ==> forall d, row :: d in ds && row in d.rows ==>
      d.name in expected &&
        exists e :: e in table && Carries(base, row, Owner(d.name, d.version, expected[d.name].artifact), e)
    ensures ok ==> forall e, owner :: e in table && HasOwner(e.owned, owner) ==>
      exists d, row ::
        && d in ds && row in d.rows && d.name in expected
        && owner == Owner(d.name, d.version, expected[d.name].artifact) && Carries(base, row, owner, e)
    ensures forall i, j :: 0 <= i < j < |table| ==>
      Less(table[i].owned.scheme + "/" + table[i].owned.relative, table[j].owned.scheme + "/" + table[j].owned.relative)
    ensures forall e :: e in table ==>
      && |e.owned.shared| != 1
      && (e.owned.shared == [] || e.owned.shared[0] == Owner(e.owned.distribution, e.owned.version, e.owned.artifact))
      && forall i, j :: 0 <= i < j < |e.owned.shared| ==>
          Less(e.owned.shared[i].distribution, e.owned.shared[j].distribution)
  {
    hide *;
    PromotableParts(base, expected, ds, files);
    if |expected| == 0 {
      return false, [];
    }
    var m := new Merge();
    var installed: set<string> := {};
    var k := 0;
    table := [];
    MergedNothing(base, expected, ds);
    while k < |ds|
      invariant 0 <= k <= |ds| && fresh(m) && m.Valid()
      invariant MergedUpTo(base, expected, ds, k, installed, m.claims)
    {
      var d := ds[k];
      ExpectedMeans(expected, d);
      MergedNext(base, expected, ds, k, installed, m.claims);
      if d.name !in expected || expected[d.name].version != d.version || d.name in installed {
        return false, [];
      }
      MergedMeans(base, expected, ds, k, installed, m.claims);
      ok := m.Record(base, d.info, OwnerOf(expected, d), d.rows);
      if !ok {
        return;
      }
      installed := installed + {d.name};
      k := k + 1;
    }
    MergedAll(base, expected, ds, installed, m.claims);
    AllDerived(base, expected, ds);
    m.ValidParts();
    SortedTable(base, m.claims, m.recorded, m.destinations);
    ok := |installed| == |expected| && files <= m.recorded.Keys;
    if ok {
      table := Sort(m.destinations, KeyOf);
      TableCarries(base, expected, ds, table);
      TableOrdered(m.claims, table);
    }
  }

  /** A distribution that records one file twice is always refused. */
  lemma RepeatRefused(base: Path, expected: map<string, Owner>, ds: seq<Installed>, files: set<Path>, k: nat, i: nat,
      j: nat)
    requires k < |ds| && i < j < |ds[k].rows|
    requires var owner := OwnerOf(expected, ds[k]);
      var c := ClaimOf(base, ds[k].info, owner, ds[k].rows[i]);
      var d := ClaimOf(base, ds[k].info, owner, ds[k].rows[j]);
      c.Some? && d.Some? && c.value.source == d.value.source
    ensures !Promotable(base, expected, ds, files)
  {
    hide ClaimOf, Mergeable, ExactSet;
    if Promotable(base, expected, ds, files) {
      assert ds[k] in ds;
      var owner := OwnerOf(expected, ds[k]);
      AllClaimsPrefix(base, expected, ds, k + 1);
      AllClaimsPrefix(base, expected, ds, k);
      ClaimsNext(base, expected, ds, k);
      var before, mine := AllClaims(base, expected, ds[..k]), ClaimsOf(base, ds[k].info, owner, ds[k].rows);
      MergeablePrefix(before + mine, AllClaims(base, expected, ds)[|before + mine|..]);
      OneOwner(base, ds[k].info, owner, ds[k].rows[i]);
      OneOwner(base, ds[k].info, owner, ds[k].rows[j]);
      RepeatedClaim(before, mine, i, j);
    }
  }

  lemma OneOwner(base: Path, info: string, owner: Owner, row: Row)
    ensures var c := ClaimOf(base, info, owner, row); c.Some? ==> c.value.owner == owner
  {
  }

  lemma RepeatedClaim(before: seq<Claim>, mine: seq<Claim>, i: nat, j: nat)
    requires i < j < |mine| && mine[i].source == mine[j].source && mine[i].owner == mine[j].owner
    ensures !Mergeable(before + mine)
  {
    var all := before + mine;
    assert all[|before| + i] == mine[i] && all[|before| + j] == mine[j];
  }
}
