/** What the files of a virtual environment hold, as far as promotion reads
    them: opaque package bytes, ownership metadata, and the recovery ledger. */
module Records {

  datatype Owner = Owner(distribution: string, version: string, artifact: string)

  /** The JSON fields of `pypiDestination`. */
  datatype Owned = Owned(
    scheme: string, relative: string,
    distribution: string, version: string, artifact: string,
    shared: seq<Owner>,
    digest: string, size: int)

  type Files = map<string, Owned>

  /** One line of the append-only ledger. */
  datatype Entry =
    | Header
    | Intent(action: string, path: seq<string>)
    | Backed(path: seq<string>, index: nat)
    | Published(path: seq<string>)
    | Created(path: seq<string>, order: nat)
    | Metadata(backed: bool, published: bool)
    | Torn

  predicate HexDigit(c: char) {
    '0' <= c <= '9' || 'a' <= c <= 'f'
  }

  predicate HexDigest(s: string) {
    |s| == 64 && forall i :: 0 <= i < |s| ==> HexDigit(s[i])
  }

  type Digest = s: string | HexDigest(s) witness seq(64, _ => '0')

  /** Bytes are identified with their SHA-256 digest and length. */
  datatype Content =
    | Data(digest: Digest, size: nat)
    | Ownership(version: int, files: Files)
    | Journal(entries: seq<Entry>)
}
