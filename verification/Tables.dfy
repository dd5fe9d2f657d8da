/** The state database's tables, as maps keyed by their primary keys. */
module Tables {
  import opened Common

  /** A Dropbox path in lower case: the key of every table that names a file. */
  type Key = string

  /** A display path, one component per element. */
  type Display = seq<string>

  /** What hashing a staged file yields. */
  datatype Figures = Figures(size: nat, contentHash: string, sha1: string, sha256: string)

  // ---- dropbox_objects ----

  datatype Tag = File | Folder | Other

  datatype Entry = Entry(
    tag: Tag, display: Display, size: Option<nat>, contentHash: Option<string>, downloadable: bool)

  type Listing = map<Key, Entry>

  predicate Present(e: Entry) {
    e.tag == File && e.downloadable
  }

  predicate Mirrorable(e: Entry) {
    Present(e) && e.size.Some? && e.contentHash.Some?
  }

  /** A file that could never be verified counts as not downloadable. */
  function Marked(e: Entry): Entry {
    if Present(e) && !Mirrorable(e) then e.(downloadable := false) else e
  }

  /** The inventory phase demotes every such file. */
  function MarkUnhashed(l: Listing): (r: Listing)
    ensures r.Keys == l.Keys
    ensures forall k :: k in r ==> (Present(r[k]) <==> Mirrorable(l[k])) && (Present(r[k]) ==> Mirrorable(r[k]))
  {
    map k | k in l :: Marked(l[k])
  }

  // ---- mirror_objects ----

  datatype MirrorRow = MirrorRow(
    display: Display, size: nat, contentHash: string, sha1: string, sha256: string,
    uid: Option<string>, runId: nat)

  type Mirror = map<Key, MirrorRow>

  // ---- delta_changed, delta_deleted, deletions ----

  datatype ChangedRow = ChangedRow(display: Display, size: nat, contentHash: string)

  datatype DeletedRow = DeletedRow(display: Display, uid: Option<string>)

  datatype Deletion = Trashed(uid: string) | NotFound | ListingFailed

  /** Listed files the mirror lacks, mis-sizes or holds with another content hash. */
  function Changed(l: Listing, m: Mirror): set<Key> {
    set k | k in l && Mirrorable(l[k])
      && (k !in m || m[k].size != l[k].size.value || m[k].contentHash != l[k].contentHash.value)
  }

  /** Mirrored files the listing no longer has. */
  function Deleted(l: Listing, m: Mirror): set<Key> {
    set k | k in m && !(k in l && Present(l[k]))
  }

  // ---- batches, batch_items ----

  datatype ItemStatus =
    | Planned | Fetched | Vanished | Verified | HashMismatch | Confirmed | ConfirmFailed | Checkpointed

  /** The two digests are empty until verify records them. */
  datatype Item = Item(
    display: Display, size: nat, contentHash: string, status: ItemStatus, sha1: string, sha256: string)

  type Items = map<Key, Item>

  datatype BatchStatus = BatchPlanned | BatchCheckpointed | BatchFailed

  datatype Batch = Batch(runId: nat, number: nat, status: BatchStatus, items: Items)

  // ---- runs ----

  datatype RunStatus = RunRunning | RunInterrupted | RunFinished

  /** `remaining` is NULL until the batches phase has ended. */
  datatype RunRow = RunRow(status: RunStatus, reconcile: bool, chain: bool, remaining: Option<nat>)

  datatype Tables = Tables(
    mirror: Mirror, listing: Listing, changed: map<Key, ChangedRow>, deleted: map<Key, DeletedRow>,
    batches: map<nat, Batch>, runs: map<nat, RunRow>, deletions: map<(nat, Key), Deletion>)

  const EMPTY_TABLES := Tables(map[], map[], map[], map[], map[], map[], map[])
}
