/**
  What a completion manifest may declare, what a mirror receipt remembers, and
  what it means that a receipt is backed by the files on the local disk.
 */
module IncrementalManifest {
  import opened Prelude
  import opened Glob
  import opened MapSums

  const MAX_MANIFEST_BYTES: nat := 16 * 1024 * 1024
  const MAX_MANIFESTS: nat := 512
  const MAX_FILES: nat := 16_384
  const MAX_TOTAL_FILES: nat := 65_536
  const FREE_RESERVE_BYTES: nat := 1024 * 1024 * 1024

  /** A SHA-256 digest, as a function of the content that never collides. */
  datatype Digest = Sha256(content: string)

  /** An entry as parsed; a field that is missing or malformed is absent. */
  datatype RawEntry = RawEntry(path: Option<string>, size: Option<nat>, sha: Option<Digest>)
  datatype FileEntry = FileEntry(path: string, size: nat, sha: Digest)

  datatype ReceiptStatus = Pending | Verified

  datatype Receipt = Receipt(
    status: ReceiptStatus,
    remoteSize: nat,
    remoteModified: string,
    manifestSha: Digest,
    files: seq<FileEntry>,
    verifiedAt: nat)

  /** Local files by the components of their path below the mirror root. */
  type Files = map<seq<string>, string>

  /** `_incremental_relative` accepts the path. */
  predicate SafeRelative(s: string) {
    var parts := Components(s);
    && 0 < |s| <= 1024
    && '\\' !in s && '*' !in s
    && Printable(s)
    && PlainPath(parts)
    && forall i :: 0 <= i < |parts| ==> |parts[i]| <= 255
  }

  function NameOf(path: string): string {
    var parts := Components(path);
    parts[|parts| - 1]
  }

  predicate Declares(entries: seq<FileEntry>, path: string) {
    exists i :: 0 <= i < |entries| && entries[i].path == path
  }

  /** The entries of a manifest, or nothing when one is unsafe, malformed, repeated, or the manifest itself. */
  function Normalised(raw: seq<RawEntry>, name: string): Option<seq<FileEntry>> {
    if raw == [] then Some([])
    else
      var before, e := Normalised(raw[..|raw| - 1], name), raw[|raw| - 1];
      if before.None? || e.path.None? || e.size.None? || e.sha.None? then None
      else if !SafeRelative(e.path.value) || e.path.value == name || Declares(before.value, e.path.value) then None
      else Some(before.value + [FileEntry(e.path.value, e.size.value, e.sha.value)])
  }

  function Entries(raw: seq<RawEntry>, manifest: string): Option<seq<FileEntry>> {
    if raw == [] || |raw| > MAX_FILES then None else Normalised(raw, NameOf(manifest))
  }

  /** `_incremental_entries` */
  method ReadEntries(raw: seq<RawEntry>, manifest: string) returns (entries: Option<seq<FileEntry>>)
    ensures entries == Entries(raw, manifest)
  {
    if raw == [] || |raw| > MAX_FILES {
      return None;
    }
    var normalized: seq<FileEntry> := [];
    var seen: set<string> := {};
    for i := 0 to |raw|
      invariant Normalised(raw[..i], NameOf(manifest)) == Some(normalized)
      invariant forall path :: path in seen <==> Declares(normalized, path)
    {
      assert raw[..i + 1][..i] == raw[..i];
      var e := raw[i];
      if e.path.None? || !SafeRelative(e.path.value) || e.path.value == NameOf(manifest)
         || e.path.value in seen || e.size.None? || e.sha.None? {
        NoneStays(raw, i + 1, |raw|, NameOf(manifest));
        assert raw[..|raw|] == raw;
        return None;
      }
      DeclaresMore(normalized, FileEntry(e.path.value, e.size.value, e.sha.value));
      seen := seen + {e.path.value};
      normalized := normalized + [FileEntry(e.path.value, e.size.value, e.sha.value)];
    }
    assert raw[..|raw|] == raw;
    return Some(normalized);
  }

  lemma DeclaresMore(entries: seq<FileEntry>, e: FileEntry)
    ensures forall path :: Declares(entries + [e], path) <==> Declares(entries, path) || path == e.path
  {
    var n := entries + [e];
    assert n[|entries|] == e;
    forall path | Declares(entries, path)
      ensures Declares(n, path)
    {
      var i :| 0 <= i < |entries| && entries[i].path == path;
      assert n[i] == entries[i];
    }
  }

  lemma {:induction false} NoneStays(raw: seq<RawEntry>, i: nat, n: nat, name: string)
    requires i <= n <= |raw| && Normalised(raw[..i], name).None?
    ensures Normalised(raw[..n], name).None?
    decreases n
  {
    if i < n {
      NoneStays(raw, i, n - 1, name);
      assert raw[..n][..n - 1] == raw[..n - 1];
    }
  }

  predicate Distinct(entries: seq<FileEntry>) {
    forall i, j :: 0 <= i < j < |entries| ==> entries[i].path != entries[j].path
  }

  /** Accepted entries have safe, pairwise distinct paths, none of them the manifest's. */
  lemma {:induction false} NormalisedEntries(raw: seq<RawEntry>, name: string)
    requires Normalised(raw, name).Some?
    ensures var entries := Normalised(raw, name).value;
      && |entries| == |raw| && Distinct(entries)
      && forall i :: 0 <= i < |entries| ==> SafeRelative(entries[i].path) && entries[i].path != name
  {
    if raw != [] {
      NormalisedEntries(raw[..|raw| - 1], name);
    }
  }

  // ---- files on the local disk ----

  /** Where an entry lives below its root directory. */
  function Place(root: seq<string>, e: FileEntry): seq<string> {
    root + Components(e.path)
  }

  predicate Present(files: Files, root: seq<string>, e: FileEntry) {
    && Place(root, e) in files
    && |files[Place(root, e)]| == e.size
    && Sha256(files[Place(root, e)]) == e.sha
  }

  predicate AllPresent(files: Files, root: seq<string>, entries: seq<FileEntry>) {
    forall i :: 0 <= i < |entries| ==> Present(files, root, entries[i])
  }

  /** `_verify_incremental_files`: every declared file is there with its size and hash. */
  method VerifyFiles(files: Files, root: seq<string>, entries: seq<FileEntry>) returns (ok: bool)
    ensures ok <==> AllPresent(files, root, entries)
  {
    for i := 0 to |entries|
      invariant AllPresent(files, root, entries[..i])
    {
      var e := entries[i];
      if Place(root, e) !in files || |files[Place(root, e)]| != e.size || Sha256(files[Place(root, e)]) != e.sha {
        assert !Present(files, root, entries[i]);
        return false;
      }
      assert entries[..i + 1] == entries[..i] + [e];
    }
    assert entries[..|entries|] == entries;
    return true;
  }

  /** The completion manifest and every file it declares are on disk as declared. */
  predicate Backed(files: Files, manifest: string, r: Receipt) {
    && Components(manifest) in files
    && Sha256(files[Components(manifest)]) == r.manifestSha
    && AllPresent(files, ParentOf(manifest), r.files)
  }

  /** The files outside the directory `root` are the same. */
  ghost predicate SameOutside(f: Files, g: Files, root: seq<string>) {
    forall q :: !(root <= q) ==> (q in f <==> q in g) && (q in f ==> f[q] == g[q])
  }

  lemma OutsideOthers(pattern: string, m: string, other: string, y: seq<string>)
    requires ValidPattern(pattern) && Matches(pattern, m) && Matches(pattern, other) && m != other
    ensures !(ParentOf(m) <= ParentOf(other) + y)
  {
    var q := ParentOf(other) + y;
    if ParentOf(m) <= q {
      assert q == ParentOf(m) + q[|ParentOf(m)|..];
      DisjointSubtrees(pattern, m, other, q[|ParentOf(m)|..], y);
    }
  }

  /** Writing below the directory of one manifest leaves every other manifest of the pattern as it was. */
  lemma OthersUndisturbed(pattern: string, f: Files, g: Files, m: string, other: string, r: Receipt)
    requires ValidPattern(pattern) && Matches(pattern, m) && Matches(pattern, other) && m != other
    requires SameOutside(f, g, ParentOf(m)) && Backed(f, other, r)
    ensures Backed(g, other, r)
  {
    var root := ParentOf(other);
    assert Components(other) == root + [NameOf(other)];
    OutsideOthers(pattern, m, other, [NameOf(other)]);
    forall i | 0 <= i < |r.files|
      ensures Present(g, root, r.files[i])
    {
      assert Present(f, root, r.files[i]);
      OutsideOthers(pattern, m, other, Components(r.files[i].path));
    }
  }

  lemma PlacesDiffer(root: seq<string>, d: FileEntry, e: FileEntry)
    requires d.path != e.path
    ensures Place(root, d) != Place(root, e)
  {
    JoinComponents(d.path);
    JoinComponents(e.path);
    assert Components(d.path) == Place(root, d)[|root|..] && Components(e.path) == Place(root, e)[|root|..];
  }

  /** The final manifest never overwrites a file it declares. */
  lemma ManifestApart(manifest: string, e: FileEntry)
    requires e.path != NameOf(manifest)
    ensures Place(ParentOf(manifest), e) != Components(manifest)
  {
    var root := ParentOf(manifest);
    assert Components(manifest) == root + [NameOf(manifest)];
    JoinComponents(e.path);
    assert JoinPath([NameOf(manifest)]) == NameOf(manifest);
    assert Components(e.path) == Place(root, e)[|root|..];
    assert [NameOf(manifest)] == Components(manifest)[|root|..];
  }

  // ---- quotas ----

  function Declared(receipts: map<string, Receipt>): map<string, seq<FileEntry>> {
    map m | m in receipts :: receipts[m].files
  }

  function Bytes(entries: seq<FileEntry>): nat {
    if entries == [] then 0 else entries[0].size + Bytes(entries[1..])
  }

  function Counts(manifests: map<string, seq<FileEntry>>): map<string, nat> {
    map m | m in manifests :: |manifests[m]|
  }

  function Sizes(manifests: map<string, seq<FileEntry>>): map<string, nat> {
    map m | m in manifests :: Bytes(manifests[m])
  }

  ghost predicate WithinLimits(manifests: map<string, seq<FileEntry>>, maxTotalBytes: nat) {
    && |manifests| <= MAX_MANIFESTS
    && Total(Counts(manifests)) <= MAX_TOTAL_FILES
    && Total(Sizes(manifests)) <= maxTotalBytes
  }

  /** Sums of files and bytes over all manifests. */
  method Measure(manifests: map<string, seq<FileEntry>>) returns (files: nat, bytes: nat)
    ensures files == Total(Counts(manifests)) && bytes == Total(Sizes(manifests))
  {
    files, bytes := 0, 0;
    var rest := manifests;
    while rest != map[]
      invariant files + Total(Counts(rest)) == Total(Counts(manifests))
      invariant bytes + Total(Sizes(rest)) == Total(Sizes(manifests))
      decreases |rest|
    {
      var m :| m in rest;
      TotalSplits(Counts(rest), m);
      TotalSplits(Sizes(rest), m);
      assert Counts(rest) - {m} == Counts(rest - {m});
      assert Sizes(rest) - {m} == Sizes(rest - {m});
      files, bytes := files + |rest[m]|, bytes + Bytes(rest[m]);
      rest := rest - {m};
    }
  }

  /**
    `_enforce_incremental_run_limits`: the manifest joins the receipts, counted
    once, and the totals over all of them stay within the limits.
   */
  method EnforceLimits(receipts: map<string, Receipt>, manifest: string, entries: seq<FileEntry>, maxTotalBytes: nat)
    returns (ok: bool)
    ensures ok <==>
      && (manifest in receipts ==> receipts[manifest].files == entries)
      && WithinLimits(Declared(receipts)[manifest := entries], maxTotalBytes)
  {
    var manifests: map<string, seq<FileEntry>> := map[manifest := entries];
    var rest := receipts;
    while rest != map[]
      invariant forall m :: m in rest ==> m in receipts && receipts[m] == rest[m]
      invariant forall m :: m in manifests <==> m == manifest || (m in receipts && m !in rest)
      invariant manifests[manifest] == entries
      invariant forall m :: m in manifests && m != manifest ==> manifests[m] == receipts[m].files
      invariant manifest in receipts && manifest !in rest ==> receipts[manifest].files == entries
      decreases |rest|
    {
      var m :| m in rest;
      if m in manifests {
        if manifests[m] != rest[m].files {
          return false;
        }
      } else {
        manifests := manifests[m := rest[m].files];
      }
      rest := rest - {m};
    }
    assert manifests == Declared(receipts)[manifest := entries];
    if |manifests| > MAX_MANIFESTS {
      return false;
    }
    var files, bytes := Measure(manifests);
    return files <= MAX_TOTAL_FILES && bytes <= maxTotalBytes;
  }
}
