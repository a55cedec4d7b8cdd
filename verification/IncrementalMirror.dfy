/**
  The local mirror of remote checkpoints. Process death is a fuse, the number
  of durable writes the process still completes; every file, receipt and
  acknowledgement written burns one.
 */
module IncrementalMirror {
  import opened Prelude
  import opened Glob
  import opened IncrementalManifest

  datatype RemoteFile = RemoteFile(path: string, size: nat, modified: string)

  /** What the transfer and the machine answer while one manifest is mirrored. */
  datatype Delivery = Delivery(
    manifest: Option<string>,
    reportedSize: nat,
    reportedSha: Digest,
    freeBytes: nat,
    payload: Option<Files>,
    verifiedAt: nat,
    ackDelivered: bool)

  datatype Outcome = Mirrored | Failed | Died

  /** What is durable. */
  datatype Disk = Disk(files: Files, receipts: map<string, Receipt>, acks: map<string, Receipt>)

  /** A receipt keeps its manifest hash and its file list. */
  predicate SameContent(r: Receipt, s: Receipt) {
    r.manifestSha == s.manifestSha && r.files == s.files
  }

  ghost predicate Grows(before: map<string, Receipt>, after: map<string, Receipt>) {
    forall m :: m in before ==> m in after && SameContent(before[m], after[m])
  }

  /** An acknowledgement is of a verified state whose content the receipt still has. */
  predicate AckSound(ack: Receipt, m: string, receipts: map<string, Receipt>) {
    ack.status == Verified && m in receipts && SameContent(ack, receipts[m])
  }

  ghost predicate AcksKept(before: map<string, Receipt>, after: map<string, Receipt>) {
    forall m :: m in before ==> m in after && after[m] == before[m]
  }

  ghost predicate OnlyOne(before: map<string, Receipt>, after: map<string, Receipt>, m: string) {
    forall n :: n != m ==> (n in before <==> n in after) && (n in before ==> before[n] == after[n])
  }

  /** The receipt is verified and its fingerprint is the one the remote file has now. */
  predicate Current(remote: RemoteFile, receipts: map<string, Receipt>) {
    && remote.path in receipts
    && var r := receipts[remote.path];
      r.status == Verified && r.remoteSize == remote.size && r.remoteModified == remote.modified
  }

  lemma Chain(a: map<string, Receipt>, b: map<string, Receipt>, c: map<string, Receipt>, m: string)
    requires Grows(a, b) && Grows(b, c) && OnlyOne(a, b, m) && OnlyOne(b, c, m)
    ensures Grows(a, c) && OnlyOne(a, c, m)
  {
  }

  /** The receipt written before any file of a refreshed manifest is touched. */
  predicate Admitted(remote: RemoteFile, content: string, r: Receipt) {
    r.status == Pending && r.remoteSize == remote.size && r.remoteModified == remote.modified
      && r.manifestSha == Sha256(content)
  }

  lemma EntriesDistinct(raw: seq<RawEntry>, m: string)
    requires Entries(raw, m).Some?
    ensures var entries := Entries(raw, m).value;
      Distinct(entries) && forall i :: 0 <= i < |entries| ==> entries[i].path != NameOf(m)
  {
    NormalisedEntries(raw, NameOf(m));
  }

  lemma LimitsKept(receipts: map<string, Receipt>, m: string, maxTotalBytes: nat)
    requires m in receipts && WithinLimits(Declared(receipts), maxTotalBytes)
    ensures WithinLimits(Declared(receipts)[m := receipts[m].files], maxTotalBytes)
  {
    assert Declared(receipts)[m := receipts[m].files] == Declared(receipts);
  }

  lemma UpdateGrows(receipts: map<string, Receipt>, m: string, r: Receipt)
    requires m in receipts ==> SameContent(receipts[m], r)
    ensures Grows(receipts, receipts[m := r]) && OnlyOne(receipts, receipts[m := r], m)
  {
  }

  lemma DeclaredAfter(receipts: map<string, Receipt>, m: string, r: Receipt)
    ensures Declared(receipts[m := r]) == Declared(receipts)[m := r.files]
  {
  }

  lemma AcksAfter(acks: map<string, Receipt>, receipts: map<string, Receipt>, m: string, r: Receipt)
    requires m in receipts ==> SameContent(receipts[m], r)
    requires forall n :: n in acks ==> AckSound(acks[n], n, receipts)
    ensures forall n :: n in acks ==> AckSound(acks[n], n, receipts[m := r])
  {
  }

  /** What the transfer lists below the fixed prefix: paths that the relative pattern matches. */
  predicate Listing(pattern: string, found: seq<RemoteFile>, deliveries: seq<Delivery>)
    requires ValidPattern(pattern)
  {
    && |found| == |deliveries|
    && forall i :: 0 <= i < |found| ==> Matches(Discovery(pattern).value.relative, found[i].path)
  }

  /** The file as the run knows it: its path with the fixed prefix put back. */
  function Put(pattern: string, remote: RemoteFile): RemoteFile
    requires ValidPattern(pattern)
  {
    remote.(path := Prefixed(Discovery(pattern).value, remote.path))
  }

  /** The receipt is the current one, and acknowledged if acknowledgements are on. */
  predicate Done(remote: RemoteFile, receipts: map<string, Receipt>, acks: map<string, Receipt>, acknowledges: bool) {
    && Current(remote, receipts)
    && (acknowledges ==> remote.path in acks && acks[remote.path] == receipts[remote.path])
  }

  /** No later one of the first `n` files found has the path of the `i`-th. */
  predicate LastOf(pattern: string, found: seq<RemoteFile>, n: nat, i: nat)
    requires ValidPattern(pattern) && i < n <= |found|
  {
    forall j :: i < j < n ==> Put(pattern, found[j]).path != Put(pattern, found[i]).path
  }

  /** The first `n` files found are mirrored, a path found twice as it was found last. */
  predicate MirroredFirst(pattern: string, found: seq<RemoteFile>, n: nat, receipts: map<string, Receipt>,
      acks: map<string, Receipt>, acknowledges: bool)
    requires ValidPattern(pattern) && n <= |found|
  {
    forall i :: 0 <= i < n ==>
      && found[i].size <= MAX_MANIFEST_BYTES
      && Put(pattern, found[i]).path in receipts
      && (LastOf(pattern, found, n, i) ==> Done(Put(pattern, found[i]), receipts, acks, acknowledges))
  }

  /** Nothing has changed but the receipts of the first `n` files found. */
  ghost predicate OnlyFirst(pattern: string, found: seq<RemoteFile>, n: nat, before: map<string, Receipt>,
      after: map<string, Receipt>)
    requires ValidPattern(pattern) && n <= |found|
  {
    forall m :: (forall i :: 0 <= i < n ==> Put(pattern, found[i]).path != m) ==>
      (m in before <==> m in after) && (m in before ==> before[m] == after[m])
  }

  /** Nothing has changed but the receipts of some first files found. */
  ghost predicate OnlySome(pattern: string, found: seq<RemoteFile>, before: map<string, Receipt>,
      after: map<string, Receipt>)
    requires ValidPattern(pattern)
  {
    exists k :: 0 < k <= |found| && OnlyFirst(pattern, found, k, before, after)
  }

  lemma OnlyFirstSome(pattern: string, found: seq<RemoteFile>, k: nat, before: map<string, Receipt>,
      after: map<string, Receipt>)
    requires ValidPattern(pattern) && 0 < k <= |found| && OnlyFirst(pattern, found, k, before, after)
    ensures OnlySome(pattern, found, before, after)
  {
  }

  lemma MirroredNext(pattern: string, found: seq<RemoteFile>, n: nat, before: map<string, Receipt>,
      after: map<string, Receipt>, acksBefore: map<string, Receipt>, acks: map<string, Receipt>, acknowledges: bool)
    requires ValidPattern(pattern) && n < |found| && found[n].size <= MAX_MANIFEST_BYTES
    requires MirroredFirst(pattern, found, n, before, acksBefore, acknowledges)
    requires Grows(before, after) && OnlyOne(before, after, Put(pattern, found[n]).path) && AcksKept(acksBefore, acks)
    requires Done(Put(pattern, found[n]), after, acks, acknowledges)
    ensures MirroredFirst(pattern, found, n + 1, after, acks, acknowledges)
  {
    forall i | 0 <= i < n
      ensures Put(pattern, found[i]).path in after
      ensures LastOf(pattern, found, n + 1, i) ==> Done(Put(pattern, found[i]), after, acks, acknowledges)
    {
      if LastOf(pattern, found, n + 1, i) {
        assert LastOf(pattern, found, n, i) && Put(pattern, found[n]).path != Put(pattern, found[i]).path;
      }
    }
  }

  lemma OnlyFirstNext(pattern: string, found: seq<RemoteFile>, n: nat, before: map<string, Receipt>,
      between: map<string, Receipt>, after: map<string, Receipt>)
    requires ValidPattern(pattern) && n < |found| && OnlyFirst(pattern, found, n, before, between)
    requires OnlyOne(between, after, Put(pattern, found[n]).path)
    ensures OnlyFirst(pattern, found, n + 1, before, after)
  {
  }

  function EntriesIn(parse: string -> Option<seq<RawEntry>>, content: string,
      manifest: string): Option<seq<FileEntry>> {
    var raw := parse(content);
    if raw.None? then None else Entries(raw.value, manifest)
  }

  /** What was fetched is the manifest that was reported, and its entries can be read. */
  predicate Fetched(parse: string -> Option<seq<RawEntry>>, m: string, d: Delivery) {
    && d.manifest.Some?
    && d.reportedSha == Sha256(d.manifest.value) && d.reportedSize == |d.manifest.value|
    && EntriesIn(parse, d.manifest.value, m).Some?
  }

  /** What was fetched does not conflict with the receipt, and the quotas still hold with it. */
  ghost predicate Admissible(parse: string -> Option<seq<RawEntry>>, maxTotalBytes: nat, receipts: map<string, Receipt>,
      m: string, d: Delivery) {
    && Fetched(parse, m, d)
    && (m in receipts ==> receipts[m].manifestSha == Sha256(d.manifest.value))
    && WithinLimits(Declared(receipts)[m := EntriesIn(parse, d.manifest.value, m).value], maxTotalBytes)
  }

  /** The declared files are in place, or there is room for them and the download has them all. */
  predicate Available(files: Files, root: seq<string>, entries: seq<FileEntry>, d: Delivery) {
    || AllPresent(files, root, entries)
    || (d.freeBytes >= Bytes(entries) + FREE_RESERVE_BYTES && d.payload.Some?
        && AllPresent(d.payload.value, [], entries))
  }

  /** Nothing stands in the way of mirroring a manifest anew. */
  ghost predicate Mirrorable(parse: string -> Option<seq<RawEntry>>, maxTotalBytes: nat, files: Files,
      receipts: map<string, Receipt>, m: string, d: Delivery) {
    && Admissible(parse, maxTotalBytes, receipts, m, d)
    && Available(files, ParentOf(m), EntriesIn(parse, d.manifest.value, m).value, d)
  }

  /** The acknowledgement of a receipt fits the one signed before, and is delivered. */
  predicate Acknowledgeable(m: string, r: Receipt, acks: map<string, Receipt>, delivered: bool) {
    (m in acks ==> acks[m] == r) && delivered
  }

  /** The receipt is current and its acknowledgement goes out. */
  predicate Acknowledged(remote: RemoteFile, receipts: map<string, Receipt>, acks: map<string, Receipt>, d: Delivery) {
    Current(remote, receipts) && Acknowledgeable(remote.path, receipts[remote.path], acks, d.ackDelivered)
  }

  /** A receipt lists the entries of its manifest; a verified one has them all on disk. */
  predicate Sound(pattern: string, parse: string -> Option<seq<RawEntry>>, files: Files, m: string, r: Receipt) {
    && Matches(pattern, m)
    && EntriesIn(parse, r.manifestSha.content, m) == Some(r.files)
    && (r.status == Verified ==> Backed(files, m, r))
  }

  /** Receipts and acknowledgements agree, and the quotas hold. */
  ghost predicate BooksOk(receipts: map<string, Receipt>, acks: map<string, Receipt>, maxTotalBytes: nat) {
    && (forall m :: m in acks ==> AckSound(acks[m], m, receipts))
    && WithinLimits(Declared(receipts), maxTotalBytes)
  }

  predicate AllSound(pattern: string, parse: string -> Option<seq<RawEntry>>, files: Files,
      receipts: map<string, Receipt>) {
    forall m :: m in receipts ==> Sound(pattern, parse, files, m, receipts[m])
  }

  lemma ReceiptKeepsSound(pattern: string, parse: string -> Option<seq<RawEntry>>, files: Files,
                          receipts: map<string, Receipt>, m: string, r: Receipt)
    requires AllSound(pattern, parse, files, receipts) && Sound(pattern, parse, files, m, r)
    ensures AllSound(pattern, parse, files, receipts[m := r])
  {
  }

  /** A file written below one pending manifest leaves every receipt sound. */
  lemma FileKeepsSound(pattern: string, parse: string -> Option<seq<RawEntry>>, files: Files, after: Files,
                       receipts: map<string, Receipt>, m: string, n: string)
    requires ValidPattern(pattern) && Matches(pattern, m) && SameOutside(files, after, ParentOf(m))
    requires m in receipts && receipts[m].status == Pending
    requires n in receipts && Sound(pattern, parse, files, n, receipts[n])
    ensures Sound(pattern, parse, after, n, receipts[n])
  {
    if receipts[n].status == Verified {
      OthersUndisturbed(pattern, files, after, m, n, receipts[n]);
    }
  }

  /** Replacing one receipt by one of the same content. */
  lemma ReceiptKeepsBooks(receipts: map<string, Receipt>, acks: map<string, Receipt>, maxTotalBytes: nat, m: string,
      r: Receipt)
    requires BooksOk(receipts, acks, maxTotalBytes) && (m in receipts ==> SameContent(receipts[m], r))
    requires WithinLimits(Declared(receipts)[m := r.files], maxTotalBytes)
    ensures BooksOk(receipts[m := r], acks, maxTotalBytes)
  {
    DeclaredAfter(receipts, m, r);
    AcksAfter(acks, receipts, m, r);
  }

  lemma ReceiptKeeps(pattern: string, parse: string -> Option<seq<RawEntry>>, disk: Disk, maxTotalBytes: nat, m: string,
      r: Receipt, after: map<string, Receipt>)
    requires AllSound(pattern, parse, disk.files, disk.receipts) && BooksOk(disk.receipts, disk.acks, maxTotalBytes)
    requires Sound(pattern, parse, disk.files, m, r) && (m in disk.receipts ==> SameContent(disk.receipts[m], r))
    requires WithinLimits(Declared(disk.receipts)[m := r.files], maxTotalBytes) && after == disk.receipts[m := r]
    ensures AllSound(pattern, parse, disk.files, after) && BooksOk(after, disk.acks, maxTotalBytes)
  {
    ReceiptKeepsSound(pattern, parse, disk.files, disk.receipts, m, r);
    ReceiptKeepsBooks(disk.receipts, disk.acks, maxTotalBytes, m, r);
  }

  /** Writing below the directory of a manifest whose receipt is pending. */
  lemma FileKeepsAllSound(pattern: string, parse: string -> Option<seq<RawEntry>>, files: Files, after: Files,
                          receipts: map<string, Receipt>, m: string)
    requires ValidPattern(pattern) && AllSound(pattern, parse, files, receipts)
    requires m in receipts && receipts[m].status == Pending && SameOutside(files, after, ParentOf(m))
    ensures AllSound(pattern, parse, after, receipts)
  {
    assert Sound(pattern, parse, files, m, receipts[m]);
    forall n | n in receipts
      ensures Sound(pattern, parse, after, n, receipts[n])
    {
      FileKeepsSound(pattern, parse, files, after, receipts, m, n);
    }
  }

  /** One more file in place leaves the earlier ones there. */
  lemma PresentNext(files: Files, root: seq<string>, entries: seq<FileEntry>, i: nat, content: string)
    requires i < |entries| && Distinct(entries) && AllPresent(files, root, entries[..i])
    requires |content| == entries[i].size && Sha256(content) == entries[i].sha
    ensures AllPresent(files[Place(root, entries[i]) := content], root, entries[..i + 1])
  {
    var after := files[Place(root, entries[i]) := content];
    forall j | 0 <= j < i
      ensures Present(after, root, entries[j])
    {
      assert Present(files, root, entries[..i][j]);
      PlacesDiffer(root, entries[j], entries[i]);
    }
    assert Present(after, root, entries[i]);
  }

  class IncrementalMirror {
    const pattern: string
    const parse: string -> Option<seq<RawEntry>>
    const maxTotalBytes: nat
    const acknowledges: bool
    var files: Files
    var receipts: map<string, Receipt>
    var acks: map<string, Receipt>
    // receipts whose files this process has already checked
    var known: set<string>

    ghost predicate Valid()
      reads this`files, this`receipts, this`acks
    {
      ValidPattern(pattern) && AllSound(pattern, parse, files, receipts) && BooksOk(receipts, acks, maxTotalBytes)
    }

    constructor (pattern: string, parse: string -> Option<seq<RawEntry>>, maxTotalBytes: nat, acknowledges: bool)
      requires ValidPattern(pattern)
      ensures Valid() && receipts == map[] && acks == map[]
      ensures this.pattern == pattern && this.maxTotalBytes == maxTotalBytes
    {
      this.pattern, this.parse, this.maxTotalBytes, this.acknowledges := pattern, parse, maxTotalBytes, acknowledges;
      files, receipts, acks, known := map[], map[], map[], {};
      new;
      assert Declared(receipts) == map[];
      assert Counts(map[]) == map[] && Sizes(map[]) == map[];
    }

    /** A process restart forgets only what was in memory. */
    method Restart()
      requires Valid()
      modifies this`known
      ensures Valid() && known == {}
    {
      known := {};
    }

    /** `_verify_incremental_cache`: rechecks a verified receipt against the disk. */
    method VerifyCache(m: string) returns (ok: bool)
      requires Valid() && m in receipts
      ensures receipts[m].status == Verified ==> ok
      ensures ok <==> Backed(files, m, receipts[m])
    {
      var r := receipts[m];
      if Components(m) !in files || Sha256(files[Components(m)]) != r.manifestSha {
        return false;
      }
      var raw := parse(files[Components(m)]);
      if raw.None? {
        return false;
      }
      var entries := ReadEntries(raw.value, m);
      if entries.None? || entries.value != r.files {
        return false;
      }
      ok := VerifyFiles(files, ParentOf(m), entries.value);
    }

    /** `_publish_incremental_ack`: signs once; a receipt that has changed since no longer fits its acknowledgement. */
    method PublishAck(m: string, delivered: bool, fuse: nat) returns (r: Outcome, left: nat)
      requires Valid() && m in receipts && receipts[m].status == Verified
      modifies this`acks
      ensures Valid() && left <= fuse
      ensures AcksKept(old(acks), acks)
      ensures forall n :: n in acks && n !in old(acks) ==> n == m && acks[n] == receipts[m]
      ensures acknowledges && m in old(acks) && old(acks)[m] != receipts[m] ==> r == Failed
      ensures r == Mirrored && acknowledges ==> m in acks && acks[m] == receipts[m]
      ensures r != Died ==> (r == Mirrored <==> !acknowledges || Acknowledgeable(m, receipts[m], old(acks), delivered))
      ensures r == Died ==> left == 0
    {
      left := fuse;
      if !acknowledges {
        return Mirrored, left;
      }
      if m in acks {
        if acks[m] != receipts[m] {
          return Failed, left;
        }
      } else {
        if left == 0 {
          return Died, left;
        }
        acks, left := acks[m := receipts[m]], left - 1;
      }
      if !delivered {
        return Failed, left;
      }
      return Mirrored, left;
    }

    /** Replaces the receipt of a manifest; the others stay sound. */
    method WriteReceipt(m: string, r: Receipt)
      requires Valid() && Sound(pattern, parse, files, m, r)
      requires m in receipts ==> SameContent(receipts[m], r)
      requires WithinLimits(Declared(receipts)[m := r.files], maxTotalBytes)
      modifies this`receipts
      ensures Valid() && receipts == old(receipts)[m := r]
    {
      var after := receipts[m := r];
      ReceiptKeeps(pattern, parse, Disk(files, receipts, acks), maxTotalBytes, m, r, after);
      receipts := after;
    }

    /** Writes one file below the directory of a manifest whose receipt is pending. */
    method WriteFile(m: string, place: seq<string>, content: string)
      requires Valid() && m in receipts && receipts[m].status == Pending
      requires ParentOf(m) <= place
      modifies this`files
      ensures Valid() && files == old(files)[place := content]
      ensures SameOutside(old(files), files, ParentOf(m))
    {
      FileKeepsAllSound(pattern, parse, files, files[place := content], receipts, m);
      files := files[place := content];
    }

    /** `_publish_incremental_files`: moves verified files from staging into place, one by one. */
    method PublishFiles(m: string, staged: Files, entries: seq<FileEntry>, fuse: nat) returns (alive: bool, left: nat)
      requires Valid() && m in receipts && receipts[m].status == Pending
      requires AllPresent(staged, [], entries) && Distinct(entries)
      modifies this`files
      ensures Valid() && left <= fuse
      ensures SameOutside(old(files), files, ParentOf(m))
      ensures alive ==> AllPresent(files, ParentOf(m), entries)
      ensures !alive ==> left == 0
    {
      left := fuse;
      var root := ParentOf(m);
      for i := 0 to |entries|
        invariant Valid() && left <= fuse
        invariant SameOutside(old(files), files, root)
        invariant AllPresent(files, root, entries[..i])
      {
        if left == 0 {
          return false, left;
        }
        left := left - 1;
        var e := entries[i];
        assert Present(staged, [], e);
        PresentNext(files, root, entries, i, staged[Place([], e)]);
        WriteFile(m, Place(root, e), staged[Place([], e)]);
      }
      assert entries[..|entries|] == entries;
      return true, left;
    }

    /** Fetches the completion manifest and reads its entries; nothing durable changes. */
    method FetchManifest(remote: RemoteFile, d: Delivery) returns (content: string, entries: Option<seq<FileEntry>>)
      ensures entries.Some? ==>
        && d.manifest == Some(content) && d.reportedSha == Sha256(content) && d.reportedSize == |content|
        && EntriesIn(parse, content, remote.path) == entries
      ensures entries.Some? <==> Fetched(parse, remote.path, d)
    {
      if d.manifest.None? {
        return "", None;
      }
      content := d.manifest.value;
      if d.reportedSha != Sha256(content) || d.reportedSize != |content| {
        return content, None;
      }
      var raw := parse(content);
      if raw.None? {
        return content, None;
      }
      entries := ReadEntries(raw.value, remote.path);
    }

    /** Brings every declared file into place, downloading only when some are missing. */
    method FillFiles(m: string, d: Delivery, fuse: nat) returns (r: Outcome, left: nat)
      requires Valid() && m in receipts && receipts[m].status == Pending
      modifies this`files
      ensures Valid() && left <= fuse
      ensures SameOutside(old(files), files, ParentOf(m))
      ensures r == Mirrored ==> AllPresent(files, ParentOf(m), receipts[m].files)
      ensures old(AllPresent(files, ParentOf(m), receipts[m].files)) ==> r == Mirrored && files == old(files)
      ensures r != Died ==> (r == Mirrored <==> Available(old(files), ParentOf(m), receipts[m].files, d))
      ensures r == Died ==> left == 0
    {
      left := fuse;
      var root, entries := ParentOf(m), receipts[m].files;
      var present := VerifyFiles(files, root, entries);
      if present {
        return Mirrored, left;
      }
      if d.freeBytes < Bytes(entries) + FREE_RESERVE_BYTES || d.payload.None? {
        return Failed, left;
      }
      var complete := VerifyFiles(d.payload.value, [], entries);
      if !complete {
        return Failed, left;
      }
      EntriesDistinct(parse(receipts[m].manifestSha.content).value, m);
      var alive;
      alive, left := PublishFiles(m, d.payload.value, entries, left);
      if !alive {
        return Died, left;
      }
      var again := VerifyFiles(files, root, entries);
      return if again then Mirrored else Failed, left;
    }

    /** The completion manifest is written last, over none of the files it declares. */
    method WriteManifest(m: string, content: string)
      requires Valid() && m in receipts && receipts[m].status == Pending && receipts[m].manifestSha == Sha256(content)
      requires AllPresent(files, ParentOf(m), receipts[m].files)
      modifies this`files
      ensures Valid() && Backed(files, m, receipts[m])
      ensures SameOutside(old(files), files, ParentOf(m))
    {
      EntriesDistinct(parse(content).value, m);
      ghost var before, r := files, receipts[m];
      WriteFile(m, Components(m), content);
      forall i | 0 <= i < |r.files|
        ensures Present(files, ParentOf(m), r.files[i])
      {
        assert Present(before, ParentOf(m), r.files[i]);
        ManifestApart(m, r.files[i]);
      }
    }

    /** With all files in place: the manifest itself, then the verified receipt. */
    method Seal(m: string, content: string, verifiedAt: nat, fuse: nat) returns (alive: bool, left: nat)
      requires Valid() && m in receipts && receipts[m].status == Pending && receipts[m].manifestSha == Sha256(content)
      requires AllPresent(files, ParentOf(m), receipts[m].files)
      modifies this`files, this`receipts
      ensures Valid() && left <= fuse
      ensures SameOutside(old(files), files, ParentOf(m))
      ensures receipts == old(receipts)
        || receipts == old(receipts)[m := old(receipts)[m].(status := Verified, verifiedAt := verifiedAt)]
      ensures Grows(old(receipts), receipts) && OnlyOne(old(receipts), receipts, m)
      ensures alive ==> receipts == old(receipts)[m := old(receipts)[m].(status := Verified, verifiedAt := verifiedAt)]
      ensures !alive ==> left == 0
    {
      if fuse < 2 {
        if fuse == 1 {
          WriteManifest(m, content);
        }
        return false, 0;
      }
      WriteManifest(m, content);
      LimitsKept(receipts, m, maxTotalBytes);
      UpdateGrows(receipts, m, receipts[m].(status := Verified, verifiedAt := verifiedAt));
      WriteReceipt(m, receipts[m].(status := Verified, verifiedAt := verifiedAt));
      return true, fuse - 2;
    }

    /**
      Admits a fetched manifest: no conflict with the receipt, within the quotas,
      and a pending receipt before any file.
     */
    method Admit(remote: RemoteFile, d: Delivery, fuse: nat) returns (r: Outcome, content: string, left: nat)
      requires Valid() && Matches(pattern, remote.path)
      modifies this`receipts
      ensures Valid() && left <= fuse && Grows(old(receipts), receipts)
      ensures r != Mirrored ==> receipts == old(receipts)
      ensures OnlyOne(old(receipts), receipts, remote.path)
      ensures r == Mirrored ==> remote.path in receipts && Admitted(remote, content, receipts[remote.path])
      ensures r == Mirrored ==> d.manifest == Some(content)
      ensures r != Died ==> (r == Mirrored <==> Admissible(parse, maxTotalBytes, old(receipts), remote.path, d))
      ensures r == Died ==> left == 0
    {
      left := fuse;
      var m, entries := remote.path, None;
      content, entries := FetchManifest(remote, d);
      if entries.None? {
        return Failed, content, left;
      }
      if m in receipts && receipts[m].manifestSha != Sha256(content) {
        return Failed, content, left;
      }
      var admitted := EnforceLimits(receipts, m, entries.value, maxTotalBytes);
      if !admitted {
        return Failed, content, left;
      }
      if left == 0 {
        return Died, content, left;
      }
      UpdateGrows(receipts, m, Receipt(Pending, remote.size, remote.modified, Sha256(content), entries.value, 0));
      WriteReceipt(m, Receipt(Pending, remote.size, remote.modified, Sha256(content), entries.value, 0));
      return Mirrored, content, left - 1;
    }

    /** From a pending receipt to a verified one. */
    method Complete(m: string, content: string, d: Delivery, fuse: nat) returns (r: Outcome, left: nat)
      requires Valid() && m in receipts && receipts[m].status == Pending && receipts[m].manifestSha == Sha256(content)
      modifies this`files, this`receipts
      ensures Valid() && left <= fuse
      ensures SameOutside(old(files), files, ParentOf(m))
      ensures Grows(old(receipts), receipts) && OnlyOne(old(receipts), receipts, m)
      ensures r == Mirrored ==>
        receipts == old(receipts)[m := old(receipts)[m].(status := Verified, verifiedAt := d.verifiedAt)]
      ensures r != Died ==> (r == Mirrored <==> Available(old(files), ParentOf(m), old(receipts)[m].files, d))
      ensures r == Died ==> left == 0
    {
      r, left := FillFiles(m, d, fuse);
      if r == Mirrored {
        var alive;
        alive, left := Seal(m, content, d.verifiedAt, left);
        r := if alive then Mirrored else Died;
      }
    }

    /** The manifest has changed or is new: admit it, fetch its files, seal it. */
    method Refresh(remote: RemoteFile, d: Delivery, fuse: nat) returns (r: Outcome, left: nat)
      requires Valid() && Matches(pattern, remote.path)
      modifies this`files, this`receipts
      ensures Valid() && left <= fuse
      ensures Grows(old(receipts), receipts) && OnlyOne(old(receipts), receipts, remote.path)
      ensures SameOutside(old(files), files, ParentOf(remote.path))
      ensures r == Mirrored ==> Current(remote, receipts)
      ensures r != Died ==>
        (r == Mirrored <==> Mirrorable(parse, maxTotalBytes, old(files), old(receipts), remote.path, d))
      ensures r == Died ==> left == 0
    {
      var content;
      r, content, left := Admit(remote, d, fuse);
      if r == Mirrored {
        ghost var admitted := receipts;
        r, left := Complete(remote.path, content, d, left);
        Chain(old(receipts), admitted, receipts, remote.path);
      }
    }

    /** From these files, receipts and acknowledgements a manifest can be mirrored, and acknowledged afterwards. */
    ghost predicate Passes(files: Files, receipts: map<string, Receipt>, acks: map<string, Receipt>, remote: RemoteFile,
        d: Delivery, after: map<string, Receipt>) {
      && SafeRelative(remote.path)
      && (Current(remote, receipts) || Mirrorable(parse, maxTotalBytes, files, receipts, remote.path, d))
      && (acknowledges ==> Acknowledged(remote, after, acks, d))
    }

    /** `_mirror_incremental_manifest` */
    method MirrorManifest(remote: RemoteFile, d: Delivery, fuse: nat) returns (r: Outcome, left: nat)
      requires Valid() && Matches(pattern, remote.path)
      modifies this`files, this`receipts, this`known, this`acks
      ensures Valid() && left <= fuse
      ensures Grows(old(receipts), receipts) && OnlyOne(old(receipts), receipts, remote.path)
      ensures SameOutside(old(files), files, ParentOf(remote.path))
      ensures AcksKept(old(acks), acks)
      ensures r == Mirrored ==> Done(remote, receipts, acks, acknowledges)
      ensures r != Died ==> (r == Mirrored <==> Passes(old(files), old(receipts), old(acks), remote, d, receipts))
      ensures r == Died ==> left == 0
    {
      left := fuse;
      var m := remote.path;
      if !SafeRelative(m) {
        return Failed, left;
      }
      if Current(remote, receipts) {
        if m !in known {
          var intact := VerifyCache(m);
          if !intact {
            return Failed, left;
          }
          known := known + {m};
        }
      } else {
        r, left := Refresh(remote, d, left);
        if r != Mirrored {
          return;
        }
        known := known + {m};
      }
      r, left := PublishAck(m, d.ackDelivered, left);
    }

    /** The `k`-th file found came after its predecessors were mirrored, and was too large or could not be mirrored. */
    ghost predicate StoppedAt(found: seq<RemoteFile>, deliveries: seq<Delivery>, k: nat, disk: Disk,
        after: map<string, Receipt>)
      requires ValidPattern(pattern) && k < |found| == |deliveries|
    {
      && MirroredFirst(pattern, found, k, disk.receipts, disk.acks, acknowledges) && Grows(disk.receipts, after)
      && (found[k].size > MAX_MANIFEST_BYTES
          || !Passes(disk.files, disk.receipts, disk.acks, Put(pattern, found[k]), deliveries[k], after))
    }

    ghost predicate Stopped(found: seq<RemoteFile>, deliveries: seq<Delivery>, after: map<string, Receipt>)
      requires ValidPattern(pattern) && |found| == |deliveries|
    {
      exists k: nat, disk :: k < |found| && StoppedAt(found, deliveries, k, disk, after)
    }

    /** One of the manifests found: the prefix is put back, and a manifest that is too large ends the poll. */
    method MirrorFound(found: RemoteFile, discovery: DiscoveryPattern, d: Delivery, fuse: nat)
      returns (r: Outcome, left: nat)
      requires Valid() && discovery == Discovery(pattern).value && Matches(discovery.relative, found.path)
      modifies this`files, this`receipts, this`known, this`acks
      ensures Valid() && left <= fuse
      ensures Grows(old(receipts), receipts) && OnlyOne(old(receipts), receipts, Put(pattern, found).path)
      ensures AcksKept(old(acks), acks)
      ensures r == Mirrored ==>
        found.size <= MAX_MANIFEST_BYTES && Done(Put(pattern, found), receipts, acks, acknowledges)
      ensures r == Failed ==>
        found.size > MAX_MANIFEST_BYTES
        || !Passes(old(files), old(receipts), old(acks), Put(pattern, found), d, receipts)
      ensures r == Died ==> left == 0
    {
      var remote := found.(path := Prefixed(discovery, found.path));
      SplitEquivalence(pattern, remote.path);
      if remote.size > MAX_MANIFEST_BYTES {
        return Failed, fuse;
      }
      r, left := MirrorManifest(remote, d, fuse);
    }

    /** Since `start` the first `i` files found were mirrored, and nothing else was touched. */
    ghost predicate Polled(found: seq<RemoteFile>, i: nat, start: Disk)
      requires ValidPattern(pattern) && i <= |found|
      reads this`receipts, this`acks
    {
      && Grows(start.receipts, receipts) && AcksKept(start.acks, acks)
      && MirroredFirst(pattern, found, i, receipts, acks, acknowledges)
      && OnlyFirst(pattern, found, i, start.receipts, receipts)
    }

    /** The next of the files found. */
    method PollNext(found: seq<RemoteFile>, deliveries: seq<Delivery>, i: nat, fuse: nat, ghost start: Disk)
      returns (r: Outcome, left: nat)
      requires Valid() && Listing(pattern, found, deliveries) && i < |found| && Polled(found, i, start)
      modifies this`files, this`receipts, this`known, this`acks
      ensures Valid() && left <= fuse
      ensures Grows(start.receipts, receipts) && AcksKept(start.acks, acks)
      ensures r == Mirrored ==> Polled(found, i + 1, start)
      ensures r != Mirrored ==> OnlySome(pattern, found, start.receipts, receipts)
      ensures r == Failed ==> Stopped(found, deliveries, receipts)
      ensures r == Died ==> left == 0
    {
      ghost var disk := Disk(files, receipts, acks);
      r, left := MirrorFound(found[i], Discovery(pattern).value, deliveries[i], fuse);
      Across(start.receipts, disk.receipts, receipts, start.acks, disk.acks, acks);
      OnlyFirstNext(pattern, found, i, start.receipts, disk.receipts, receipts);
      if r == Mirrored {
        MirroredNext(pattern, found, i, disk.receipts, receipts, disk.acks, acks, acknowledges);
      } else {
        OnlyFirstSome(pattern, found, i + 1, start.receipts, receipts);
        if r == Failed {
          assert StoppedAt(found, deliveries, i, disk, receipts);
        }
      }
    }

    /**
      One poll: every manifest found below the fixed prefix, in order, until one
      fails. It reports success only with all of them mirrored, and failure only
      at one that stands in the way.
     */
    method Poll(found: seq<RemoteFile>, deliveries: seq<Delivery>, fuse: nat) returns (r: Outcome, left: nat)
      requires Valid() && Listing(pattern, found, deliveries)
      modifies this`files, this`receipts, this`known, this`acks
      ensures Valid() && left <= fuse
      ensures Grows(old(receipts), receipts) && AcksKept(old(acks), acks)
      ensures r == Mirrored ==> MirroredFirst(pattern, found, |found|, receipts, acks, acknowledges)
      ensures r != Mirrored ==> OnlySome(pattern, found, old(receipts), receipts)
      ensures r == Failed ==> Stopped(found, deliveries, receipts)
      ensures r == Died ==> left == 0
    {
      left := fuse;
      ghost var start := Disk(files, receipts, acks);
      for i := 0 to |found|
        invariant Valid() && left <= fuse && Polled(found, i, start)
      {
        r, left := PollNext(found, deliveries, i, left, start);
        if r != Mirrored {
          return;
        }
      }
      return Mirrored, left;
    }
  }

  lemma Across(a: map<string, Receipt>, b: map<string, Receipt>, c: map<string, Receipt>,
      acksA: map<string, Receipt>, acksB: map<string, Receipt>, acksC: map<string, Receipt>)
    requires Grows(a, b) && Grows(b, c) && AcksKept(acksA, acksB) && AcksKept(acksB, acksC)
    ensures Grows(a, c) && AcksKept(acksA, acksC)
  {
  }

  datatype PollRun = PollRun(restarted: bool, found: seq<RemoteFile>, deliveries: seq<Delivery>, fuse: nat)

  /** Every manifest of the poll has a receipt, and an acknowledgement if acknowledgements are on. */
  predicate Receipted(pattern: string, found: seq<RemoteFile>, receipts: map<string, Receipt>, acks: map<string,
      Receipt>,
      acknowledges: bool)
    requires ValidPattern(pattern)
  {
    forall i :: 0 <= i < |found| ==>
      && Put(pattern, found[i]).path in receipts
      && (acknowledges ==> Put(pattern, found[i]).path in acks)
  }

  /** Of the files found with one path the last is a last one. */
  lemma {:induction false} SomeLast(pattern: string, found: seq<RemoteFile>, i: nat) returns (k: nat)
    requires ValidPattern(pattern) && i < |found|
    ensures i <= k < |found| && LastOf(pattern, found, |found|, k)
    ensures Put(pattern, found[k]).path == Put(pattern, found[i]).path
    decreases |found| - i
  {
    if LastOf(pattern, found, |found|, i) {
      k := i;
    } else {
      var j :| i < j < |found| && Put(pattern, found[j]).path == Put(pattern, found[i]).path;
      k := SomeLast(pattern, found, j);
    }
  }

  lemma MirroredReceipted(pattern: string, found: seq<RemoteFile>, receipts: map<string, Receipt>,
      acks: map<string, Receipt>, acknowledges: bool)
    requires ValidPattern(pattern) && MirroredFirst(pattern, found, |found|, receipts, acks, acknowledges)
    ensures Receipted(pattern, found, receipts, acks, acknowledges)
  {
    forall i | 0 <= i < |found|
      ensures Put(pattern, found[i]).path in receipts && (acknowledges ==> Put(pattern, found[i]).path in acks)
    {
      var k := SomeLast(pattern, found, i);
      assert Done(Put(pattern, found[k]), receipts, acks, acknowledges);
    }
  }

  lemma ReceiptedStays(pattern: string, found: seq<RemoteFile>, before: map<string, Receipt>,
      after: map<string, Receipt>, acksBefore: map<string, Receipt>, acks: map<string, Receipt>, acknowledges: bool)
    requires ValidPattern(pattern) && Receipted(pattern, found, before, acksBefore, acknowledges)
    requires Grows(before, after) && AcksKept(acksBefore, acks)
    ensures Receipted(pattern, found, after, acks, acknowledges)
  {
  }

  /** Every poll that was successful left its receipts. */
  predicate AllReceipted(pattern: string, polls: seq<PollRun>, results: seq<Outcome>, receipts: map<string, Receipt>,
      acks: map<string, Receipt>, acknowledges: bool)
    requires ValidPattern(pattern) && |results| <= |polls|
  {
    forall i :: 0 <= i < |results| && results[i] == Mirrored ==>
      Receipted(pattern, polls[i].found, receipts, acks, acknowledges)
  }

  lemma AllReceiptedNext(pattern: string, polls: seq<PollRun>, results: seq<Outcome>, r: Outcome,
      before: map<string, Receipt>, after: map<string, Receipt>, acksBefore: map<string, Receipt>,
      acks: map<string, Receipt>, acknowledges: bool)
    requires ValidPattern(pattern) && |results| < |polls|
    requires AllReceipted(pattern, polls, results, before, acksBefore, acknowledges)
    requires Grows(before, after) && AcksKept(acksBefore, acks)
    requires r == Mirrored ==>
      var found := polls[|results|].found; MirroredFirst(pattern, found, |found|, after, acks, acknowledges)
    ensures AllReceipted(pattern, polls, results + [r], after, acks, acknowledges)
  {
    forall i | 0 <= i < |results + [r]| && (results + [r])[i] == Mirrored
      ensures Receipted(pattern, polls[i].found, after, acks, acknowledges)
    {
      if i < |results| {
        assert results[i] == Mirrored;
        ReceiptedStays(pattern, polls[i].found, before, after, acksBefore, acks, acknowledges);
      } else {
        MirroredReceipted(pattern, polls[i].found, after, acks, acknowledges);
      }
    }
  }

  /** What these results of the first polls left of what there was at the start. */
  ghost predicate PolledAll(pattern: string, polls: seq<PollRun>, results: seq<Outcome>, acknowledges: bool,
      start: Disk, now: Disk)
    requires ValidPattern(pattern) && |results| <= |polls|
  {
    && Grows(start.receipts, now.receipts) && AcksKept(start.acks, now.acks)
    && AllReceipted(pattern, polls, results, now.receipts, now.acks, acknowledges)
    && (results != [] && results[|results| - 1] == Mirrored ==>
          var found := polls[|results| - 1].found;
          MirroredFirst(pattern, found, |found|, now.receipts, now.acks, acknowledges))
  }

  lemma PolledNext(pattern: string, polls: seq<PollRun>, results: seq<Outcome>, r: Outcome, acknowledges: bool,
      start: Disk, before: Disk, now: Disk)
    requires ValidPattern(pattern) && |results| < |polls|
    requires PolledAll(pattern, polls, results, acknowledges, start, before)
    requires Grows(before.receipts, now.receipts) && AcksKept(before.acks, now.acks)
    requires r == Mirrored ==>
      var found := polls[|results|].found; MirroredFirst(pattern, found, |found|, now.receipts, now.acks, acknowledges)
    ensures PolledAll(pattern, polls, results + [r], acknowledges, start, now)
  {
    Across(start.receipts, before.receipts, now.receipts, start.acks, before.acks, now.acks);
    AllReceiptedNext(pattern, polls, results, r, before.receipts, now.receipts, before.acks, now.acks, acknowledges);
    assert (results + [r])[|results|] == r;
  }

  /**
    Any sequence of polls, each by the same process or a restarted one and each
    dying wherever its fuse says: receipts stay sound, quotas hold, and no
    receipt's manifest hash or file list and no acknowledgement ever changes.
    Whatever a successful poll found keeps its receipt and its acknowledgement,
    and after the last poll, if it was successful, is current.
   */
  method RunPolls(mirror: IncrementalMirror, polls: seq<PollRun>) returns (results: seq<Outcome>)
    requires mirror.Valid() && forall i :: 0 <= i < |polls| ==>
      Listing(mirror.pattern, polls[i].found, polls[i].deliveries)
    modifies mirror
    ensures mirror.Valid() && Grows(old(mirror.receipts), mirror.receipts)
    ensures AcksKept(old(mirror.acks), mirror.acks)
    ensures |results| == |polls|
    ensures AllReceipted(mirror.pattern, polls, results, mirror.receipts, mirror.acks, mirror.acknowledges)
    ensures polls != [] && results[|polls| - 1] == Mirrored ==>
      var found := polls[|polls| - 1].found;
      MirroredFirst(mirror.pattern, found, |found|, mirror.receipts, mirror.acks, mirror.acknowledges)
  {
    results := [];
    ghost var start := Disk(mirror.files, mirror.receipts, mirror.acks);
    ghost var now := start;
    for i := 0 to |polls|
      invariant mirror.Valid() && |results| == i
      invariant now == Disk(mirror.files, mirror.receipts, mirror.acks)
      invariant PolledAll(mirror.pattern, polls, results, mirror.acknowledges, start, now)
    {
      if polls[i].restarted {
        mirror.Restart();
      }
      ghost var before := now;
      var r, left := mirror.Poll(polls[i].found, polls[i].deliveries, polls[i].fuse);
      now := Disk(mirror.files, mirror.receipts, mirror.acks);
      PolledNext(mirror.pattern, polls, results, r, mirror.acknowledges, start, before, now);
      results := results + [r];
    }
  }
}
