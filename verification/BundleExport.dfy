/** Exporting a profile as an encrypted bundle, and restoring a profile from one. Export walks the
    profile twice, once for the manifest and once for the archive, and inspects the archive it
    wrote before it encrypts it. */
module BundleExport {
  import opened Prelude
  import opened ProfileTree
  import opened ProfileClone
  import opened BundleArchive
  import E = BundleEncryption

  /** An archive fit to be encrypted, and the manifest in it. */
  datatype Export = Export(archive: Archive, manifest: Manifest)

  /** The files of the second walk are written under a manifest, and the archive is inspected. */
  function Checked(written: seq<Source>, m: Manifest, c: Codec): Result<Export, ArchiveError> {
    match Written(written, m, c)
    case Err(error) => Err(error)
    case Ok(a) =>
      match Inspected(a, c)
      case Err(error) => Err(error)
      case Ok(verified) => if verified != m then Err(FilesChanged) else Ok(Export(a, m))
  }

  /** `files` are what the first walk yields, `written` what the second does. */
  function Exported(files: seq<Source>, written: seq<Source>, snapshot: Snapshot, c: Codec): Result<Export, ArchiveError> {
    match Built(files, snapshot, c.digest)
    case Err(error) => Err(error)
    case Ok(m) => Checked(written, m, c)
  }

  method ExportArchive(files: seq<Source>, written: seq<Source>, snapshot: Snapshot, c: Codec)
    returns (answer: Result<Export, ArchiveError>)
    ensures answer == Exported(files, written, snapshot, c)
  {
    hide Built, Written, Inspected;
    var m := BuildManifest(files, snapshot, c.digest);
    if m.Err? {
      return Err(m.error);
    }
    var a := WriteBundle(written, m.value, c);
    if a.Err? {
      return Err(a.error);
    }
    var verified := InspectBundle(a.value, c);
    if verified.Err? {
      return Err(verified.error);
    }
    answer := if verified.value != m.value then Err(FilesChanged) else Ok(Export(a.value, m.value));
  }

  // ---------------------------------------------------------------------------
  // What an export holds, whatever happened between the walks
  // ---------------------------------------------------------------------------

  lemma {:induction false} FindOnly(a: Archive, i: nat)
    requires Unrepeated(NameList(a)) && i < |a|
    ensures FindMember(a, a[i].name) == Some(a[i])
  {
    var n := |a| - 1;
    if i < n {
      assert NameList(a)[i] != NameList(a)[n];
      assert NameList(a[..n]) == NameList(a)[..n];
      FindOnly(a[..n], i);
    }
  }

  lemma {:induction false} NoErrorAt(entries: seq<Entry>, a: Archive, c: Codec, k: nat)
    requires EntriesError(entries, a, c).None? && k < |entries|
    ensures EntryError(entries[k], a, c).None?
  {
    hide EntryError;
    var n := |entries| - 1;
    if k < n {
      NoErrorAt(entries[..n], a, c, k);
    }
  }

  lemma InspectedParts(a: Archive, c: Codec)
    requires Inspected(a, c).Ok?
    ensures Unrepeated(NameList(a)) && Consistent(Inspected(a, c).value, a)
    ensures EntriesError(Inspected(a, c).value.entries, a, c).None?
    ensures FindMember(a, MANIFEST_NAME).Some?
      && c.decode(FindMember(a, MANIFEST_NAME).value.content) == Some(Inspected(a, c).value)
  {
    hide Unrepeated, Consistent, EntriesError, MembersError, FindMember;
  }

  lemma EntryFor(a: Archive, m: Manifest, c: Codec, i: nat) returns (k: nat)
    requires Unrepeated(NameList(a)) && Consistent(m, a) && EntriesError(m.entries, a, c).None?
    requires i < |a| && a[i].name != MANIFEST_NAME
    ensures k < |m.entries| && m.entries[k] == Entry(a[i].name, |a[i].content|, c.digest(a[i].content))
  {
    hide ValidateName, Excluded, EntriesError, Unrepeated, FindMember;
    assert NameList(a)[i] == a[i].name;
    assert a[i].name in Elements(NameList(a)) - {MANIFEST_NAME};
    assert a[i].name in Elements(EntryPaths(m.entries));
    k :| 0 <= k < |m.entries| && EntryPaths(m.entries)[k] == a[i].name;
    NoErrorAt(m.entries, a, c, k);
    FindOnly(a, i);
  }

  lemma WrittenNames(written: seq<Source>, m: Manifest, c: Codec, i: nat)
    requires Written(written, m, c).Ok? && i < |written| && Unrepeated(NameList(Written(written, m, c).value))
    ensures var a := Written(written, m, c).value;
      && a[0] == StoredMember(MANIFEST_NAME, c.encode(m))
      && a[i + 1] == StoredMember(MemberName(written[i].path), written[i].content) && a[i + 1].name != MANIFEST_NAME
  {
    hide MemberName;
    var a := Written(written, m, c).value;
    assert NameList(a)[0] != NameList(a)[i + 1];
  }

  /** Every exported archive passes inspection with its manifest, and holds nothing but what the
      manifest says: name by name the size and digest the first walk saw, and as many files. */
  lemma ExportIsManifest(files: seq<Source>, written: seq<Source>, snapshot: Snapshot, c: Codec)
    requires Exported(files, written, snapshot, c).Ok?
    ensures var x := Exported(files, written, snapshot, c).value;
      && x.manifest == NewManifest(files, snapshot.excludedCount, c.digest)
      && Inspected(x.archive, c) == Ok(x.manifest)
      && x.archive == [StoredMember(MANIFEST_NAME, c.encode(x.manifest))] + Members(written)
      && |written| == |files|
      && forall i :: 0 <= i < |written| ==> EntryOf(written[i], c.digest) in Entries(files, c.digest)
  {
    hide Inspected, Consistent, EntriesError, Unrepeated, SchemaValid, MemberName, TotalSize;
    var x := Exported(files, written, snapshot, c).value;
    InspectedParts(x.archive, c);
    ConsistentCount(x.manifest, x.archive);
    forall i | 0 <= i < |written| ensures EntryOf(written[i], c.digest) in Entries(files, c.digest) {
      WrittenNames(written, x.manifest, c, i);
      var k := EntryFor(x.archive, x.manifest, c, i + 1);
      assert Entries(files, c.digest)[k] == EntryOf(written[i], c.digest);
    }
  }

  lemma ConsistentCount(m: Manifest, a: Archive)
    requires Consistent(m, a)
    ensures |m.entries| == |a| - 1
  {
    hide Unrepeated;
  }

  /** With a manifest that reads back, the comparison after inspection never fails: a change
      between the walks is already an error of inspection. */
  lemma ComparisonNeverFails(written: seq<Source>, m: Manifest, c: Codec)
    requires SchemaValid(m) && ReadsBack(c, m) && Written(written, m, c).Ok? && Inspected(Written(written, m, c).value, c).Ok?
    ensures Inspected(Written(written, m, c).value, c) == Ok(m)
  {
    hide Inspected, Consistent, EntriesError, Unrepeated, SchemaValid, MemberName;
    var a := Written(written, m, c).value;
    InspectedParts(a, c);
    FindOnly(a, 0);
  }

  // ---------------------------------------------------------------------------
  // Exporting an unchanged profile
  // ---------------------------------------------------------------------------

  /** The export of a profile that does not change meanwhile. */
  function ExportOf(disk: Disk, listing: Listing, limit: nat, c: Codec): Result<Export, ArchiveError>
    requires Scanned(disk, listing, limit)
  {
    var w := Walk(disk, listing, limit);
    Exported(Sources(w), Sources(w), Summary(w, c.digest), c)
  }

  function ManifestOf(disk: Disk, listing: Listing, limit: nat, c: Codec): Manifest
    requires Scanned(disk, listing, limit)
  {
    var w := Walk(disk, listing, limit);
    NewManifest(Sources(w), ExcludedCount(w), c.digest)
  }

  /** A profile that does not change meanwhile is exported exactly when it is within the limits and
      every kept file has a portable path; otherwise nothing is exported, and for a path that is
      not portable the error is that of the format. */
  lemma ExportSucceedsExactly(disk: Disk, listing: Listing, limit: nat, c: Codec)
    requires Scanned(disk, listing, limit) && NamedProfile(disk) && ReadsBack(c, ManifestOf(disk, listing, limit, c))
    ensures var m := ManifestOf(disk, listing, limit, c);
      ExportOf(disk, listing, limit, c) ==
        if !SchemaValid(m) then Err(ApplyFailed)
        else if |c.encode(m)| > MANIFEST_MAX_BYTES then Err(LimitExceeded)
        else if !PortableProfile(disk) then Err(FormatInvalid)
        else Ok(Export([StoredMember(MANIFEST_NAME, c.encode(m))] + Members(Sources(Walk(disk, listing, limit))), m))
  {
    hide Scanned, Walk, NoFileInside, KeptFiles, AllPortable, PortableProfile, NamedProfile, Inspected, Sources, SchemaValid, Stream;
    var w := Walk(disk, listing, limit);
    SourcesCounted(w);
    SourcesKept(disk, listing, limit);
    SourcesPortable(disk, listing, limit);
    if SchemaValid(ManifestOf(disk, listing, limit, c)) {
      WrittenPassesInspection(Sources(w), ExcludedCount(w), c);
    }
  }

  // ---------------------------------------------------------------------------
  // From profile to encrypted file to profile
  // ---------------------------------------------------------------------------

  datatype TransferError = ArchiveFailed(archive: ArchiveError) | FileFailed(file: E.BundleError)

  /** The archive's file form. */
  datatype Zip = Zip(pack: Archive -> Bytes, unpack: Bytes -> Option<Archive>)

  /** What one encryption draws and is given. */
  datatype Secrets = Secrets(passphrase: string, salt: Bytes, nonce: Bytes)

  function Encrypted(x: Result<Export, ArchiveError>, z: Zip, crypto: E.Crypto, s: Secrets): Result<Bytes, TransferError> {
    match x
    case Err(error) => Err(ArchiveFailed(error))
    case Ok(x) =>
      match E.Sealed(crypto, z.pack(x.archive), s.passphrase, s.salt, s.nonce)
      case Err(error) => Err(FileFailed(error))
      case Ok(file) => Ok(file)
  }

  method ExportBundle(files: seq<Source>, written: seq<Source>, snapshot: Snapshot, c: Codec, z: Zip, crypto: E.Crypto, s: Secrets)
    returns (answer: Result<Bytes, TransferError>)
    ensures answer == Encrypted(Exported(files, written, snapshot, c), z, crypto, s)
  {
    hide Exported;
    var x := ExportArchive(files, written, snapshot, c);
    if x.Err? {
      return Err(ArchiveFailed(x.error));
    }
    var file := E.EncryptBundle(crypto, z.pack(x.value.archive), s.passphrase, s.salt, s.nonce);
    answer := if file.Err? then Err(FileFailed(file.error)) else Ok(file.value);
  }

  /** What a bundle file opens to: decrypted, unpacked and inspected. */
  function Read(file: Bytes, c: Codec, z: Zip, crypto: E.Crypto, passphrase: string): Result<Export, TransferError> {
    match E.Opened(crypto, file, passphrase)
    case Err(error) => Err(FileFailed(error))
    case Ok(plain) =>
      match z.unpack(plain)
      case None => Err(ArchiveFailed(FormatInvalid))
      case Some(a) =>
        match Inspected(a, c)
        case Err(error) => Err(ArchiveFailed(error))
        case Ok(m) => Ok(Export(a, m))
  }

  /** Restores a bundle file into an empty profile. */
  method RestoreBundle(target: RestoreTarget, file: Bytes, c: Codec, z: Zip, crypto: E.Crypto, passphrase: string, free: nat, now: nat)
    returns (answer: Result<(), TransferError>)
    modifies target
    ensures answer.Err? ==> target.userData == old(target.userData)
    ensures target.staging == if Read(file, c, z, crypto, passphrase).Ok? then None else old(target.staging)
    ensures var x := Read(file, c, z, crypto, passphrase);
      if x.Err? then answer == Err(x.error)
      else
        var r := Restored(x.value.archive, x.value.manifest.entries, now, c);
        if old(target.userData) != map[] then answer == Err(ArchiveFailed(TargetInUse))
        else if free < RequiredBytes(x.value.manifest.totalBytes) then answer == Err(ArchiveFailed(LimitExceeded))
        else if r.Err? then answer == Err(ArchiveFailed(r.error))
        else answer == Ok(()) && target.userData == r.value
  {
    hide Inspected, Restored, E.Opened;
    var plain := E.DecryptBundle(crypto, file, passphrase);
    if plain.Err? {
      return Err(FileFailed(plain.error));
    }
    var a := z.unpack(plain.value);
    if a.None? {
      return Err(ArchiveFailed(FormatInvalid));
    }
    var m := InspectBundle(a.value, c);
    if m.Err? {
      return Err(ArchiveFailed(m.error));
    }
    var restored := target.RestoreFrom(a.value, m.value, free, now, c);
    answer := if restored.Err? then Err(ArchiveFailed(restored.error)) else Ok(());
  }

  /** The zip file and the header at hand are read back as they were written. */
  ghost predicate FileReadsBack(x: Export, z: Zip, crypto: E.Crypto, s: Secrets) {
    && z.unpack(z.pack(x.archive)) == Some(x.archive)
    && E.ReadsBack(crypto, E.NewHeader(s.salt, s.nonce, z.pack(x.archive)))
    && |s.salt| == 16 && |s.nonce| == 12
  }

  lemma ReadInvertsEncrypted(x: Export, c: Codec, z: Zip, crypto: E.Crypto, s: Secrets)
    requires E.Lawful(crypto) && FileReadsBack(x, z, crypto, s) && Inspected(x.archive, c) == Ok(x.manifest)
    ensures var file := Encrypted(Ok(x), z, crypto, s);
      file.Ok? ==> Read(file.value, c, z, crypto, s.passphrase) == Ok(x)
  {
    hide E.Opened, E.Sealed, E.Lawful, E.ReadsBack, Inspected;
    E.DecryptInvertsEncrypt(crypto, z.pack(x.archive), s.passphrase, s.salt, s.nonce);
  }

  /** Every bundle that is exported can be read again with its passphrase, whatever changed while it
      was made, and yields the archive and the manifest it was made of. */
  lemma ExportedCanBeRead(files: seq<Source>, written: seq<Source>, snapshot: Snapshot, c: Codec, z: Zip, crypto: E.Crypto, s: Secrets)
    requires E.Lawful(crypto)
    requires var x := Exported(files, written, snapshot, c); x.Ok? ==> FileReadsBack(x.value, z, crypto, s)
    ensures var x := Exported(files, written, snapshot, c);
      var file := Encrypted(x, z, crypto, s);
      file.Ok? ==> x.Ok? && Read(file.value, c, z, crypto, s.passphrase) == Ok(x.value)
  {
    hide E.Lawful, FileReadsBack, Exported, Read, Inspected, E.Sealed;
    var x := Exported(files, written, snapshot, c);
    if x.Ok? {
      ExportIsManifest(files, written, snapshot, c);
      ReadInvertsEncrypted(x.value, c, z, crypto, s);
    }
  }

  /** From profile to encrypted file to profile. A portable profile within the limits is exported
      under a valid passphrase; with that passphrase the file restores, and the restored profile
      holds exactly the kept files of the first one, path by path and byte by byte. */
  lemma TransferRoundTrip(disk: Disk, listing: Listing, limit: nat, now: nat, c: Codec, z: Zip, crypto: E.Crypto, s: Secrets)
    requires Scanned(disk, listing, limit) && NamedProfile(disk) && ReadsBack(c, ManifestOf(disk, listing, limit, c))
    requires E.Lawful(crypto)
    requires var x := ExportOf(disk, listing, limit, c); x.Ok? ==> FileReadsBack(x.value, z, crypto, s)
    ensures var x := ExportOf(disk, listing, limit, c);
      var file := Encrypted(x, z, crypto, s);
      && (x.Ok? <==>
           && SchemaValid(ManifestOf(disk, listing, limit, c)) && PortableProfile(disk)
           && |c.encode(ManifestOf(disk, listing, limit, c))| <= MANIFEST_MAX_BYTES)
      && (file.Ok? <==> x.Ok? && Fits(z.pack(x.value.archive), crypto, s))
      && (file.Ok? ==>
           && Read(file.value, c, z, crypto, s.passphrase) == Ok(x.value)
           && var r := Restored(x.value.archive, x.value.manifest.entries, now, c);
              r.Ok? && RestoresFiles(disk, r.value))
  {
    hide Scanned, Walk, PortableProfile, NamedProfile, SchemaValid, Inspected, Restored, RestoresFiles, Sources, Stream, E.Lawful,
      FileReadsBack, Read, Exported;
    var x := ExportOf(disk, listing, limit, c);
    var w := Walk(disk, listing, limit);
    ExportSucceedsExactly(disk, listing, limit, c);
    ExportedCanBeRead(Sources(w), Sources(w), Summary(w, c.digest), c, z, crypto, s);
    SealedExactly(x, z, crypto, s);
    if x.Ok? {
      ProfileRoundTrip(disk, listing, limit, now, c);
    }
  }

  /** What encryption asks for. */
  predicate Fits(plain: Bytes, crypto: E.Crypto, s: Secrets) {
    && |plain| <= E.MAX_PLAINTEXT_BYTES && |crypto.encode(E.NewHeader(s.salt, s.nonce, plain))| <= E.HEADER_MAX_BYTES
    && E.ValidPassphrase(s.passphrase)
  }

  lemma SealedExactly(x: Result<Export, ArchiveError>, z: Zip, crypto: E.Crypto, s: Secrets)
    ensures Encrypted(x, z, crypto, s).Ok? <==> x.Ok? && Fits(z.pack(x.value.archive), crypto, s)
  {
    hide E.Frame, E.Masked;
  }
}
