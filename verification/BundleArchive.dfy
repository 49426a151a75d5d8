/** The bundle's archive: a manifest and one stored member per profile file. Building, inspecting
    and restoring it, and the round trip from profile files to profile files. */
module BundleArchive {
  import opened Prelude
  import opened ProfileTree
  import opened ProfileClone

  const MANIFEST_NAME := "manifest.json"
  const PROFILE_PREFIX := "profile/"
  const MANIFEST_MAX_BYTES: nat := 2 * 1024 * 1024
  const MAX_FILES: nat := 200000
  const MAX_PLAINTEXT_BYTES: nat := 50 * 1024 * 1024 * 1024
  const MAX_NAME: nat := 4096

  datatype ArchiveError = LimitExceeded | FormatInvalid | IntegrityFailed | FilesChanged | TargetInUse | PathConflict | ApplyFailed

  datatype Entry = Entry(path: string, size: nat, digest: Bytes)

  datatype Manifest = Manifest(fileCount: nat, totalBytes: nat, excludedCount: nat, entries: seq<Entry>)

  /** A member as the archive's directory describes it, and what reading it yields. */
  datatype Member = Member(name: string, size: nat, content: Bytes, encrypted: bool, stored: bool, symlink: bool)

  type Archive = seq<Member>

  /** The manifest's text form and the content digest are left to libraries; reading a manifest
      includes its schema. */
  datatype Codec = Codec(encode: Manifest -> Bytes, decode: Bytes -> Option<Manifest>, digest: Digest)

  predicate SchemaValid(m: Manifest) {
    && m.fileCount <= MAX_FILES && m.totalBytes <= MAX_PLAINTEXT_BYTES && |m.entries| <= MAX_FILES
    && forall i :: 0 <= i < |m.entries| ==> 1 <= |m.entries[i].path| <= MAX_NAME
  }

  /** The manifest at hand is read back as it was written. */
  predicate ReadsBack(c: Codec, m: Manifest) {
    SchemaValid(m) ==> c.decode(c.encode(m)) == Some(m)
  }

  // ---------------------------------------------------------------------------
  // Member names
  // ---------------------------------------------------------------------------

  predicate ContainsAny(text: string, chars: string) {
    exists i :: 0 <= i < |text| && text[i] in chars
  }

  /** The text before the first dot, in upper case. */
  function Stem(component: string): string {
    if component == "" || component[0] == '.' then ""
    else [if 'a' <= component[0] <= 'z' then component[0] - 'a' + 'A' else component[0]] + Stem(component[1..])
  }

  const RESERVED: set<string> := {
    "CON", "PRN", "AUX", "NUL", "CLOCK$",
    "COM1", "COM2", "COM3", "COM4", "COM5", "COM6", "COM7", "COM8", "COM9",
    "LPT1", "LPT2", "LPT3", "LPT4", "LPT5", "LPT6", "LPT7", "LPT8", "LPT9"}

  predicate UnsafeComponent(component: string) {
    || ContainsAny(component, "<>:\"|?*")
    || (component != "" && component[|component| - 1] in " .")
    || Stem(component) in RESERVED
  }

  /** A path's components: empty ones and single dots are skipped. */
  function Parts(components: Path): Path {
    if components == [] then []
    else
      var last := components[|components| - 1];
      Parts(components[..|components| - 1]) + if last == "" || last == "." then [] else [last]
  }

  predicate HasUnsafe(path: Path) {
    exists i :: 0 <= i < |path| && UnsafeComponent(path[i])
  }

  predicate Prefixed(name: string) {
    |name| >= 8 && name[..8] == PROFILE_PREFIX
  }

  /** The path inside the profile a member name stands for. */
  function ValidateName(name: string): Result<Path, ArchiveError> {
    if !Prefixed(name) then Err(FormatInvalid)
    else if '\\' in name || NUL in name || |name| > MAX_NAME then Err(FormatInvalid)
    else
      var parts := Parts(Components(name));
      if ".." in parts || |parts| < 2 then Err(FormatInvalid)
      else if HasUnsafe(parts[1..]) then Err(FormatInvalid)
      else Ok(parts[1..])
  }

  function MemberName(path: Path): string {
    PROFILE_PREFIX + Posix(path)
  }

  /** A path of directory entries, as walking a directory yields it. */
  predicate NamedPath(path: Path) {
    PlainPath(path) && forall i :: 0 <= i < |path| ==> path[i] != "." && path[i] != ".."
  }

  /** A path every supported file system can hold. */
  predicate Portable(path: Path) {
    && NamedPath(path) && |MemberName(path)| <= MAX_NAME
    && (forall i :: 0 <= i < |path| ==> '\\' !in path[i])
    && !HasUnsafe(path)
  }

  lemma {:induction false} PosixPrefixed(path: Path)
    requires path != []
    ensures Posix(["profile"] + path) == MemberName(path)
  {
    hide Posix;
    var whole := ["profile"] + path;
    var n := |path| - 1;
    assert whole[..|whole| - 1] == ["profile"] + path[..n];
    PosixStep(whole);
    if n == 0 {
      assert path[..0] == [];
      PosixStep(path);
      PosixOne("profile");
      assert ["profile"] + path[..n] == ["profile"];
    } else {
      PosixPrefixed(path[..n]);
      PosixStep(path);
    }
  }

  lemma PosixStep(path: Path)
    requires path != []
    ensures |path| > 1 ==> Posix(path) == Posix(path[..|path| - 1]) + "/" + path[|path| - 1]
    ensures |path| == 1 ==> Posix(path) == path[0]
  {
  }

  lemma PosixOne(x: string)
    ensures Posix([x]) == x
  {
  }

  lemma {:induction false} PartsOfPlain(path: Path)
    requires forall i :: 0 <= i < |path| ==> path[i] != "" && path[i] != "."
    ensures Parts(path) == path
  {
    if path != [] {
      PartsOfPlain(path[..|path| - 1]);
      assert path == path[..|path| - 1] + [path[|path| - 1]];
    }
  }

  lemma {:induction false} PosixChars(path: Path, c: char)
    requires c != '/' && forall i :: 0 <= i < |path| ==> c !in path[i]
    ensures c !in Posix(path)
  {
    if |path| > 1 {
      PosixChars(path[..|path| - 1], c);
    }
  }

  lemma {:induction false} PosixHolds(path: Path, i: nat, c: char)
    requires i < |path| && c in path[i]
    ensures c in Posix(path)
  {
    if i < |path| - 1 {
      PosixHolds(path[..|path| - 1], i, c);
    }
  }

  /** What a member name reads as, name by name. */
  lemma NameComponents(path: Path)
    requires NamedPath(path)
    ensures Parts(Components(MemberName(path))) == ["profile"] + path
    ensures NUL !in MemberName(path)
    ensures '\\' in MemberName(path) <==> exists i :: 0 <= i < |path| && '\\' in path[i]
  {
    hide Posix, Components, Parts;
    var whole := ["profile"] + path;
    assert PlainName("profile");
    assert PlainPath(whole);
    PosixPrefixed(path);
    ComponentsOfPosix(whole);
    forall i | 0 <= i < |whole| ensures whole[i] != "" && whole[i] != "." {
      assert PlainName(whole[i]);
      assert i > 0 ==> whole[i] == path[i - 1];
    }
    PartsOfPlain(whole);
    PosixPlain(whole);
    if i :| 0 <= i < |path| && '\\' in path[i] {
      PosixHolds(whole, i + 1, '\\');
    } else {
      PosixChars(whole, '\\');
    }
  }

  /** The member name of a path is accepted, and then stands for that path, exactly when the path
      is portable. */
  lemma NameRoundTrip(path: Path)
    requires NamedPath(path)
    ensures ValidateName(MemberName(path)) == if Portable(path) then Ok(path) else Err(FormatInvalid)
  {
    hide UnsafeComponent, HasUnsafe, Posix, Components, Parts;
    NameComponents(path);
    var whole := ["profile"] + path;
    assert whole[1..] == path;
    assert ".." !in whole;
  }

  lemma MemberNameUnique(a: Path, b: Path)
    requires PlainPath(a) && PlainPath(b) && MemberName(a) == MemberName(b)
    ensures a == b
  {
    assert Posix(a) == MemberName(a)[8..] && Posix(b) == MemberName(b)[8..];
    PosixUnique(a, b);
  }

  // ---------------------------------------------------------------------------
  // Building
  // ---------------------------------------------------------------------------

  /** A profile file: its path and its content. */
  datatype Source = Source(path: Path, content: Bytes)

  function EntryOf(s: Source, digest: Digest): Entry {
    Entry(MemberName(s.path), |s.content|, digest(s.content))
  }

  function Entries(files: seq<Source>, digest: Digest): (r: seq<Entry>)
    ensures |r| == |files| && forall i :: 0 <= i < |r| ==> r[i] == EntryOf(files[i], digest)
  {
    seq(|files|, i requires 0 <= i < |files| => EntryOf(files[i], digest))
  }

  function TotalSize(files: seq<Source>): nat {
    if files == [] then 0 else TotalSize(files[..|files| - 1]) + |files[|files| - 1].content|
  }

  function NewManifest(files: seq<Source>, excludedCount: nat, digest: Digest): Manifest {
    Manifest(|files|, TotalSize(files), excludedCount, Entries(files, digest))
  }

  function Built(files: seq<Source>, snapshot: Snapshot, digest: Digest): Result<Manifest, ArchiveError> {
    var m := NewManifest(files, snapshot.excludedCount, digest);
    if |files| != snapshot.fileCount || TotalSize(files) != snapshot.totalBytes then Err(FilesChanged)
    else if !SchemaValid(m) then Err(ApplyFailed) else Ok(m)
  }

  lemma SchemaExactly(files: seq<Source>, excludedCount: nat, digest: Digest)
    ensures SchemaValid(NewManifest(files, excludedCount, digest)) <==>
      && |files| <= 200000 && TotalSize(files) <= MAX_PLAINTEXT_BYTES
      && forall i :: 0 <= i < |files| ==> 1 <= |MemberName(files[i].path)| <= 4096
  {
    hide MemberName;
    var m := NewManifest(files, excludedCount, digest);
    assert forall i :: 0 <= i < |files| ==> m.entries[i].path == MemberName(files[i].path);
  }

  /** The manifest of the files, unless their number or size is not what the snapshot said. */
  method BuildManifest(files: seq<Source>, snapshot: Snapshot, digest: Digest) returns (answer: Result<Manifest, ArchiveError>)
    ensures answer == Built(files, snapshot, digest)
    ensures answer == Err(FilesChanged) <==> |files| != snapshot.fileCount || TotalSize(files) != snapshot.totalBytes
    ensures answer.Ok? <==>
      && |files| == snapshot.fileCount && TotalSize(files) == snapshot.totalBytes
      && |files| <= 200000 && TotalSize(files) <= MAX_PLAINTEXT_BYTES
      && forall i :: 0 <= i < |files| ==> 1 <= |MemberName(files[i].path)| <= 4096
  {
    hide MemberName, SchemaValid;
    var entries: seq<Entry> := [];
    var total: nat := 0;
    for i := 0 to |files|
      invariant entries == Entries(files[..i], digest) && total == TotalSize(files[..i])
    {
      assert files[..i + 1][..i] == files[..i];
      entries := entries + [EntryOf(files[i], digest)];
      total := total + |files[i].content|;
    }
    assert files[..|files|] == files;
    if |entries| != snapshot.fileCount || total != snapshot.totalBytes {
      return Err(FilesChanged);
    }
    var m := Manifest(|entries|, total, snapshot.excludedCount, entries);
    SchemaExactly(files, snapshot.excludedCount, digest);
    answer := if SchemaValid(m) then Ok(m) else Err(ApplyFailed);
  }

  function StoredMember(name: string, content: Bytes): Member {
    Member(name, |content|, content, false, true, false)
  }

  function Members(files: seq<Source>): (r: seq<Member>)
    ensures |r| == |files|
    ensures forall i :: 0 <= i < |r| ==> r[i] == StoredMember(MemberName(files[i].path), files[i].content)
  {
    seq(|files|, i requires 0 <= i < |files| => StoredMember(MemberName(files[i].path), files[i].content))
  }

  function Written(files: seq<Source>, m: Manifest, c: Codec): Result<Archive, ArchiveError> {
    if |c.encode(m)| > MANIFEST_MAX_BYTES then Err(LimitExceeded)
    else Ok([StoredMember(MANIFEST_NAME, c.encode(m))] + Members(files))
  }

  method WriteBundle(files: seq<Source>, m: Manifest, c: Codec) returns (answer: Result<Archive, ArchiveError>)
    ensures answer == Written(files, m, c)
  {
    hide MemberName;
    var bytes := c.encode(m);
    if |bytes| > MANIFEST_MAX_BYTES {
      return Err(LimitExceeded);
    }
    var archive: Archive := [StoredMember(MANIFEST_NAME, bytes)];
    for i := 0 to |files|
      invariant archive == [StoredMember(MANIFEST_NAME, bytes)] + Members(files[..i])
    {
      assert Members(files[..i + 1]) == Members(files[..i]) + [StoredMember(MemberName(files[i].path), files[i].content)];
      archive := archive + [StoredMember(MemberName(files[i].path), files[i].content)];
    }
    assert files[..|files|] == files;
    answer := Ok(archive);
  }

  // ---------------------------------------------------------------------------
  // Inspecting
  // ---------------------------------------------------------------------------

  predicate IsFolder(name: string) {
    name != "" && name[|name| - 1] == '/'
  }

  function MemberError(m: Member): Option<ArchiveError> {
    if m.encrypted || !m.stored || m.symlink || IsFolder(m.name) then Some(FormatInvalid)
    else if m.name == MANIFEST_NAME then None
    else if ValidateName(m.name).Err? then Some(ValidateName(m.name).error)
    else None
  }

  function NameList(a: Archive): (r: seq<string>)
    ensures |r| == |a| && forall i :: 0 <= i < |r| ==> r[i] == a[i].name
  {
    seq(|a|, i requires 0 <= i < |a| => a[i].name)
  }

  /** The summed size of the members other than the manifest. */
  function PayloadBytes(a: Archive): nat {
    if a == [] then 0
    else PayloadBytes(a[..|a| - 1]) + if a[|a| - 1].name == MANIFEST_NAME then 0 else a[|a| - 1].size
  }

  /** The first thing wrong with the members, one after the other. */
  function MembersError(a: Archive): Option<ArchiveError> {
    if a == [] then None
    else if MembersError(a[..|a| - 1]).Some? then MembersError(a[..|a| - 1])
    else MemberErrorAt(a)
  }

  function MemberErrorAt(a: Archive): Option<ArchiveError>
    requires a != []
  {
    var m := a[|a| - 1];
    if MemberError(m).Some? then MemberError(m)
    else if m.name == MANIFEST_NAME then (if m.size > MANIFEST_MAX_BYTES then Some(LimitExceeded) else None)
    else if PayloadBytes(a) > MAX_PLAINTEXT_BYTES then Some(LimitExceeded)
    else None
  }

  function FindMember(a: Archive, name: string): Option<Member> {
    if a == [] then None
    else if a[|a| - 1].name == name then Some(a[|a| - 1])
    else FindMember(a[..|a| - 1], name)
  }

  function SizeSum(entries: seq<Entry>): nat {
    if entries == [] then 0 else SizeSum(entries[..|entries| - 1]) + entries[|entries| - 1].size
  }

  function EntryError(e: Entry, a: Archive, c: Codec): Option<ArchiveError> {
    match ValidateName(e.path)
    case Err(error) => Some(error)
    case Ok(path) =>
      if Excluded(path) then Some(FormatInvalid)
      else
        match FindMember(a, e.path)
        case None => Some(FormatInvalid)
        case Some(m) =>
          if m.size != e.size then Some(IntegrityFailed)
          else if |m.content| != e.size || c.digest(m.content) != e.digest then Some(IntegrityFailed)
          else None
  }

  function EntriesError(entries: seq<Entry>, a: Archive, c: Codec): Option<ArchiveError> {
    if entries == [] then None
    else if EntriesError(entries[..|entries| - 1], a, c).Some? then EntriesError(entries[..|entries| - 1], a, c)
    else EntryError(entries[|entries| - 1], a, c)
  }

  function EntryPaths(entries: seq<Entry>): (r: seq<string>)
    ensures |r| == |entries| && forall i :: 0 <= i < |r| ==> r[i] == entries[i].path
  {
    seq(|entries|, i requires 0 <= i < |entries| => entries[i].path)
  }

  predicate Unrepeated(s: seq<string>) {
    forall i, j :: 0 <= i < j < |s| ==> s[i] != s[j]
  }

  /** Whether the manifest's own figures and the archive's agree. */
  predicate Consistent(m: Manifest, a: Archive) {
    && m.fileCount == |m.entries| && Unrepeated(EntryPaths(m.entries))
    && m.fileCount == |a| - 1 && m.totalBytes == SizeSum(m.entries) && m.totalBytes == PayloadBytes(a)
    && Elements(EntryPaths(m.entries)) == Elements(NameList(a)) - {MANIFEST_NAME}
  }

  function Inspected(a: Archive, c: Codec): Result<Manifest, ArchiveError> {
    if |a| > MAX_FILES + 1 then Err(LimitExceeded)
    else if !Unrepeated(NameList(a)) then Err(FormatInvalid)
    else if MANIFEST_NAME !in NameList(a) then Err(FormatInvalid)
    else if MembersError(a).Some? then Err(MembersError(a).value)
    else
      match FindMember(a, MANIFEST_NAME)
      case None => Err(FormatInvalid)
      case Some(member) =>
        match c.decode(member.content)
        case None => Err(FormatInvalid)
        case Some(m) =>
          if !Consistent(m, a) then Err(FormatInvalid)
          else if EntriesError(m.entries, a, c).Some? then Err(EntriesError(m.entries, a, c).value)
          else Ok(m)
  }

  /** The loop over the members: their own checks and the summed sizes. */
  method CheckMembers(a: Archive) returns (error: Option<ArchiveError>)
    ensures error == MembersError(a)
  {
    hide MemberError;
    var total: nat := 0;
    for i := 0 to |a|
      invariant MembersError(a[..i]).None? && total == PayloadBytes(a[..i])
    {
      assert a[..i + 1][..i] == a[..i];
      error := MemberError(a[i]);
      if error.Some? {
        MembersErrorPrefix(a, i + 1);
        return;
      }
      if a[i].name == MANIFEST_NAME {
        if a[i].size > MANIFEST_MAX_BYTES {
          MembersErrorPrefix(a, i + 1);
          return Some(LimitExceeded);
        }
        continue;
      }
      total := total + a[i].size;
      if total > MAX_PLAINTEXT_BYTES {
        MembersErrorPrefix(a, i + 1);
        return Some(LimitExceeded);
      }
    }
    assert a[..|a|] == a;
    error := None;
  }

  /** The loop over the entries of the manifest. */
  method CheckEntries(entries: seq<Entry>, a: Archive, c: Codec) returns (error: Option<ArchiveError>)
    ensures error == EntriesError(entries, a, c)
  {
    hide EntryError;
    for i := 0 to |entries|
      invariant EntriesError(entries[..i], a, c).None?
    {
      assert entries[..i + 1][..i] == entries[..i];
      error := EntryError(entries[i], a, c);
      if error.Some? {
        EntriesErrorPrefix(entries, a, c, i + 1);
        return;
      }
    }
    assert entries[..|entries|] == entries;
    error := None;
  }

  method InspectBundle(a: Archive, c: Codec) returns (answer: Result<Manifest, ArchiveError>)
    ensures answer == Inspected(a, c)
  {
    hide MembersError, EntriesError, Unrepeated, Consistent, NameList, FindMember;
    if |a| > MAX_FILES + 1 {
      return Err(LimitExceeded);
    }
    if !Unrepeated(NameList(a)) || MANIFEST_NAME !in NameList(a) {
      return Err(FormatInvalid);
    }
    var wrong := CheckMembers(a);
    if wrong.Some? {
      return Err(wrong.value);
    }
    var member := FindMember(a, MANIFEST_NAME);
    if member.None? {
      return Err(FormatInvalid);
    }
    var decoded := c.decode(member.value.content);
    if decoded.None? || !Consistent(decoded.value, a) {
      return Err(FormatInvalid);
    }
    var m := decoded.value;
    var error := CheckEntries(m.entries, a, c);
    if error.Some? {
      return Err(error.value);
    }
    answer := Ok(m);
  }

  lemma {:induction false} MembersErrorPrefix(a: Archive, k: nat)
    requires k <= |a| && MembersError(a[..k]).Some?
    ensures MembersError(a) == MembersError(a[..k])
    decreases |a| - k
  {
    hide MemberErrorAt;
    if k < |a| {
      assert a[..k + 1][..k] == a[..k];
      MembersErrorPrefix(a, k + 1);
    } else {
      assert a[..k] == a;
    }
  }

  lemma {:induction false} EntriesErrorPrefix(entries: seq<Entry>, a: Archive, c: Codec, k: nat)
    requires k <= |entries| && EntriesError(entries[..k], a, c).Some?
    ensures EntriesError(entries, a, c) == EntriesError(entries[..k], a, c)
    decreases |entries| - k
  {
    hide EntryError;
    if k < |entries| {
      assert entries[..k + 1][..k] == entries[..k];
      EntriesErrorPrefix(entries, a, c, k + 1);
    } else {
      assert entries[..k] == entries;
    }
  }

  // ---------------------------------------------------------------------------
  // An archive built from files passes inspection
  // ---------------------------------------------------------------------------

  /** What a walk of a profile yields: kept files, each path once. */
  ghost predicate KeptFiles(files: seq<Source>) {
    && (forall i :: 0 <= i < |files| ==> NamedPath(files[i].path) && !Excluded(files[i].path))
    && DistinctPaths(files)
  }

  ghost predicate DistinctPaths(files: seq<Source>) {
    forall i, j :: 0 <= i < j < |files| ==> files[i].path != files[j].path
  }

  ghost predicate AllPortable(files: seq<Source>) {
    forall i :: 0 <= i < |files| ==> Portable(files[i].path)
  }

  ghost predicate GoodFiles(files: seq<Source>) {
    KeptFiles(files) && AllPortable(files)
  }

  lemma GoodParts(files: seq<Source>)
    ensures GoodFiles(files) <==> KeptFiles(files) && AllPortable(files)
    ensures KeptFiles(files) ==> DistinctPaths(files)
  {
    hide AllPortable, Excluded, NamedPath;
  }

  lemma KeptOne(files: seq<Source>, i: nat)
    requires KeptFiles(files) && i < |files|
    ensures PlainPath(files[i].path) && !Excluded(files[i].path)
    ensures MemberName(files[i].path) != MANIFEST_NAME && !IsFolder(MemberName(files[i].path))
    ensures ValidateName(MemberName(files[i].path)) == if Portable(files[i].path) then Ok(files[i].path) else Err(FormatInvalid)
  {
    hide Excluded, Portable, ValidateName;
    NameRoundTrip(files[i].path);
    NotAFolder(files[i].path);
    assert MemberName(files[i].path)[0] == 'p' && MANIFEST_NAME[0] == 'm';
  }

  lemma GoodFile(files: seq<Source>, i: nat)
    requires GoodFiles(files) && i < |files|
    ensures Portable(files[i].path) && PlainPath(files[i].path) && !Excluded(files[i].path)
    ensures MemberName(files[i].path) != MANIFEST_NAME && !IsFolder(MemberName(files[i].path))
    ensures ValidateName(MemberName(files[i].path)) == Ok(files[i].path)
  {
    hide Excluded, Portable, ValidateName, KeptFiles;
    KeptOne(files, i);
  }

  lemma NotAFolder(path: Path)
    requires PlainPath(path)
    ensures !IsFolder(MemberName(path))
  {
    var x := path[|path| - 1];
    assert PlainName(x) && x[|x| - 1] in x;
    assert Posix(path)[|Posix(path)| - 1] == x[|x| - 1];
  }

  lemma KeptPrefix(files: seq<Source>, n: nat)
    requires KeptFiles(files) && n <= |files|
    ensures KeptFiles(files[..n])
  {
    hide Excluded, NamedPath;
  }

  lemma {:induction false} PayloadOfMembers(manifest: Member, files: seq<Source>)
    requires KeptFiles(files) && manifest.name == MANIFEST_NAME
    ensures PayloadBytes([manifest] + Members(files)) == TotalSize(files)
    ensures SizeSum(Entries(files, b => b)) == TotalSize(files)
  {
    hide Portable, Excluded, MemberName, KeptFiles;
    var a := [manifest] + Members(files);
    if files == [] {
      assert a[..0] == [];
    } else {
      var n := |files| - 1;
      KeptPrefix(files, n);
      KeptOne(files, n);
      PayloadOfMembers(manifest, files[..n]);
      assert a[..|a| - 1] == [manifest] + Members(files[..n]);
      assert Entries(files, b => b)[..n] == Entries(files[..n], b => b);
    }
  }

  lemma {:induction false} EntrySizes(files: seq<Source>, digest: Digest)
    ensures SizeSum(Entries(files, digest)) == TotalSize(files)
  {
    hide MemberName;
    if files != [] {
      var n := |files| - 1;
      EntrySizes(files[..n], digest);
      assert Entries(files, digest)[..n] == Entries(files[..n], digest);
    }
  }

  lemma {:induction false} WrittenMembersError(manifest: Member, files: seq<Source>)
    requires KeptFiles(files) && manifest == StoredMember(MANIFEST_NAME, manifest.content) && manifest.size <= MANIFEST_MAX_BYTES
    requires TotalSize(files) <= MAX_PLAINTEXT_BYTES
    ensures MembersError([manifest] + Members(files)) == if AllPortable(files) then None else Some(FormatInvalid)
  {
    hide Portable, Excluded, MemberName, KeptFiles, PayloadBytes, ValidateName;
    var a := [manifest] + Members(files);
    if files == [] {
      assert a[..0] == [];
      assert a == [manifest];
    } else {
      var n := |files| - 1;
      KeptPrefix(files, n);
      KeptOne(files, n);
      WrittenMembersError(manifest, files[..n]);
      PayloadOfMembers(manifest, files);
      PortableStep(files);
      assert a[..|a| - 1] == [manifest] + Members(files[..n]);
    }
  }

  lemma PortableStep(files: seq<Source>)
    requires files != []
    ensures AllPortable(files) <==> AllPortable(files[..|files| - 1]) && Portable(files[|files| - 1].path)
  {
    hide Portable;
    if AllPortable(files[..|files| - 1]) && Portable(files[|files| - 1].path) {
      forall i | 0 <= i < |files| ensures Portable(files[i].path) {
        if i < |files| - 1 {
          assert files[..|files| - 1][i] == files[i];
        }
      }
    }
  }

  lemma {:induction false} FindWritten(manifest: Member, files: seq<Source>, i: nat)
    requires KeptFiles(files) && manifest.name == MANIFEST_NAME && i < |files|
    ensures FindMember([manifest] + Members(files), MemberName(files[i].path))
      == Some(StoredMember(MemberName(files[i].path), files[i].content))
  {
    hide Portable, Excluded, MemberName, KeptFiles;
    var a := [manifest] + Members(files);
    var n := |files| - 1;
    if i < n {
      KeptPrefix(files, n);
      FindWritten(manifest, files[..n], i);
      assert a[..|a| - 1] == [manifest] + Members(files[..n]);
      DifferentNames(files, i, n);
    }
  }

  lemma DifferentNames(files: seq<Source>, i: nat, j: nat)
    requires KeptFiles(files) && i < j < |files|
    ensures MemberName(files[i].path) != MemberName(files[j].path)
  {
    KeptOne(files, i);
    KeptOne(files, j);
    hide MemberName, Excluded, Portable;
    if MemberName(files[i].path) == MemberName(files[j].path) {
      MemberNameUnique(files[i].path, files[j].path);
    }
  }

  lemma {:induction false} FindManifest(manifest: Member, files: seq<Source>)
    requires KeptFiles(files) && manifest.name == MANIFEST_NAME
    ensures FindMember([manifest] + Members(files), MANIFEST_NAME) == Some(manifest)
  {
    hide Portable, Excluded, MemberName, KeptFiles;
    var a := [manifest] + Members(files);
    if files == [] {
      assert a == [manifest];
    } else {
      var n := |files| - 1;
      KeptPrefix(files, n);
      KeptOne(files, n);
      FindManifest(manifest, files[..n]);
      assert a[..|a| - 1] == [manifest] + Members(files[..n]);
    }
  }

  lemma {:induction false} NoEntryError(manifest: Member, files: seq<Source>, n: nat, c: Codec)
    requires KeptFiles(files) && AllPortable(files) && manifest.name == MANIFEST_NAME && n <= |files|
    ensures EntriesError(Entries(files, c.digest)[..n], [manifest] + Members(files), c).None?
  {
    hide Portable, Excluded, MemberName, KeptFiles, ValidateName, FindMember;
    if n > 0 {
      var entries := Entries(files, c.digest);
      assert entries[..n][..n - 1] == entries[..n - 1];
      NoEntryError(manifest, files, n - 1, c);
      KeptOne(files, n - 1);
      FindWritten(manifest, files, n - 1);
    }
  }

  lemma WrittenConsistent(manifest: Member, files: seq<Source>, excludedCount: nat, c: Codec)
    requires KeptFiles(files) && manifest.name == MANIFEST_NAME
    ensures Unrepeated(NameList([manifest] + Members(files))) && MANIFEST_NAME in NameList([manifest] + Members(files))
    ensures Consistent(NewManifest(files, excludedCount, c.digest), [manifest] + Members(files))
  {
    hide Portable, Excluded, MemberName, KeptFiles, PayloadBytes, SizeSum, TotalSize, Unrepeated;
    var a := [manifest] + Members(files);
    var entries := Entries(files, c.digest);
    PayloadOfMembers(manifest, files);
    EntrySizes(files, c.digest);
    EntryPathsUnrepeated(files, c.digest);
    NamesAre(manifest, files, c.digest);
    AddName(EntryPaths(entries), MANIFEST_NAME);
    assert NameList(a)[0] == MANIFEST_NAME;
  }

  lemma EntryPathsUnrepeated(files: seq<Source>, digest: Digest)
    requires KeptFiles(files)
    ensures Unrepeated(EntryPaths(Entries(files, digest))) && MANIFEST_NAME !in EntryPaths(Entries(files, digest))
  {
    hide Portable, Excluded, MemberName, KeptFiles;
    var paths := EntryPaths(Entries(files, digest));
    forall i, j | 0 <= i < j < |paths| ensures paths[i] != paths[j] {
      DifferentNames(files, i, j);
    }
    forall i | 0 <= i < |paths| ensures paths[i] != MANIFEST_NAME {
      KeptOne(files, i);
    }
  }

  lemma NamesAre(manifest: Member, files: seq<Source>, digest: Digest)
    requires manifest.name == MANIFEST_NAME
    ensures NameList([manifest] + Members(files)) == [MANIFEST_NAME] + EntryPaths(Entries(files, digest))
  {
    hide MemberName;
  }

  lemma AddName(paths: seq<string>, name: string)
    requires Unrepeated(paths) && name !in paths
    ensures Unrepeated([name] + paths) && Elements([name] + paths) - {name} == Elements(paths)
  {
    var names := [name] + paths;
    forall i, j | 0 <= i < j < |names| ensures names[i] != names[j] {
      assert names[j] == paths[j - 1] && paths[j - 1] in paths;
    }
  }

  /** Inspection accepts an archive written from a profile's files within the limits exactly when
      every file has a portable path, and then gives back the manifest it was written with. */
  lemma WrittenPassesInspection(files: seq<Source>, excludedCount: nat, c: Codec)
    requires ReadsBack(c, NewManifest(files, excludedCount, c.digest)) && KeptFiles(files)
    requires SchemaValid(NewManifest(files, excludedCount, c.digest))
    ensures var m := NewManifest(files, excludedCount, c.digest);
      Written(files, m, c).Ok? ==>
        Inspected(Written(files, m, c).value, c) == if AllPortable(files) then Ok(m) else Err(FormatInvalid)
  {
    hide Portable, Excluded, MemberName, KeptFiles, AllPortable, Unrepeated, Consistent, MembersError, EntriesError, FindMember;
    var m := NewManifest(files, excludedCount, c.digest);
    if Written(files, m, c).Ok? {
      var manifest := StoredMember(MANIFEST_NAME, c.encode(m));
      WrittenConsistent(manifest, files, excludedCount, c);
      WrittenMembersError(manifest, files);
      FindManifest(manifest, files);
      if AllPortable(files) {
        NoEntryError(manifest, files, |files|, c);
      }
      assert Entries(files, c.digest)[..|files|] == m.entries;
    }
  }

  // ---------------------------------------------------------------------------
  // Restoring
  // ---------------------------------------------------------------------------

  function FindEntry(entries: seq<Entry>, name: string): Option<Entry> {
    if entries == [] then None
    else if entries[|entries| - 1].path == name then Some(entries[|entries| - 1])
    else FindEntry(entries[..|entries| - 1], name)
  }

  /** A file stands where a directory is needed, or something where the file is to be. */
  predicate Blocked(disk: Disk, path: Path) {
    path in disk || exists k :: 0 < k < |path| && path[..k] in disk && !disk[path[..k]].Directory?
  }

  /** What restoring one member does to the staging directory. */
  function RestoredMember(disk: Disk, m: Member, entries: seq<Entry>, now: nat, c: Codec): Result<Disk, ArchiveError> {
    if m.name == MANIFEST_NAME then Ok(disk)
    else
      match FindEntry(entries, m.name)
      case None => Err(FormatInvalid)
      case Some(e) =>
        match ValidateName(m.name)
        case Err(error) => Err(error)
        case Ok(path) =>
          if path == [] || Blocked(disk, path) then Err(PathConflict)
          else if |m.content| != e.size || c.digest(m.content) != e.digest then Err(IntegrityFailed)
          else Ok(WithDirectories(disk, path[..|path| - 1])[path := File(m.content, now)])
  }

  function Restored(a: Archive, entries: seq<Entry>, now: nat, c: Codec): Result<Disk, ArchiveError> {
    if a == [] then Ok(map[])
    else
      match Restored(a[..|a| - 1], entries, now, c)
      case Err(error) => Err(error)
      case Ok(disk) => RestoredMember(disk, a[|a| - 1], entries, now, c)
  }

  class RestoreTarget {
    var userData: Disk
    var staging: Option<Disk>

    constructor ()
      ensures userData == map[] && staging == None
    {
      userData, staging := map[], None;
    }

    /** Restores an inspected archive into an empty profile, by way of a staging directory. */
    method RestoreFrom(a: Archive, m: Manifest, free: nat, now: nat, c: Codec) returns (answer: Result<(), ArchiveError>)
      modifies this
      ensures staging == None
      ensures answer.Err? ==> userData == old(userData)
      ensures var r := Restored(a, m.entries, now, c);
        if old(userData) != map[] then answer == Err(TargetInUse)
        else if free < RequiredBytes(m.totalBytes) then answer == Err(LimitExceeded)
        else if r.Err? then answer == Err(r.error)
        else answer == Ok(()) && userData == r.value
    {
      hide RestoredMember;
      staging := None;
      if userData != map[] {
        return Err(TargetInUse);
      }
      if free < RequiredBytes(m.totalBytes) {
        return Err(LimitExceeded);
      }
      var disk: Disk := map[];
      staging := Some(disk);
      for i := 0 to |a|
        invariant userData == old(userData) && staging.Some?
        invariant Restored(a[..i], m.entries, now, c) == Ok(disk)
      {
        assert a[..i + 1][..i] == a[..i];
        var step := RestoredMember(disk, a[i], m.entries, now, c);
        if step.Err? {
          RestoredPrefix(a, m.entries, now, c, i + 1);
          staging := None;
          return Err(step.error);
        }
        disk := step.value;
        staging := Some(disk);
      }
      assert a[..|a|] == a;
      userData, staging := disk, None;
      answer := Ok(());
    }
  }

  lemma {:induction false} RestoredPrefix(a: Archive, entries: seq<Entry>, now: nat, c: Codec, k: nat)
    requires k <= |a| && Restored(a[..k], entries, now, c).Err?
    ensures Restored(a, entries, now, c) == Restored(a[..k], entries, now, c)
    decreases |a| - k
  {
    hide RestoredMember;
    if k < |a| {
      assert a[..k + 1][..k] == a[..k];
      RestoredPrefix(a, entries, now, c, k + 1);
    } else {
      assert a[..k] == a;
    }
  }

  // ---------------------------------------------------------------------------
  // The round trip
  // ---------------------------------------------------------------------------

  /** No file lies where another one needs a directory, as in any file system. */
  ghost predicate NoFileInside(files: seq<Source>) {
    forall i, j, k :: 0 <= i < |files| && 0 <= j < |files| && 0 < k < |files[j].path| ==> files[i].path != files[j].path[..k]
  }

  /** The files of a disk are exactly the first n given ones; everything else is a directory on the
      way to one of them. */
  ghost predicate Holds(disk: Disk, files: seq<Source>, n: nat)
    requires n <= |files|
  {
    && (forall i :: 0 <= i < n ==> HasFile(disk, files[i]))
    && (forall p :: p in disk ==> Accounted(disk, files, n, p))
  }

  predicate HasFile(disk: Disk, s: Source) {
    s.path in disk && disk[s.path].File? && disk[s.path].content == s.content
  }

  ghost predicate Accounted(disk: Disk, files: seq<Source>, n: nat, p: Path)
    requires n <= |files| && p in disk
  {
    || (disk[p].File? && exists i :: 0 <= i < n && files[i].path == p)
    || (disk[p].Directory? && exists i :: 0 <= i < n && OnTheWay(p, files[i].path))
  }

  predicate OnTheWay(p: Path, path: Path) {
    0 < |p| < |path| && path[..|p|] == p
  }

  lemma {:induction false} FindEntryOf(files: seq<Source>, digest: Digest, i: nat)
    requires KeptFiles(files) && i < |files|
    ensures FindEntry(Entries(files, digest), MemberName(files[i].path)) == Some(EntryOf(files[i], digest))
  {
    hide Portable, Excluded, MemberName, KeptFiles;
    var n := |files| - 1;
    if i < n {
      KeptPrefix(files, n);
      FindEntryOf(files[..n], digest, i);
      assert Entries(files, digest)[..n] == Entries(files[..n], digest);
      DifferentNames(files, i, n);
    }
  }

  lemma HeldAccounted(disk: Disk, files: seq<Source>, n: nat, p: Path)
    requires n <= |files| && Holds(disk, files, n) && p in disk
    ensures Accounted(disk, files, n, p)
  {
  }

  lemma NotOnTheWay(files: seq<Source>, n: nat, i: nat)
    requires NoFileInside(files) && n < |files| && i < |files|
    ensures !OnTheWay(files[n].path, files[i].path)
  {
    var path := files[n].path;
    if 0 < |path| < |files[i].path| {
      assert files[n].path != files[i].path[..|path|];
    }
  }

  /** A new file is not blocked by what is there. */
  lemma NotBlocked(disk: Disk, files: seq<Source>, n: nat)
    requires DistinctPaths(files) && NoFileInside(files) && n < |files| && Holds(disk, files, n)
    ensures !Blocked(disk, files[n].path)
  {
    hide Portable, Excluded, Holds, NoFileInside, DistinctPaths, OnTheWay;
    var path := files[n].path;
    forall i | 0 <= i < n ensures !OnTheWay(path, files[i].path) && files[i].path != path {
      NotOnTheWay(files, n, i);
      OtherPath(files, i, n);
    }
    if path in disk {
      HeldAccounted(disk, files, n, path);
    }
    forall k | 0 < k < |path| && path[..k] in disk ensures disk[path[..k]].Directory? {
      HeldAccounted(disk, files, n, path[..k]);
      NoFileAbove(files, n, k);
    }
  }

  lemma NoFileAbove(files: seq<Source>, n: nat, k: nat)
    requires NoFileInside(files) && n < |files| && 0 < k < |files[n].path|
    ensures forall i :: 0 <= i < |files| ==> files[i].path != files[n].path[..k]
  {
  }

  lemma HoldsStep(disk: Disk, files: seq<Source>, n: nat, now: nat)
    requires DistinctPaths(files) && n < |files| && Holds(disk, files, n) && files[n].path != []
    ensures var path := files[n].path;
      Holds(WithDirectories(disk, path[..|path| - 1])[path := File(files[n].content, now)], files, n + 1)
  {
    hide Portable, Excluded, WithDirectories, DistinctPaths, HasFile, Accounted;
    var path := files[n].path;
    var made := WithDirectories(disk, path[..|path| - 1]);
    var disk' := made[path := File(files[n].content, now)];
    forall i | 0 <= i < n + 1 ensures HasFile(disk', files[i]) {
      FileHeld(disk, made, files, n, now, i);
    }
    forall p | p in disk' ensures Accounted(disk', files, n + 1, p) {
      EntryAccounted(disk, made, files, n, now, p);
    }
  }

  /** Disk after the directories above file `n` were made. */
  ghost predicate MadeFor(disk: Disk, made: Disk, files: seq<Source>, n: nat)
    requires n < |files| && files[n].path != []
  {
    made == WithDirectories(disk, files[n].path[..|files[n].path| - 1])
  }

  lemma FileHeld(disk: Disk, made: Disk, files: seq<Source>, n: nat, now: nat, i: nat)
    requires DistinctPaths(files) && i <= n < |files| && Holds(disk, files, n) && files[n].path != [] && MadeFor(disk, made, files, n)
    ensures HasFile(made[files[n].path := File(files[n].content, now)], files[i])
  {
    hide Portable, Excluded, WithDirectories, DistinctPaths, Accounted;
    if i < n {
      assert HasFile(disk, files[i]);
      OtherPath(files, i, n);
    }
  }

  lemma EntryAccounted(disk: Disk, made: Disk, files: seq<Source>, n: nat, now: nat, p: Path)
    requires n < |files| && Holds(disk, files, n) && files[n].path != [] && MadeFor(disk, made, files, n)
    requires p in made || p == files[n].path
    ensures Accounted(made[files[n].path := File(files[n].content, now)], files, n + 1, p)
  {
    hide Portable, Excluded, WithDirectories, HasFile;
    var path := files[n].path;
    if p == path {
      assert files[n].path == p;
    } else if p in disk {
      assert Accounted(disk, files, n, p);
    } else {
      assert made[p] == Directory && p != [] && p <= path[..|path| - 1];
      assert OnTheWay(p, files[n].path);
    }
  }

  lemma OtherPath(files: seq<Source>, i: nat, j: nat)
    requires DistinctPaths(files) && i < j < |files|
    ensures files[i].path != files[j].path
  {
  }

  lemma MemberRestores(disk: Disk, files: seq<Source>, n: nat, now: nat, c: Codec)
    requires GoodFiles(files) && NoFileInside(files) && n < |files| && Holds(disk, files, n)
    ensures var r := RestoredMember(disk, Members(files)[n], Entries(files, c.digest), now, c);
      r.Ok? && Holds(r.value, files, n + 1)
  {
    hide Portable, Excluded, MemberName, GoodFiles, NoFileInside, Holds, Blocked, ValidateName, FindEntry, WithDirectories, PlainPath;
    GoodFile(files, n);
    GoodParts(files);
    FindEntryOf(files, c.digest, n);
    NotBlocked(disk, files, n);
    PlainNotEmpty(files[n].path);
    HoldsStep(disk, files, n, now);
  }

  lemma {:induction false} RestoredHolds(manifest: Member, files: seq<Source>, now: nat, c: Codec, n: nat)
    requires GoodFiles(files) && NoFileInside(files) && manifest.name == MANIFEST_NAME && n <= |files|
    ensures var r := Restored([manifest] + Members(files)[..n], Entries(files, c.digest), now, c);
      r.Ok? && Holds(r.value, files, n)
  {
    hide GoodFiles, NoFileInside, Holds, RestoredMember, MemberName;
    var entries := Entries(files, c.digest);
    var a := [manifest] + Members(files)[..n];
    if n == 0 {
      assert a == [manifest] && a[..0] == [];
      NothingHeld(files);
      ManifestSkipped(map[], manifest, entries, now, c);
    } else {
      assert a[..|a| - 1] == [manifest] + Members(files)[..n - 1];
      assert a[|a| - 1] == Members(files)[n - 1];
      RestoredHolds(manifest, files, now, c, n - 1);
      MemberRestores(Restored(a[..|a| - 1], entries, now, c).value, files, n - 1, now, c);
    }
  }

  lemma ManifestSkipped(disk: Disk, manifest: Member, entries: seq<Entry>, now: nat, c: Codec)
    requires manifest.name == MANIFEST_NAME
    ensures RestoredMember(disk, manifest, entries, now, c) == Ok(disk)
  {
  }

  lemma PlainNotEmpty(path: Path)
    requires PlainPath(path)
    ensures path != []
  {
  }

  lemma NothingHeld(files: seq<Source>)
    ensures Holds(map[], files, 0)
  {
  }

  /** Restoring a written archive writes exactly the given files, path by path and byte by byte,
      and nothing else but the directories they lie in. */
  lemma BundleRoundTrip(files: seq<Source>, excludedCount: nat, now: nat, c: Codec)
    requires ReadsBack(c, NewManifest(files, excludedCount, c.digest)) && GoodFiles(files) && NoFileInside(files)
    requires SchemaValid(NewManifest(files, excludedCount, c.digest))
    ensures var m := NewManifest(files, excludedCount, c.digest);
      Written(files, m, c).Ok? ==>
        var a := Written(files, m, c).value;
        && Inspected(a, c) == Ok(m) && m.totalBytes == TotalSize(files)
        && Restored(a, m.entries, now, c).Ok?
        && Holds(Restored(a, m.entries, now, c).value, files, |files|)
  {
    hide Portable, Excluded, MemberName, GoodFiles, NoFileInside, Holds, Restored, Inspected, SchemaValid;
    var m := NewManifest(files, excludedCount, c.digest);
    GoodParts(files);
    WrittenPassesInspection(files, excludedCount, c);
    if Written(files, m, c).Ok? {
      RestoredHolds(StoredMember(MANIFEST_NAME, c.encode(m)), files, now, c, |files|);
      assert Members(files)[..|files|] == Members(files);
    }
  }

  // ---------------------------------------------------------------------------
  // From a profile directory and back
  // ---------------------------------------------------------------------------

  /** The files a walk of the profile yields for the bundle. */
  function Sources(w: seq<Visit>): seq<Source> {
    if w == [] then []
    else
      var last := w[|w| - 1];
      Sources(w[..|w| - 1]) + if !last.excluded && last.item.File? then [Source(last.path, last.item.content)] else []
  }

  lemma TotalSizeAppend(files: seq<Source>, s: Source)
    ensures TotalSize(files + [s]) == TotalSize(files) + |s.content|
  {
    assert (files + [s])[..|files|] == files;
  }

  /** The manifest's figures are the snapshot's, so an unchanged profile is never refused. */
  lemma {:induction false} SourcesCounted(w: seq<Visit>)
    ensures |Sources(w)| == FileCount(w) && TotalSize(Sources(w)) == TotalBytes(w)
  {
    if w != [] {
      var n := |w| - 1;
      SourcesCounted(w[..n]);
      if !w[n].excluded && w[n].item.File? {
        TotalSizeAppend(Sources(w[..n]), Source(w[n].path, w[n].item.content));
      } else {
        assert Sources(w) == Sources(w[..n]);
      }
    }
  }

  lemma {:induction false} SourcesAre(w: seq<Visit>, i: nat) returns (k: nat)
    requires i < |Sources(w)|
    ensures k < |w| && !w[k].excluded && w[k].item.File? && Sources(w)[i] == Source(w[k].path, w[k].item.content)
  {
    var n := |w| - 1;
    if i < |Sources(w[..n])| {
      k := SourcesAre(w[..n], i);
    } else {
      k := n;
    }
  }

  lemma {:induction false} SourcesDistinct(w: seq<Visit>)
    requires Distinct(Paths(w))
    ensures forall i, j :: 0 <= i < j < |Sources(w)| ==> Sources(w)[i].path != Sources(w)[j].path
  {
    if w != [] {
      var n := |w| - 1;
      assert Paths(w[..n]) == Paths(w)[..n];
      SourcesDistinct(w[..n]);
      if !w[n].excluded && w[n].item.File? {
        forall i | 0 <= i < |Sources(w[..n])| ensures Sources(w[..n])[i].path != w[n].path {
          var k := SourcesAre(w[..n], i);
          assert Paths(w)[k] != Paths(w)[n];
        }
      }
    }
  }

  lemma {:induction false} SourcesComplete(w: seq<Visit>, v: Visit)
    requires v in w && !v.excluded && v.item.File?
    ensures Source(v.path, v.item.content) in Sources(w)
  {
    var n := |w| - 1;
    if v == w[n] {
      assert Sources(w)[|Sources(w)| - 1] == Source(v.path, v.item.content);
    } else {
      assert v in w[..n];
      SourcesComplete(w[..n], v);
    }
  }

  /** Every kept file of the profile has a portable path. */
  ghost predicate PortableProfile(disk: Disk) {
    forall p :: p in disk && disk[p].File? && !Excluded(p) ==> Portable(p)
  }

  /** Every kept file is reached by names that directories hold. */
  ghost predicate NamedProfile(disk: Disk) {
    forall p :: p in disk && disk[p].File? && !Excluded(p) ==> NamedPath(p)
  }

  lemma PortableNamed(disk: Disk)
    requires PortableProfile(disk)
    ensures NamedProfile(disk)
  {
    hide Excluded, NamedPath;
  }

  lemma SourcesKept(disk: Disk, listing: Listing, limit: nat)
    requires Scanned(disk, listing, limit) && NamedProfile(disk)
    ensures KeptFiles(Sources(Walk(disk, listing, limit))) && NoFileInside(Sources(Walk(disk, listing, limit)))
    ensures forall i :: 0 <= i < |Sources(Walk(disk, listing, limit))| ==> SourceIn(disk, Sources(Walk(disk, listing, limit))[i])
  {
    hide Excluded, Scanned, Walk, NamedPath;
    var w := Walk(disk, listing, limit);
    var files := Sources(w);
    PrunedWalkExact(disk, listing, limit);
    SourcesDistinct(w);
    forall i | 0 <= i < |files| ensures SourceIn(disk, files[i]) && NamedPath(files[i].path) && !Excluded(files[i].path) {
      var k := SourcesAre(w, i);
      assert w[k] in w;
    }
    forall i, j, k | 0 <= i < |files| && 0 <= j < |files| && 0 < k < |files[j].path| ensures files[i].path != files[j].path[..k] {
      assert SourceIn(disk, files[i]) && SourceIn(disk, files[j]);
      DirectoryAbove(disk, listing, limit, files[j].path, k);
    }
  }

  lemma SourcesPortable(disk: Disk, listing: Listing, limit: nat)
    requires Scanned(disk, listing, limit) && NamedProfile(disk)
    ensures AllPortable(Sources(Walk(disk, listing, limit))) <==> PortableProfile(disk)
  {
    hide Excluded, Scanned, Walk, NamedPath, Portable, KeptFiles, NoFileInside, NamedProfile;
    var w := Walk(disk, listing, limit);
    var files := Sources(w);
    SourcesKept(disk, listing, limit);
    PrunedWalkExact(disk, listing, limit);
    if AllPortable(files) {
      forall p | p in disk && disk[p].File? && !Excluded(p) ensures Portable(p) {
        SourcesComplete(w, Visit(p, disk[p], false));
        var i :| 0 <= i < |files| && files[i] == Source(p, disk[p].content);
        assert Portable(files[i].path);
      }
    }
    if PortableProfile(disk) {
      forall i | 0 <= i < |files| ensures Portable(files[i].path) {
        assert SourceIn(disk, files[i]);
      }
    }
  }

  lemma SourcesGood(disk: Disk, listing: Listing, limit: nat)
    requires Scanned(disk, listing, limit) && PortableProfile(disk)
    ensures GoodFiles(Sources(Walk(disk, listing, limit))) && NoFileInside(Sources(Walk(disk, listing, limit)))
    ensures forall i :: 0 <= i < |Sources(Walk(disk, listing, limit))| ==> SourceIn(disk, Sources(Walk(disk, listing, limit))[i])
  {
    hide Scanned, Walk, NoFileInside, KeptFiles, AllPortable, PortableProfile, NamedProfile;
    PortableNamed(disk);
    SourcesKept(disk, listing, limit);
    SourcesPortable(disk, listing, limit);
  }

  predicate SourceIn(disk: Disk, s: Source) {
    s.path in disk && disk[s.path].File? && disk[s.path].content == s.content && !Excluded(s.path)
  }

  lemma DirectoryAbove(disk: Disk, listing: Listing, limit: nat, p: Path, k: nat)
    requires Scanned(disk, listing, limit) && p in disk && 0 < k < |p|
    ensures p[..k] in disk && disk[p[..k]].Directory?
  {
    AncestorsPresent(disk, limit, p, k);
  }

  /** Exporting a profile and restoring the bundle: within the limits and with portable names the
      manifest is built, the archive passes inspection, and the restored profile holds exactly the
      source's kept files with their contents. */
  lemma ProfileRoundTrip(disk: Disk, listing: Listing, limit: nat, now: nat, c: Codec)
    requires Scanned(disk, listing, limit) && PortableProfile(disk)
    requires var w := Walk(disk, listing, limit);
      var m := NewManifest(Sources(w), ExcludedCount(w), c.digest);
      SchemaValid(m) && ReadsBack(c, m)
    ensures var w := Walk(disk, listing, limit);
      var m := NewManifest(Sources(w), ExcludedCount(w), c.digest);
      && |Sources(w)| == Summary(w, c.digest).fileCount && m.totalBytes == Summary(w, c.digest).totalBytes
      && (Written(Sources(w), m, c).Ok? ==>
           var a := Written(Sources(w), m, c).value;
           && Inspected(a, c) == Ok(m)
           && Restored(a, m.entries, now, c).Ok?
           && RestoresFiles(disk, Restored(a, m.entries, now, c).value))
  {
    hide Excluded, Scanned, Walk, Portable, GoodFiles, NoFileInside, SchemaValid, Restored, Inspected, RestoresFiles, Stream, Sources;
    var w := Walk(disk, listing, limit);
    SourcesGood(disk, listing, limit);
    SourcesCounted(w);
    BundleRoundTrip(Sources(w), ExcludedCount(w), now, c);
    var m := NewManifest(Sources(w), ExcludedCount(w), c.digest);
    if Written(Sources(w), m, c).Ok? {
      HeldFiles(disk, listing, limit, Restored(Written(Sources(w), m, c).value, m.entries, now, c).value);
    }
  }

  /** The files of `restored` are the kept files of `disk`, path by path and byte by byte. */
  ghost predicate RestoresFiles(disk: Disk, restored: Disk) {
    && (forall p :: p in restored && !restored[p].Directory? ==> KeptFile(disk, restored, p))
    && (forall p :: p in disk && disk[p].File? && !Excluded(p) ==> KeptFile(disk, restored, p))
  }

  predicate KeptFile(disk: Disk, restored: Disk, p: Path) {
    && p in disk && disk[p].File? && !Excluded(p)
    && p in restored && restored[p].File? && restored[p].content == disk[p].content
  }

  lemma HeldFiles(disk: Disk, listing: Listing, limit: nat, restored: Disk)
    requires Scanned(disk, listing, limit) && PortableProfile(disk)
    requires var files := Sources(Walk(disk, listing, limit)); Holds(restored, files, |files|)
    ensures RestoresFiles(disk, restored)
  {
    hide Excluded, Scanned, Walk, Portable, GoodFiles, NoFileInside, Sources, OnTheWay;
    var files := Sources(Walk(disk, listing, limit));
    SourcesGood(disk, listing, limit);
    PrunedWalkExact(disk, listing, limit);
    forall p | p in restored && !restored[p].Directory? ensures KeptFile(disk, restored, p) {
      HeldAccounted(restored, files, |files|, p);
      var i :| 0 <= i < |files| && files[i].path == p;
      assert SourceIn(disk, files[i]) && HasFile(restored, files[i]);
    }
    forall p | p in disk && disk[p].File? && !Excluded(p) ensures KeptFile(disk, restored, p) {
      SourcesComplete(Walk(disk, listing, limit), Visit(p, disk[p], false));
      var i :| 0 <= i < |files| && files[i] == Source(p, disk[p].content);
      assert HasFile(restored, files[i]);
    }
  }
}
