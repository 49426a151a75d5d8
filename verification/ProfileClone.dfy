/** Snapshots of a profile directory, the clone that is checked against one, and what a snapshot's
    fingerprint determines. */
module ProfileClone {
  import opened Prelude
  import opened ProfileTree

  datatype StorageError = UnsafeEntry | ChangedDuringSnapshot | SourceChanged | TargetNotEmpty | DiskFull | CloneMismatch

  /** The digest of a file's contents; 32 bytes, whatever the contents. */
  type Digest = Bytes -> Bytes

  ghost predicate IsDigest(digest: Digest) {
    forall content :: |digest(content)| == 32
  }

  /** The fingerprint is the digest of a stream of records; it stands for the stream itself. */
  datatype Snapshot = Snapshot(fileCount: nat, totalBytes: nat, excludedCount: nat, fingerprint: Bytes)

  // ---------------------------------------------------------------------------
  // The fingerprint stream
  // ---------------------------------------------------------------------------

  const NUL: char := 0 as char

  function Digits(n: nat): (r: string)
    ensures r != "" && forall c :: c in r ==> '0' <= c <= '9'
  {
    if n < 10 then ['0' + n as char] else Digits(n / 10) + ['0' + (n % 10) as char]
  }

  /** The path with its components joined by slashes. */
  function Posix(path: Path): string {
    if path == [] then ""
    else if |path| == 1 then path[0]
    else Posix(path[..|path| - 1]) + "/" + path[|path| - 1]
  }

  function Field(text: Bytes): Bytes {
    text + [NUL]
  }

  function FileRecord(path: Path, content: Bytes, mtime: nat, digest: Digest): Bytes {
    Field("F") + Field(Posix(path)) + Field(Digits(|content|)) + Field(Digits(mtime)) + digest(content) + [NUL]
  }

  function Record(v: Visit, digest: Digest): Bytes {
    match v.item
    case File(content, mtime) => FileRecord(v.path, content, mtime, digest)
    case _ => Field("D") + Field(Posix(v.path))
  }

  function Stream(w: seq<Visit>, digest: Digest): Bytes {
    if w == [] then []
    else Stream(w[..|w| - 1], digest) + if w[|w| - 1].excluded then [] else Record(w[|w| - 1], digest)
  }

  function FileCount(w: seq<Visit>): nat {
    if w == [] then 0
    else FileCount(w[..|w| - 1]) + if !w[|w| - 1].excluded && w[|w| - 1].item.File? then 1 else 0
  }

  function TotalBytes(w: seq<Visit>): nat {
    if w == [] then 0
    else TotalBytes(w[..|w| - 1]) + if !w[|w| - 1].excluded && w[|w| - 1].item.File? then |w[|w| - 1].item.content| else 0
  }

  function ExcludedCount(w: seq<Visit>): nat {
    if w == [] then 0 else ExcludedCount(w[..|w| - 1]) + if w[|w| - 1].excluded then 1 else 0
  }

  function Summary(w: seq<Visit>, digest: Digest): Snapshot {
    Snapshot(FileCount(w), TotalBytes(w), ExcludedCount(w), Stream(w, digest))
  }

  // ---------------------------------------------------------------------------
  // Taking a snapshot and copying
  // ---------------------------------------------------------------------------

  /** Links and special entries stop a walk even where it would exclude them. */
  function Unsafe(v: Visit): Option<StorageError> {
    if v.item.Link? || v.item.Special? then Some(UnsafeEntry) else None
  }

  /** `changed` are the files written to while they are hashed. */
  function Failure(v: Visit, changed: set<Path>): Option<StorageError> {
    if Unsafe(v).Some? then Unsafe(v)
    else if !v.excluded && v.item.File? && v.path in changed then Some(ChangedDuringSnapshot)
    else None
  }

  function FirstFailure(w: seq<Visit>, changed: set<Path>): Option<StorageError> {
    if w == [] then None
    else if FirstFailure(w[..|w| - 1], changed).Some? then FirstFailure(w[..|w| - 1], changed)
    else Failure(w[|w| - 1], changed)
  }

  method TakeSnapshot(w: seq<Visit>, digest: Digest, changed: set<Path>) returns (answer: Result<Snapshot, StorageError>)
    ensures answer == var f := FirstFailure(w, changed); if f.Some? then Err(f.value) else Ok(Summary(w, digest))
  {
    hide Record, Failure;
    var fileCount: nat, totalBytes: nat, excludedCount: nat := 0, 0, 0;
    var stream: Bytes := [];
    for i := 0 to |w|
      invariant FirstFailure(w[..i], changed).None?
      invariant Snapshot(fileCount, totalBytes, excludedCount, stream) == Summary(w[..i], digest)
    {
      assert w[..i + 1][..i] == w[..i];
      var failure := Failure(w[i], changed);
      if failure.Some? {
        FailurePrefix(w, changed, i + 1);
        return Err(failure.value);
      }
      if w[i].excluded {
        excludedCount := excludedCount + 1;
        continue;
      }
      if w[i].item.File? {
        fileCount := fileCount + 1;
        totalBytes := totalBytes + |w[i].item.content|;
      }
      stream := stream + Record(w[i], digest);
    }
    assert w[..|w|] == w;
    answer := Ok(Snapshot(fileCount, totalBytes, excludedCount, stream));
  }

  lemma {:induction false} FailurePrefix(w: seq<Visit>, changed: set<Path>, k: nat)
    requires k <= |w| && FirstFailure(w[..k], changed).Some?
    ensures FirstFailure(w, changed) == FirstFailure(w[..k], changed)
    decreases |w| - k
  {
    hide Failure;
    if k < |w| {
      assert w[..k + 1][..k] == w[..k];
      FailurePrefix(w, changed, k + 1);
    } else {
      assert w[..k] == w;
    }
  }

  /** Creates a directory and its missing parents; what exists stays. */
  function WithDirectories(disk: Disk, dir: Path): (r: Disk)
    ensures forall p :: p in disk ==> p in r && r[p] == disk[p]
    ensures forall p :: p in r && p !in disk ==> r[p] == Directory && p != [] && p <= dir
  {
    if dir == [] then disk
    else
      var parents := WithDirectories(disk, dir[..|dir| - 1]);
      if dir in parents then parents else parents[dir := Directory]
  }

  /** A part of the visible disk that holds at least the visits seen so far. */
  ghost predicate Copied(disk: Disk, target: Disk, w: seq<Visit>) {
    && (forall p :: p in target ==> p in disk && !Excluded(p) && target[p] == disk[p])
    && (forall v :: v in w && !v.excluded ==> v.path in target)
  }

  lemma CopiedStep(disk: Disk, listing: Listing, limit: nat, target: Disk, w: seq<Visit>, v: Visit)
    requires Scanned(disk, listing, limit) && Copied(disk, target, w)
    requires v.path in disk && v == Visit(v.path, disk[v.path], Excluded(v.path))
    ensures v.excluded ==> Copied(disk, target, w + [v])
    ensures v.path != []
    ensures !v.excluded && v.item.Directory? ==> Copied(disk, WithDirectories(target, v.path), w + [v])
    ensures !v.excluded ==> Copied(disk, WithDirectories(target, v.path[..|v.path| - 1])[v.path := v.item], w + [v])
  {
    hide Excluded, Scanned, WithDirectories;
    AncestorsVisible(disk, listing, limit, v.path);
    if !v.excluded {
      LastDirectory(target, v.path);
    }
  }

  /** A kept entry lies in kept directories only. */
  lemma AncestorsVisible(disk: Disk, listing: Listing, limit: nat, path: Path)
    requires Scanned(disk, listing, limit) && path in disk
    ensures path != []
    ensures !Excluded(path) ==> forall p: Path :: p != [] && p <= path ==>
      p in disk && !Excluded(p) && (p != path ==> disk[p] == Directory)
    ensures !Excluded(path) ==> forall p: Path :: p != [] && p <= path[..|path| - 1] ==>
      p in disk && !Excluded(p) && disk[p] == Directory
  {
    hide Excluded;
    assert InDirectory(disk, limit, path);
    if !Excluded(path) {
      forall p: Path | p != [] && p <= path ensures p in disk && !Excluded(p) && (p != path ==> disk[p] == Directory) {
        AncestorsPresent(disk, limit, path, |p|);
        assert path[..|p|] == p;
        if Excluded(p) {
          ExclusionDownwardClosed(p, path);
        }
      }
      forall p: Path | p != [] && p <= path[..|path| - 1] ensures p in disk && !Excluded(p) && disk[p] == Directory {
        assert p <= path && p != path;
      }
    }
  }

  lemma LastDirectory(target: Disk, dir: Path)
    requires dir != []
    ensures dir in WithDirectories(target, dir)
  {
  }

  /** Copies the visible visits into an empty directory; a link or special entry stops it. */
  method CopyStorage(w: seq<Visit>, ghost disk: Disk, ghost listing: Listing, ghost limit: nat)
    returns (target: Disk, failure: Option<StorageError>)
    requires Scanned(disk, listing, limit) && w == Walk(disk, listing, limit)
    ensures failure == FirstFailure(w, {})
    ensures failure.None? ==> target == VisiblePart(disk)
  {
    hide Excluded, Walk, Scanned, WithDirectories, Copied, Failure, VisiblePart, Entered, Paths;
    target, failure := map[], None;
    PrunedWalkExact(disk, listing, limit);
    NothingCopied(disk);
    assert w[..0] == [];
    for i := 0 to |w|
      invariant failure.None? && FirstFailure(w[..i], {}).None? && Copied(disk, target, w[..i])
    {
      assert w[..i + 1][..i] == w[..i];
      assert w[..i + 1] == w[..i] + [w[i]];
      assert w[i] in w;
      CopiedStep(disk, listing, limit, target, w[..i], w[i]);
      FailureWithoutChanges(w[i]);
      failure := Unsafe(w[i]);
      if failure.Some? {
        FailurePrefix(w, {}, i + 1);
        return;
      }
      if w[i].excluded {
        continue;
      }
      if w[i].item.Directory? {
        target := WithDirectories(target, w[i].path);
        continue;
      }
      target := WithDirectories(target, w[i].path[..|w[i].path| - 1]);
      target := target[w[i].path := w[i].item];
    }
    assert w[..|w|] == w;
    AllCopied(disk, target, w);
  }

  lemma NothingCopied(disk: Disk)
    ensures Copied(disk, map[], [])
  {
  }

  lemma FailureWithoutChanges(v: Visit)
    ensures Failure(v, {}) == Unsafe(v)
  {
  }

  lemma AllCopied(disk: Disk, target: Disk, w: seq<Visit>)
    requires Copied(disk, target, w)
    requires forall p :: p in disk && !Excluded(p) ==> Visit(p, disk[p], false) in w
    ensures target == VisiblePart(disk)
  {
    hide Excluded;
    var v := VisiblePart(disk);
    forall p | p in v ensures p in target && target[p] == v[p] {
      assert Visit(p, disk[p], false) in w && Visit(p, disk[p], false).path == p;
    }
    forall p | p in target ensures p in v {
    }
  }

  // ---------------------------------------------------------------------------
  // Clone fidelity
  // ---------------------------------------------------------------------------

  /** A snapshot's file count, bytes and fingerprint depend on the visible visits only. */
  lemma {:induction false} SummaryOfVisible(w: seq<Visit>, digest: Digest)
    ensures FileCount(Visible(w)) == FileCount(w) && TotalBytes(Visible(w)) == TotalBytes(w)
    ensures Stream(Visible(w), digest) == Stream(w, digest)
  {
    hide Record;
    if w != [] {
      var n := |w| - 1;
      SummaryOfVisible(w[..n], digest);
      VisibleAppend(w[..n], [w[n]]);
      assert w == w[..n] + [w[n]];
      assert [w[n]][1..] == [];
      if !w[n].excluded {
        assert Visible(w) == Visible(w[..n]) + [w[n]];
        assert Visible(w)[..|Visible(w[..n])|] == Visible(w[..n]);
      } else {
        assert Visible(w) == Visible(w[..n]);
      }
    }
  }

  /** For a profile whose kept siblings differ up to case, the snapshot of the copy agrees with the
      snapshot of the source in file count, bytes and fingerprint, in whatever order either side's
      directories are listed. */
  lemma CloneFaithful(source: Disk, ls: Listing, target: Disk, lt: Listing, limit: nat, digest: Digest)
    requires Scanned(source, ls, limit) && Scanned(target, lt, limit) && SiblingsDiffer(source)
    requires target == VisiblePart(source)
    ensures var a, b := Summary(Walk(source, ls, limit), digest), Summary(Walk(target, lt, limit), digest);
      && b.fileCount == a.fileCount && b.totalBytes == a.totalBytes && b.fingerprint == a.fingerprint
      && b.excludedCount == 0
  {
    hide Walk, Scanned, SiblingsDiffer, VisiblePart, Visible, Excluded, FileCount, TotalBytes, Stream;
    SameWalk(source, ls, target, lt, limit);
    SummaryOfVisible(Walk(source, ls, limit), digest);
    NothingExcluded(source, target, lt, limit);
    NoneCounted(Walk(target, lt, limit));
  }

  lemma NothingExcluded(source: Disk, target: Disk, lt: Listing, limit: nat)
    requires Scanned(target, lt, limit) && target == VisiblePart(source)
    ensures forall v :: v in Walk(target, lt, limit) ==> !v.excluded
  {
    hide Walk, Scanned, Excluded;
    PrunedWalkExact(target, lt, limit);
  }

  lemma {:induction false} NoneCounted(w: seq<Visit>)
    requires forall v :: v in w ==> !v.excluded
    ensures ExcludedCount(w) == 0
  {
    if w != [] {
      assert w[|w| - 1] in w;
      assert forall v :: v in w[..|w| - 1] ==> v in w;
      NoneCounted(w[..|w| - 1]);
    }
  }

  /** Two kept files that agree up to case: listed in different orders, the same directory has two
      fingerprints, so a clone of it can be rejected. */
  lemma CaseRivalsBreakClone(digest: Digest) returns (disk: Disk, a: Listing, b: Listing)
    requires IsDigest(digest)
    ensures Scanned(disk, a, 2) && Scanned(disk, b, 2) && VisiblePart(disk) == disk && !SiblingsDiffer(disk)
    ensures Summary(Walk(disk, a, 2), digest).fingerprint != Summary(Walk(disk, b, 2), digest).fingerprint
  {
    disk := map[["Default"] := Directory, ["Default", "A"] := File("", 0), ["Default", "a"] := File("", 0)];
    a := map[[] := ["Default"], ["Default"] := ["A", "a"]];
    b := map[[] := ["Default"], ["Default"] := ["a", "A"]];
    RivalPaths();
    RivalsScanned(disk, a);
    RivalsScanned(disk, b);
    assert Rivals(["Default", "A"], ["Default", "a"]) by {
      assert ["Default", "A"][..1] == ["Default"] == ["Default", "a"][..1];
    }
    assert VisiblePart(disk) == disk;
    RivalsWalk(disk, a, "A", "a");
    RivalsWalk(disk, b, "a", "A");
    RivalStreams(digest);
  }

  lemma RivalPaths()
    ensures !Excluded(["Default"]) && !Excluded(["Default", "A"]) && !Excluded(["Default", "a"])
    ensures Fold("A") == Fold("a") == "a"
  {
    hide ExcludedNetworkName;
    FoldDefault();
    assert Fold("A") == "a" && Fold("a") == "a";
    assert Fold(["Default", "A"][1]) == "a" == Fold(["Default", "a"][1]);
    assert Fold("a") != "network";
    assert !ExcludedName("a");
  }

  lemma FoldDefault()
    ensures Fold("Default") == "default"
  {
    var r := Fold("Default");
    assert r[0] == 'd' && r[1] == 'e' && r[2] == 'f' && r[3] == 'a' && r[4] == 'u' && r[5] == 'l' && r[6] == 't';
    assert r == ['d', 'e', 'f', 'a', 'u', 'l', 't'];
  }

  lemma RivalsScanned(disk: Disk, listing: Listing)
    requires disk == map[["Default"] := Directory, ["Default", "A"] := File("", 0), ["Default", "a"] := File("", 0)]
    requires listing == map[[] := ["Default"], ["Default"] := ["A", "a"]] || listing == map[[] := ["Default"], ["Default"] := ["a", "A"]]
    ensures Scanned(disk, listing, 2)
  {
    assert ["Default"][..0] == [];
    assert ["Default", "A"][..1] == ["Default"] == ["Default", "a"][..1];
    assert Rooted(disk, 2);
    forall d | IsDirectory(disk, d) ensures d in listing && ListsOne(disk, listing[d], d) {
      assert d == [] || d == ["Default"];
      forall n ensures n in listing[d] <==> d + [n] in disk {
        if d == [] {
          assert [] + [n] == [n];
          assert |[n]| == 1;
        } else {
          assert ["Default"] + [n] == ["Default", n];
        }
      }
    }
  }

  lemma RivalsWalk(disk: Disk, listing: Listing, x: string, y: string)
    requires Scanned(disk, listing, 2) && Fold(x) == Fold(y)
    requires listing == map[[] := ["Default"], ["Default"] := [x, y]]
    requires ["Default"] in disk && disk[["Default"]] == Directory
    requires ["Default", x] in disk && disk[["Default", x]] == File("", 0)
    requires ["Default", y] in disk && disk[["Default", y]] == File("", 0)
    requires !Excluded(["Default"]) && !Excluded(["Default", x]) && !Excluded(["Default", y])
    ensures Walk(disk, listing, 2) == [Visit(["Default"], Directory, false), Visit(["Default", x], File("", 0), false), Visit(["Default", y], File("", 0), false)]
  {
    hide Excluded, Scanned, Sorted;
    SortedPair(x, y);
    SortedOne("Default");
    RootFacts(disk, listing, 2);
    assert [] + ["Default"] == ["Default"];
    ChildFacts(disk, listing, 2, [], "Default");
    assert ["Default"] + [x] == ["Default", x] && ["Default"] + [y] == ["Default", y];
    assert [x, y][1..] == [y] && [y][1..] == [] && ["Default"][1..] == [];
    assert WalkNames(disk, listing, 2, ["Default"], [y]) == [Visit(["Default", y], File("", 0), false)];
    assert WalkNames(disk, listing, 2, ["Default"], [x, y])
      == [Visit(["Default", x], File("", 0), false)] + WalkNames(disk, listing, 2, ["Default"], [y]);
    assert WalkNames(disk, listing, 2, [], []) == [];
  }

  lemma SortedOne(x: string)
    ensures Sorted([x]) == [x]
  {
    assert [x][..0] == [];
  }

  lemma SortedPair(x: string, y: string)
    requires Fold(x) == Fold(y)
    ensures Sorted([x, y]) == [x, y]
  {
    assert [x, y][..1] == [x];
    SortedOne(x);
    BeforeTotal(Fold(x), Fold(y));
  }

  lemma RivalStreams(digest: Digest)
    requires IsDigest(digest)
    ensures var d, a, b := Visit(["Default"], Directory, false), Visit(["Default", "A"], File("", 0), false), Visit(["Default", "a"], File("", 0), false);
      Stream([d, a, b], digest) != Stream([d, b, a], digest)
  {
    var d, a, b := Visit(["Default"], Directory, false), Visit(["Default", "A"], File("", 0), false), Visit(["Default", "a"], File("", 0), false);
    StreamUnique([d, a, b], [d, b, a], digest);
    assert [d, a, b][1] != [d, b, a][1];
  }

  // ---------------------------------------------------------------------------
  // The stream is uniquely decodable
  // ---------------------------------------------------------------------------

  predicate PlainName(name: string) {
    name != "" && '/' !in name && NUL !in name
  }

  predicate PlainPath(path: Path) {
    path != [] && forall n :: n in path ==> PlainName(n)
  }

  /** A visit of a file or directory that is kept, with a name the file system allows. */
  predicate Plain(v: Visit) {
    !v.excluded && PlainPath(v.path) && (v.item.File? || v.item.Directory?)
  }

  /** The same entry, as far as a record tells. */
  predicate SameEntry(a: Visit, b: Visit, digest: Digest) {
    && a.path == b.path && (a.item.File? <==> b.item.File?)
    && (a.item.File? && b.item.File? ==>
         && |a.item.content| == |b.item.content| && a.item.mtime == b.item.mtime
         && digest(a.item.content) == digest(b.item.content))
  }

  /** The text up to the first NUL, and what follows it. */
  function ReadField(s: Bytes): (Bytes, Bytes) {
    if s == [] then ([], [])
    else if s[0] == NUL then ([], s[1..])
    else
      var (field, rest) := ReadField(s[1..]);
      ([s[0]] + field, rest)
  }

  lemma {:induction false} ReadFieldOf(x: Bytes, r: Bytes)
    requires NUL !in x
    ensures ReadField(Field(x) + r) == (x, r)
  {
    if x == [] {
      assert (Field(x) + r)[1..] == r;
    } else {
      assert (Field(x) + r)[1..] == Field(x[1..]) + r;
      ReadFieldOf(x[1..], r);
      assert x == [x[0]] + x[1..];
    }
  }

  /** A field without NUL is read back from any stream that starts with it. */
  lemma FieldUnique(x: Bytes, y: Bytes, r: Bytes, s: Bytes)
    requires NUL !in x && NUL !in y && Field(x) + r == Field(y) + s
    ensures x == y && r == s
  {
    ReadFieldOf(x, r);
    ReadFieldOf(y, s);
  }

  function DigitValue(c: char): nat {
    if '0' <= c <= '9' then (c - '0') as nat else 0
  }

  function Number(digits: string): nat {
    if digits == "" then 0 else Number(digits[..|digits| - 1]) * 10 + DigitValue(digits[|digits| - 1])
  }

  lemma {:induction false} NumberOfDigits(n: nat)
    ensures Number(Digits(n)) == n
  {
    var d := Digits(n);
    if n >= 10 {
      assert d[..|d| - 1] == Digits(n / 10);
      NumberOfDigits(n / 10);
    } else {
      assert d[..0] == "";
    }
  }

  lemma DigitsUnique(a: nat, b: nat)
    requires Digits(a) == Digits(b)
    ensures a == b
  {
    NumberOfDigits(a);
    NumberOfDigits(b);
  }

  lemma DigitsPlain(n: nat)
    ensures NUL !in Digits(n)
  {
  }

  lemma {:induction false} PosixPlain(path: Path)
    requires PlainPath(path)
    ensures NUL !in Posix(path)
  {
    if |path| > 1 {
      var n := |path| - 1;
      assert forall x :: x in path[..n] ==> x in path;
      PosixPlain(path[..n]);
      assert PlainName(path[n]);
    } else {
      assert PlainName(path[0]);
    }
  }

  /** Adds one more character to a list of components. */
  function AddChar(front: Path, c: char): (r: Path)
    requires front != []
    ensures r != []
  {
    if c == '/' then front + [""] else front[..|front| - 1] + [front[|front| - 1] + [c]]
  }

  /** The components of a slash-separated text. */
  function Components(text: string): (r: Path)
    ensures r != []
  {
    if text == "" then [""] else AddChar(Components(text[..|text| - 1]), text[|text| - 1])
  }

  function AddText(front: Path, x: string): (r: Path)
    requires front != []
    ensures r != []
  {
    front[..|front| - 1] + [front[|front| - 1] + x]
  }

  lemma AddTextChar(front: Path, x: string, c: char)
    requires front != [] && c != '/'
    ensures AddChar(AddText(front, x), c) == AddText(front, x + [c])
  {
    assert front[|front| - 1] + x + [c] == front[|front| - 1] + (x + [c]);
  }

  lemma {:induction false} ComponentsExtend(text: string, x: string)
    requires '/' !in x
    ensures Components(text + x) == AddText(Components(text), x)
  {
    hide AddChar;
    if x == "" {
      assert text + x == text;
      assert Components(text)[|Components(text)| - 1] + "" == Components(text)[|Components(text)| - 1];
    } else {
      var n := |x| - 1;
      assert (text + x)[..|text + x| - 1] == text + x[..n];
      ComponentsExtend(text, x[..n]);
      AddTextChar(Components(text), x[..n], x[n]);
      assert x == x[..n] + [x[n]];
    }
  }

  lemma ComponentsSlash(text: string)
    ensures Components(text + "/") == Components(text) + [""]
  {
    assert (text + "/")[..|text|] == text;
  }

  lemma AddTextToBlank(front: Path, x: string)
    ensures AddText(front + [""], x) == front + [x]
  {
    assert "" + x == x;
  }

  lemma {:induction false} ComponentsOfPosix(path: Path)
    requires PlainPath(path)
    ensures Components(Posix(path)) == path
  {
    hide AddText, Components;
    var n := |path| - 1;
    assert PlainName(path[n]);
    if n == 0 {
      ComponentsExtend("", path[0]);
      NoComponents();
      AddTextToBlank([], path[0]);
      assert "" + path[0] == path[0] && [] + [""] == [""] && [] + [path[0]] == path;
    } else {
      assert forall x :: x in path[..n] ==> x in path;
      ComponentsOfPosix(path[..n]);
      ComponentsSlash(Posix(path[..n]));
      ComponentsExtend(Posix(path[..n]) + "/", path[n]);
      AddTextToBlank(path[..n], path[n]);
      assert path == path[..n] + [path[n]];
    }
  }

  lemma NoComponents()
    ensures Components("") == [""]
  {
  }

  lemma PosixUnique(a: Path, b: Path)
    requires PlainPath(a) && PlainPath(b) && Posix(a) == Posix(b)
    ensures a == b
  {
    ComponentsOfPosix(a);
    ComponentsOfPosix(b);
  }

  /** Regrouping a file record into its first field and the rest. */
  lemma FileRecordSplit(path: Path, content: Bytes, mtime: nat, digest: Digest, r: Bytes)
    ensures FileRecord(path, content, mtime, digest) + r
      == Field("F") + (Field(Posix(path)) + (Field(Digits(|content|)) + (Field(Digits(mtime)) + (digest(content) + ([NUL] + r)))))
  {
  }

  lemma DirectoryRecordSplit(path: Path, r: Bytes)
    ensures Field("D") + Field(Posix(path)) + r == Field("D") + (Field(Posix(path)) + r)
  {
  }

  lemma FileRecordUnique(p: Path, c: Bytes, m: nat, q: Path, d: Bytes, n: nat, r: Bytes, s: Bytes, digest: Digest)
    requires IsDigest(digest) && PlainPath(p) && PlainPath(q)
    requires FileRecord(p, c, m, digest) + r == FileRecord(q, d, n, digest) + s
    ensures p == q && |c| == |d| && m == n && digest(c) == digest(d) && r == s
  {
    hide FileRecord, Field, Digits, Posix, PlainPath;
    FileRecordSplit(p, c, m, digest, r);
    FileRecordSplit(q, d, n, digest, s);
    var r4, s4 := digest(c) + ([NUL] + r), digest(d) + ([NUL] + s);
    var r3, s3 := Field(Digits(m)) + r4, Field(Digits(n)) + s4;
    var r2, s2 := Field(Digits(|c|)) + r3, Field(Digits(|d|)) + s3;
    var r1, s1 := Field(Posix(p)) + r2, Field(Posix(q)) + s2;
    FieldUnique("F", "F", r1, s1);
    PosixPlain(p);
    PosixPlain(q);
    FieldUnique(Posix(p), Posix(q), r2, s2);
    DigitsPlain(|c|);
    DigitsPlain(|d|);
    FieldUnique(Digits(|c|), Digits(|d|), r3, s3);
    DigitsPlain(m);
    DigitsPlain(n);
    FieldUnique(Digits(m), Digits(n), r4, s4);
    PosixUnique(p, q);
    DigitsUnique(|c|, |d|);
    DigitsUnique(m, n);
    FixedUnique(digest(c), digest(d), r, s);
  }

  lemma FixedUnique(x: Bytes, y: Bytes, r: Bytes, s: Bytes)
    requires |x| == |y| && x + ([NUL] + r) == y + ([NUL] + s)
    ensures x == y && r == s
  {
    var left, right := x + ([NUL] + r), y + ([NUL] + s);
    assert x == left[..|x|] && y == right[..|x|];
    assert r == left[|x| + 1..] && s == right[|x| + 1..];
  }

  /** The first record of a stream can be read off it. */
  lemma RecordUnique(a: Visit, b: Visit, r: Bytes, s: Bytes, digest: Digest)
    requires IsDigest(digest) && Plain(a) && Plain(b) && Record(a, digest) + r == Record(b, digest) + s
    ensures SameEntry(a, b, digest) && r == s
  {
    hide FileRecord, Posix, PlainPath, IsDigest;
    if a.item.File? && b.item.File? {
      FileRecordUnique(a.path, a.item.content, a.item.mtime, b.path, b.item.content, b.item.mtime, r, s, digest);
    } else if a.item.File? {
      FileStarts(a.path, a.item.content, a.item.mtime, digest, r);
      DirectoryRecordSplit(b.path, s);
    } else if b.item.File? {
      FileStarts(b.path, b.item.content, b.item.mtime, digest, s);
      DirectoryRecordSplit(a.path, r);
    } else {
      DirectoryRecordSplit(a.path, r);
      DirectoryRecordSplit(b.path, s);
      FieldUnique("D", "D", Field(Posix(a.path)) + r, Field(Posix(b.path)) + s);
      PosixPlain(a.path);
      PosixPlain(b.path);
      FieldUnique(Posix(a.path), Posix(b.path), r, s);
      PosixUnique(a.path, b.path);
    }
  }

  lemma FileStarts(path: Path, content: Bytes, mtime: nat, digest: Digest, r: Bytes)
    ensures (FileRecord(path, content, mtime, digest) + r)[0] == 'F'
  {
    FileRecordSplit(path, content, mtime, digest, r);
  }

  /** The stream of kept visits, first record first. */
  function FrontStream(w: seq<Visit>, digest: Digest): Bytes {
    if w == [] then [] else Record(w[0], digest) + FrontStream(w[1..], digest)
  }

  lemma {:induction false} FrontStreamAppend(a: seq<Visit>, v: Visit, digest: Digest)
    ensures FrontStream(a + [v], digest) == FrontStream(a, digest) + Record(v, digest)
  {
    hide Record;
    if a == [] {
      assert ([] + [v])[1..] == [];
    } else {
      assert (a + [v])[1..] == a[1..] + [v];
      FrontStreamAppend(a[1..], v, digest);
    }
  }

  lemma {:induction false} StreamFromFront(w: seq<Visit>, digest: Digest)
    requires forall v :: v in w ==> !v.excluded
    ensures Stream(w, digest) == FrontStream(w, digest)
  {
    hide Record;
    if w != [] {
      var n := |w| - 1;
      assert w[n] in w && forall v :: v in w[..n] ==> v in w;
      StreamFromFront(w[..n], digest);
      FrontStreamAppend(w[..n], w[n], digest);
      assert w == w[..n] + [w[n]];
    }
  }

  lemma {:induction false} FrontStreamUnique(a: seq<Visit>, b: seq<Visit>, digest: Digest)
    requires IsDigest(digest) && FrontStream(a, digest) == FrontStream(b, digest)
    requires (forall v :: v in a ==> Plain(v)) && (forall v :: v in b ==> Plain(v))
    ensures |a| == |b| && forall i :: 0 <= i < |a| ==> SameEntry(a[i], b[i], digest)
  {
    hide Record, Plain, SameEntry, IsDigest;
    if a == [] {
      if b != [] {
        RecordNotEmpty(b[0], digest);
      }
    } else if b == [] {
      RecordNotEmpty(a[0], digest);
    } else {
      assert a[0] in a && b[0] in b;
      assert forall v :: v in a[1..] ==> v in a;
      assert forall v :: v in b[1..] ==> v in b;
      RecordUnique(a[0], b[0], FrontStream(a[1..], digest), FrontStream(b[1..], digest), digest);
      FrontStreamUnique(a[1..], b[1..], digest);
      forall i | 0 <= i < |a| ensures SameEntry(a[i], b[i], digest) {
        if i > 0 {
          assert a[i] == a[1..][i - 1] && b[i] == b[1..][i - 1];
        }
      }
    }
  }

  lemma RecordNotEmpty(v: Visit, digest: Digest)
    ensures Record(v, digest) != []
  {
  }

  /** Equal streams come from equal lists of entries. */
  lemma StreamUnique(a: seq<Visit>, b: seq<Visit>, digest: Digest)
    requires IsDigest(digest) && (forall v :: v in a ==> Plain(v)) && (forall v :: v in b ==> Plain(v))
    ensures Stream(a, digest) == Stream(b, digest) ==>
      |a| == |b| && forall i :: 0 <= i < |a| ==> SameEntry(a[i], b[i], digest)
  {
    hide Record, PlainPath, SameEntry, IsDigest, Stream, FrontStream;
    StreamFromFront(a, digest);
    StreamFromFront(b, digest);
    if Stream(a, digest) == Stream(b, digest) {
      FrontStreamUnique(a, b, digest);
    }
  }

  // ---------------------------------------------------------------------------
  // The visible visits of a sound disk
  // ---------------------------------------------------------------------------

  /** Names the file system allows, and nothing but files and directories. */
  ghost predicate Sound(disk: Disk) {
    forall p :: p in disk ==> PlainPath(p) && (disk[p].File? || disk[p].Directory?)
  }

  lemma {:induction false} VisibleMembers(w: seq<Visit>, v: Visit)
    ensures v in Visible(w) <==> v in w && !v.excluded
  {
    if w != [] {
      VisibleMembers(w[1..], v);
      assert w == [w[0]] + w[1..];
    }
  }

  lemma VisiblePlain(disk: Disk, listing: Listing, limit: nat)
    requires Scanned(disk, listing, limit) && Sound(disk)
    ensures forall v :: v in Visible(Walk(disk, listing, limit)) <==> v.path in VisiblePart(disk) && v == Visit(v.path, disk[v.path], false)
    ensures forall v :: v in Visible(Walk(disk, listing, limit)) ==> Plain(v)
  {
    hide Excluded, Scanned, Walk, Visible, PlainPath;
    PrunedWalkExact(disk, listing, limit);
    var w := Walk(disk, listing, limit);
    forall v ensures v in Visible(w) <==> v.path in VisiblePart(disk) && v == Visit(v.path, disk[v.path], false) {
      VisibleMembers(w, v);
    }
  }

  /** The listing of the visible part alone. */
  ghost function VisibleListing(disk: Disk, listing: Listing): Listing {
    map d | d in listing :: VisibleNames(d, listing[d])
  }

  lemma VisibleScanned(disk: Disk, listing: Listing, limit: nat)
    requires Scanned(disk, listing, limit)
    ensures Scanned(VisiblePart(disk), VisibleListing(disk, listing), limit)
  {
    hide Excluded;
    var part, names := VisiblePart(disk), VisibleListing(disk, listing);
    forall p | p in part ensures InDirectory(part, limit, p) {
      assert InDirectory(disk, limit, p);
      NotExcludedParent(p);
    }
    forall d | IsDirectory(part, d) ensures d in names && ListsOne(part, names[d], d) {
      assert IsDirectory(disk, d);
      assert ListsOne(disk, listing[d], d);
      VisibleNamesOrdered(d, listing[d]);
    }
  }

  // ---------------------------------------------------------------------------
  // Cloning
  // ---------------------------------------------------------------------------

  const MARGIN_BYTES: nat := 64 * 1024 * 1024

  function RequiredBytes(total: nat): nat {
    total + if MARGIN_BYTES >= total / 20 then MARGIN_BYTES else total / 20
  }

  /** The reasons a clone can fail before anything is copied, in the order they are looked at. */
  function Refusal(w: seq<Visit>, changed: set<Path>, digest: Digest, expected: Bytes, target: Disk, free: nat): Option<StorageError> {
    var failure := FirstFailure(w, changed);
    if failure.Some? then failure
    else if Stream(w, digest) != expected then Some(SourceChanged)
    else if target != map[] then Some(TargetNotEmpty)
    else if free < RequiredBytes(TotalBytes(w)) then Some(DiskFull)
    else None
  }

  class ProfileStorage {
    var userData: Disk
    var staging: Option<Disk>

    constructor ()
      ensures userData == map[] && staging == None
    {
      userData, staging := map[], None;
    }

    /** Clones `source` into this storage. `changed` and `changedStaged` are files written to while
        the source, respectively the staged copy, is hashed; `lt` is how the staged copy is listed. */
    method CloneFrom(source: Disk, ls: Listing, limit: nat, digest: Digest, expected: Bytes, free: nat,
                     changed: set<Path>, changedStaged: set<Path>, lt: Listing)
      returns (answer: Result<Snapshot, StorageError>)
      requires Scanned(source, ls, limit) && Scanned(VisiblePart(source), lt, limit)
      modifies this
      ensures staging == None
      ensures answer.Err? ==> userData == old(userData)
      ensures answer.Ok? ==> userData == VisiblePart(source) && answer.value == Summary(Walk(source, ls, limit), digest)
      ensures var refusal := Refusal(Walk(source, ls, limit), changed, digest, expected, old(userData), free);
        && (refusal.Some? ==> answer == Err(refusal.value))
        && (refusal.None? && SiblingsDiffer(source) && changedStaged == {} ==> answer.Ok?)
    {
      hide Excluded, Scanned, Walk, SiblingsDiffer, VisiblePart, Stream, FileCount, TotalBytes, ExcludedCount, FirstFailure;
      staging := None;
      var w := Walk(source, ls, limit);
      var first := TakeSnapshot(w, digest, changed);
      if first.Err? {
        return Err(first.error);
      }
      if first.value.fingerprint != expected {
        return Err(SourceChanged);
      }
      if userData != map[] {
        return Err(TargetNotEmpty);
      }
      if free < RequiredBytes(first.value.totalBytes) {
        return Err(DiskFull);
      }
      var copy, failure := CopyStorage(w, source, ls, limit);
      NoFailureEitherWay(w, changed);
      staging := Some(copy);
      var staged := TakeSnapshot(Walk(copy, lt, limit), digest, changedStaged);
      StagedNeverFails(source, ls, lt, limit);
      if SiblingsDiffer(source) {
        CloneFaithful(source, ls, copy, lt, limit, digest);
      }
      if staged.Err? {
        staging := None;
        return Err(staged.error);
      }
      if staged.value.fileCount != first.value.fileCount || staged.value.totalBytes != first.value.totalBytes
        || staged.value.fingerprint != first.value.fingerprint
      {
        staging := None;
        return Err(CloneMismatch);
      }
      userData, staging := copy, None;
      answer := Ok(first.value);
    }
  }

  /** What stops a walk when nothing changes stops it in any case. */
  lemma {:induction false} NoFailureEitherWay(w: seq<Visit>, changed: set<Path>)
    ensures FirstFailure(w, changed).None? ==> FirstFailure(w, {}).None?
  {
    if w != [] {
      NoFailureEitherWay(w[..|w| - 1], changed);
    }
  }

  lemma {:induction false} FailureOf(w: seq<Visit>, changed: set<Path>)
    ensures FirstFailure(w, changed).None? <==> forall v :: v in w ==> Failure(v, changed).None?
  {
    hide Failure;
    if w != [] {
      FailureOf(w[..|w| - 1], changed);
      assert w == w[..|w| - 1] + [w[|w| - 1]];
    }
  }

  /** A copy holds only what the source's own walk got past. */
  lemma StagedNeverFails(source: Disk, ls: Listing, lt: Listing, limit: nat)
    requires Scanned(source, ls, limit) && Scanned(VisiblePart(source), lt, limit)
    requires FirstFailure(Walk(source, ls, limit), {}).None?
    ensures FirstFailure(Walk(VisiblePart(source), lt, limit), {}).None?
  {
    hide Excluded, Scanned, Walk, FirstFailure, Failure;
    var w, w' := Walk(source, ls, limit), Walk(VisiblePart(source), lt, limit);
    FailureOf(w, {});
    FailureOf(w', {});
    PrunedWalkExact(source, ls, limit);
    PrunedWalkExact(VisiblePart(source), lt, limit);
    forall v | v in w' ensures Failure(v, {}).None? {
      assert v.path in VisiblePart(source);
      assert Visit(v.path, source[v.path], false) in w;
      assert v == Visit(v.path, source[v.path], false);
    }
  }

  /** What iterating over a profile's clone files yields. */
  function CloneFiles(w: seq<Visit>): (r: seq<(Path, Item)>)
  {
    if w == [] then []
    else CloneFiles(w[..|w| - 1]) + if !w[|w| - 1].excluded && w[|w| - 1].item.File? then [(w[|w| - 1].path, w[|w| - 1].item)] else []
  }

  lemma {:induction false} CloneFilesMembers(w: seq<Visit>, p: Path, item: Item)
    ensures (p, item) in CloneFiles(w) <==> item.File? && Visit(p, item, false) in w
  {
    if w != [] {
      CloneFilesMembers(w[..|w| - 1], p, item);
      assert w == w[..|w| - 1] + [w[|w| - 1]];
    }
  }

  /** The files iterated over are exactly the files that are not excluded. */
  lemma CloneFilesExact(disk: Disk, listing: Listing, limit: nat, p: Path, item: Item)
    requires Scanned(disk, listing, limit)
    ensures (p, item) in CloneFiles(Walk(disk, listing, limit)) <==> p in disk && !Excluded(p) && disk[p] == item && item.File?
  {
    hide Excluded, Scanned, Walk, CloneFiles;
    PrunedWalkExact(disk, listing, limit);
    CloneFilesMembers(Walk(disk, listing, limit), p, item);
  }
}
