/** What restoring does with any archive that passed inspection: the profile then holds exactly the
    members' files, unless two members get in each other's way. */
module BundleRestoring {
  import opened Prelude
  import opened ProfileTree
  import opened ProfileClone
  import opened BundleArchive
  import opened BundleInspection

  /** The path a member's name leads to. */
  function PathOf(name: string): Path {
    if ValidateName(name).Ok? then ValidateName(name).value else []
  }

  /** The files an archive carries. */
  function Payload(a: Archive): seq<Source> {
    if a == [] then []
    else
      var n := |a| - 1;
      Payload(a[..n]) + if a[n].name == MANIFEST_NAME then [] else [Source(PathOf(a[n].name), a[n].content)]
  }

  /** One path is the other or lies below it. */
  predicate InTheWay(p: Path, q: Path) {
    p <= q || q <= p
  }

  ghost predicate Compatible(files: seq<Source>) {
    forall i, j :: 0 <= i < j < |files| ==> !InTheWay(files[i].path, files[j].path)
  }

  /** The directories above the first n files are there. */
  ghost predicate Rooting(disk: Disk, files: seq<Source>, n: nat)
    requires n <= |files|
  {
    forall i, p :: 0 <= i < n && OnTheWay(p, files[i].path) ==> p in disk
  }

  lemma Related(disk: Disk, files: seq<Source>, n: nat)
    requires n < |files| && Holds(disk, files, n) && Rooting(disk, files, n) && files[n].path != []
    requires forall i :: 0 <= i < n ==> files[i].path != []
    ensures Blocked(disk, files[n].path) <==> exists i :: 0 <= i < n && InTheWay(files[i].path, files[n].path)
  {
    hide HasFile;
    var path := files[n].path;
    if i :| 0 <= i < n && InTheWay(files[i].path, path) {
      FileThere(disk, files, n, i);
      if |files[i].path| < |path| {
        assert path[..|files[i].path|] == files[i].path;
      } else if |path| < |files[i].path| {
        assert OnTheWay(path, files[i].path);
      } else {
        assert path == files[i].path;
      }
      assert Blocked(disk, path);
    }
    if path in disk {
      HeldAbove(disk, files, n, path);
      var i :| 0 <= i < n && path <= files[i].path;
      assert InTheWay(files[i].path, path);
    } else if k :| 0 < k < |path| && path[..k] in disk && !disk[path[..k]].Directory? {
      HeldAbove(disk, files, n, path[..k]);
      var i :| 0 <= i < n && files[i].path == path[..k];
      assert InTheWay(files[i].path, path);
    }
  }

  /** Whatever is there is one of the files, or a directory above one. */
  lemma HeldAbove(disk: Disk, files: seq<Source>, n: nat, p: Path)
    requires n <= |files| && Holds(disk, files, n) && p in disk
    ensures exists i :: 0 <= i < n && p <= files[i].path && (!disk[p].Directory? ==> files[i].path == p)
  {
    HeldAccounted(disk, files, n, p);
    if disk[p].File? {
      var i :| 0 <= i < n && files[i].path == p;
    } else {
      var i :| 0 <= i < n && OnTheWay(p, files[i].path);
      assert p <= files[i].path;
    }
  }

  lemma FileThere(disk: Disk, files: seq<Source>, n: nat, i: nat)
    requires i < n <= |files| && Holds(disk, files, n)
    ensures files[i].path in disk && disk[files[i].path].File?
  {
    assert HasFile(disk, files[i]);
  }

  lemma {:induction false} DirectoriesMade(disk: Disk, dir: Path, k: nat)
    requires 0 < k <= |dir|
    ensures dir[..k] in WithDirectories(disk, dir)
  {
    if k < |dir| {
      DirectoriesMade(disk, dir[..|dir| - 1], k);
      assert dir[..|dir| - 1][..k] == dir[..k];
    } else {
      assert dir[..k] == dir;
    }
  }

  /** Writing one more file keeps the directories and makes its own. */
  lemma RootingStep(disk: Disk, files: seq<Source>, n: nat, item: Item)
    requires n < |files| && Rooting(disk, files, n) && files[n].path != []
    ensures var path := files[n].path; Rooting(WithDirectories(disk, path[..|path| - 1])[path := item], files, n + 1)
  {
    var path := files[n].path;
    var made := WithDirectories(disk, path[..|path| - 1]);
    forall i, p | 0 <= i < n + 1 && OnTheWay(p, files[i].path) ensures p in made[path := item] {
      if i == n {
        DirectoriesMade(disk, path[..|path| - 1], |p|);
        assert path[..|path| - 1][..|p|] == p;
      }
    }
  }

  // ---------------------------------------------------------------------------
  // Member by member
  // ---------------------------------------------------------------------------

  lemma {:induction false} EntryFound(entries: seq<Entry>, name: string)
    ensures FindEntry(entries, name).Some? <==> exists i :: 0 <= i < |entries| && entries[i].path == name
    ensures FindEntry(entries, name).Some? ==> FindEntry(entries, name).value in entries && FindEntry(entries, name).value.path == name
  {
    if entries != [] {
      EntryFound(entries[..|entries| - 1], name);
    }
  }

  /** A member of a sound archive has an entry that accounts for it, and leads to a path of its own. */
  lemma SoundMember(a: Archive, c: Codec, m: Manifest, x: Member)
    requires SoundArchive(a, c, m) && x in a && x.name != MANIFEST_NAME
    ensures var e := FindEntry(m.entries, x.name);
      e.Some? && |x.content| == e.value.size && c.digest(x.content) == e.value.digest
    ensures ValidateName(x.name) == Ok(PathOf(x.name)) && PathOf(x.name) != []
  {
    hide ValidateName, SafeName, FindEntry, PayloadBytes, SizeSum, Excluded;
    SafelyNamed(x);
    assert HasMember(a, x.name);
    assert HasEntry(m, x.name);
    EntryFound(m.entries, x.name);
    var e := FindEntry(m.entries, x.name).value;
    assert EntryFine(e, a, c);
    var y :| y in a && Accounts(e, y, c);
    SameMember(a, x, y);
  }

  lemma SafelyNamed(x: Member)
    requires MemberFine(x) && x.name != MANIFEST_NAME
    ensures ValidateName(x.name) == Ok(PathOf(x.name)) && PathOf(x.name) != []
  {
    hide ValidateName, PortableName;
    var path :| SafeName(x.name, path);
    ValidatesExactly(x.name, path);
  }

  lemma SameMember(a: Archive, x: Member, y: Member)
    requires x in a && y in a && x.name == y.name
    requires forall i, j :: 0 <= i < j < |a| ==> a[i].name != a[j].name
    ensures x == y
  {
    var i :| 0 <= i < |a| && a[i] == x;
    var j :| 0 <= j < |a| && a[j] == y;
  }

  /** Writing one file into the staging directory. */
  function Placed(disk: Disk, path: Path, content: Bytes, now: nat): Result<Disk, ArchiveError> {
    if path == [] || Blocked(disk, path) then Err(PathConflict)
    else Ok(WithDirectories(disk, path[..|path| - 1])[path := File(content, now)])
  }

  lemma MemberPlaced(disk: Disk, a: Archive, c: Codec, m: Manifest, x: Member, now: nat)
    requires SoundArchive(a, c, m) && x in a
    ensures RestoredMember(disk, x, m.entries, now, c)
      == if x.name == MANIFEST_NAME then Ok(disk) else Placed(disk, PathOf(x.name), x.content, now)
    ensures x.name != MANIFEST_NAME ==> PathOf(x.name) != []
  {
    hide SoundArchive, ValidateName, FindEntry, Blocked, WithDirectories, PathOf;
    if x.name != MANIFEST_NAME {
      SoundMember(a, c, m, x);
    }
  }

  /** The files are there, in directories of their own, and nothing else. */
  ghost predicate HoldsExactly(disk: Disk, files: seq<Source>) {
    Holds(disk, files, |files|) && Rooting(disk, files, |files|)
  }

  lemma PlacedStep(disk: Disk, front: seq<Source>, s: Source, now: nat)
    requires HoldsExactly(disk, front) && Compatible(front) && s.path != [] && forall f :: f in front ==> f.path != []
    ensures var r := Placed(disk, s.path, s.content, now);
      if Compatible(front + [s]) then r.Ok? && HoldsExactly(r.value, front + [s]) else r == Err(PathConflict)
  {
    hide Holds, Rooting, Blocked, WithDirectories, InTheWay, Compatible;
    var files, n := front + [s], |front|;
    assert forall i :: 0 <= i < n ==> files[i] == front[i];
    SameFront(disk, front, s);
    Related(disk, files, n);
    CompatibleStep(front, s);
    if Compatible(files) {
      CompatibleDistinct(files);
      HoldsStep(disk, files, n, now);
      RootingStep(disk, files, n, File(s.content, now));
    }
  }

  lemma SameFront(disk: Disk, front: seq<Source>, s: Source)
    requires HoldsExactly(disk, front)
    ensures Holds(disk, front + [s], |front|) && Rooting(disk, front + [s], |front|)
  {
    hide HasFile, OnTheWay;
    var files := front + [s];
    assert forall i :: 0 <= i < |front| ==> files[i] == front[i];
    forall i | 0 <= i < |front| ensures HasFile(disk, files[i]) {
      assert HasFile(disk, front[i]);
    }
    forall p | p in disk ensures Accounted(disk, files, |front|, p) {
      assert Accounted(disk, front, |front|, p);
    }
  }

  lemma CompatibleStep(front: seq<Source>, s: Source)
    ensures Compatible(front + [s]) <==> Compatible(front) && forall i :: 0 <= i < |front| ==> !InTheWay(front[i].path, s.path)
  {
    hide InTheWay;
    var files := front + [s];
    assert forall i :: 0 <= i < |front| ==> files[i] == front[i];
    if Compatible(files) {
      assert forall i :: 0 <= i < |front| ==> !InTheWay(files[i].path, files[|front|].path);
    }
  }

  lemma CompatibleDistinct(files: seq<Source>)
    requires Compatible(files)
    ensures DistinctPaths(files)
  {
    assert forall i, j :: 0 <= i < j < |files| ==> !InTheWay(files[i].path, files[j].path);
  }

  lemma {:induction false} RestoresPrefix(a: Archive, c: Codec, m: Manifest, now: nat, k: nat)
    requires SoundArchive(a, c, m) && k <= |a|
    ensures forall f :: f in Payload(a[..k]) ==> f.path != []
    ensures var r, files := Restored(a[..k], m.entries, now, c), Payload(a[..k]);
      if Compatible(files) then r.Ok? && HoldsExactly(r.value, files) else r == Err(PathConflict)
  {
    hide SoundArchive, RestoredMember, PathOf, Placed, Compatible, HoldsExactly;
    if k == 0 {
      NothingPlaced();
    } else {
      RestoresPrefix(a, c, m, now, k - 1);
      assert a[..k][..k - 1] == a[..k - 1];
      var front := Payload(a[..k - 1]);
      var r := Restored(a[..k - 1], m.entries, now, c);
      var x := a[k - 1];
      assert a[..k][k - 1] == x && a[..k] != [];
      assert Payload(a[..k]) == front + if x.name == MANIFEST_NAME then [] else [Source(PathOf(x.name), x.content)];
      assert front + [] == front;
      if x.name == MANIFEST_NAME {
        if r.Ok? {
          MemberPlaced(r.value, a, c, m, x, now);
        }
      } else {
        var s := Source(PathOf(x.name), x.content);
        MemberPlaced(map[], a, c, m, x, now);
        CompatibleStep(front, s);
        if r.Ok? {
          MemberPlaced(r.value, a, c, m, x, now);
          PlacedStep(r.value, front, s, now);
        }
      }
    }
  }

  lemma NothingPlaced()
    ensures Compatible([]) && HoldsExactly(map[], [])
  {
  }

  /** Restoring an archive that passed inspection succeeds exactly if no member's path is another's or
      lies below it; the profile then holds exactly the members' files and the directories above them. */
  lemma RestoredExactly(a: Archive, c: Codec, m: Manifest, now: nat)
    requires Inspected(a, c) == Ok(m)
    ensures var r := Restored(a, m.entries, now, c);
      if Compatible(Payload(a)) then r.Ok? && HoldsExactly(r.value, Payload(a)) else r == Err(PathConflict)
  {
    hide SoundArchive, Restored, Inspected, Compatible, HoldsExactly;
    InspectedExactly(a, c, m);
    RestoresPrefix(a, c, m, now, |a|);
    assert a[..|a|] == a;
  }
}
