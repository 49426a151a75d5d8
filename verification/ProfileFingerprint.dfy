/** What a profile's fingerprint determines: the kept part of the directory, with file contents as
    far as their digests tell them apart. */
module ProfileFingerprint {
  import opened Prelude
  import opened ProfileTree
  import opened ProfileClone

  /** The same item, as far as a record tells. */
  predicate SameItem(x: Item, y: Item, digest: Digest) {
    && (x.File? <==> y.File?) && (x.Directory? <==> y.Directory?)
    && (x.File? && y.File? ==> |x.content| == |y.content| && x.mtime == y.mtime && digest(x.content) == digest(y.content))
  }

  /** The same paths, and the same items at them. */
  ghost predicate SameUpTo(a: Disk, b: Disk, digest: Digest) {
    a.Keys == b.Keys && forall p :: p in a && p in b ==> SameItem(a[p], b[p], digest)
  }

  // ---------------------------------------------------------------------------
  // Equal fingerprints come from equal parts
  // ---------------------------------------------------------------------------

  lemma PartKeptInVisits(a: Disk, b: Disk, u: seq<Visit>, v: seq<Visit>, digest: Digest)
    requires forall x :: x in u <==> x.path in a && x == Visit(x.path, a[x.path], false)
    requires forall x :: x in v <==> x.path in b && x == Visit(x.path, b[x.path], false)
    requires |u| == |v| && forall i :: 0 <= i < |u| ==> SameEntry(u[i], v[i], digest)
    requires forall p :: p in b ==> b[p].File? || b[p].Directory?
    requires forall p :: p in a ==> a[p].File? || a[p].Directory?
    ensures forall p :: p in a ==> p in b && SameItem(a[p], b[p], digest)
  {
    forall p | p in a ensures p in b && SameItem(a[p], b[p], digest) {
      assert Visit(p, a[p], false) in u;
      var i :| 0 <= i < |u| && u[i] == Visit(p, a[p], false);
      assert v[i] in v && SameEntry(u[i], v[i], digest);
    }
  }

  lemma EntriesTurned(u: seq<Visit>, v: seq<Visit>, digest: Digest)
    requires |u| == |v| && forall i :: 0 <= i < |u| ==> SameEntry(u[i], v[i], digest)
    ensures forall i :: 0 <= i < |v| ==> SameEntry(v[i], u[i], digest)
  {
    forall i | 0 <= i < |v| ensures SameEntry(v[i], u[i], digest) {
      assert SameEntry(u[i], v[i], digest);
    }
  }

  lemma VisibleFacts(disk: Disk, listing: Listing, limit: nat)
    requires Scanned(disk, listing, limit) && Sound(disk)
    ensures var w, part := Visible(Walk(disk, listing, limit)), VisiblePart(disk);
      && (forall x :: x in w <==> x.path in part && x == Visit(x.path, part[x.path], false))
      && (forall x :: x in w ==> Plain(x))
      && (forall p :: p in part ==> part[p].File? || part[p].Directory?)
  {
    hide Excluded, Scanned, Walk, Visible, Plain;
    VisiblePlain(disk, listing, limit);
  }

  lemma EqualStreamsTell(a: Disk, la: Listing, b: Disk, lb: Listing, limit: nat, digest: Digest)
    requires Scanned(a, la, limit) && Scanned(b, lb, limit) && Sound(a) && Sound(b) && IsDigest(digest)
    requires Stream(Walk(a, la, limit), digest) == Stream(Walk(b, lb, limit), digest)
    ensures SameUpTo(VisiblePart(a), VisiblePart(b), digest)
  {
    hide Excluded, Scanned, Walk, Visible, VisiblePart, Stream, Sound, IsDigest, Plain, SameEntry, SameItem;
    var u, v := Visible(Walk(a, la, limit)), Visible(Walk(b, lb, limit));
    SummaryOfVisible(Walk(a, la, limit), digest);
    SummaryOfVisible(Walk(b, lb, limit), digest);
    VisibleFacts(a, la, limit);
    VisibleFacts(b, lb, limit);
    StreamUnique(u, v, digest);
    PartKeptInVisits(VisiblePart(a), VisiblePart(b), u, v, digest);
    EntriesTurned(u, v, digest);
    PartKeptInVisits(VisiblePart(b), VisiblePart(a), v, u, digest);
  }

  // ---------------------------------------------------------------------------
  // Equal parts give equal fingerprints
  // ---------------------------------------------------------------------------

  /** Entry by entry the same path, and the same item as far as a record tells. */
  ghost predicate Alike(w: seq<Visit>, x: seq<Visit>, digest: Digest) {
    |w| == |x| && forall i :: 0 <= i < |w| ==> AlikeVisits(w[i], x[i], digest)
  }

  predicate AlikeVisits(v: Visit, w: Visit, digest: Digest) {
    v.path == w.path && v.excluded == w.excluded && SameItem(v.item, w.item, digest)
  }

  lemma ScannedAlike(a: Disk, b: Disk, listing: Listing, limit: nat, digest: Digest)
    requires Scanned(a, listing, limit) && SameUpTo(a, b, digest)
    ensures Scanned(b, listing, limit)
  {
    forall p ensures IsDirectory(a, p) == IsDirectory(b, p) {
    }
    forall p | p in b ensures InDirectory(b, limit, p) {
      assert InDirectory(a, limit, p);
    }
    forall d | IsDirectory(b, d) ensures d in listing && ListsOne(b, listing[d], d) {
      assert IsDirectory(a, d);
      assert ListsOne(a, listing[d], d);
    }
  }

  lemma AlikeAppend(a: seq<Visit>, b: seq<Visit>, c: seq<Visit>, d: seq<Visit>, digest: Digest)
    requires Alike(a, b, digest) && Alike(c, d, digest)
    ensures Alike(a + c, b + d, digest)
  {
  }

  lemma {:induction false} AlikeNames(a: Disk, b: Disk, listing: Listing, limit: nat, dir: Path, names: seq<string>, digest: Digest)
    requires Scanned(a, listing, limit) && Scanned(b, listing, limit) && SameUpTo(a, b, digest) && |dir| <= limit
    requires forall n :: n in names ==> dir + [n] in a
    ensures forall n :: n in names ==> dir + [n] in b
    ensures Alike(WalkNames(a, listing, limit, dir, names), WalkNames(b, listing, limit, dir, names), digest)
    decreases limit - |dir|, |names|
  {
    hide Excluded, Scanned, Sorted, Alike;
    if names == [] {
      EmptyAlike(digest);
    } else {
      var path := dir + [names[0]];
      ChildFacts(a, listing, limit, dir, names[0]);
      ChildFacts(b, listing, limit, dir, names[0]);
      AlikeHere(a, b, path, digest);
      AlikeNames(a, b, listing, limit, dir, names[1..], digest);
      var first, first' := [Visit(path, a[path], Excluded(path))], [Visit(path, b[path], Excluded(path))];
      var rest, rest' := WalkNames(a, listing, limit, dir, names[1..]), WalkNames(b, listing, limit, dir, names[1..]);
      if a[path].Directory? && !Excluded(path) {
        AlikeNames(a, b, listing, limit, path, Sorted(listing[path]), digest);
        var inside := WalkNames(a, listing, limit, path, Sorted(listing[path]));
        var inside' := WalkNames(b, listing, limit, path, Sorted(listing[path]));
        AlikeAppend(first, first', inside, inside', digest);
        AlikeAppend(first + inside, first' + inside', rest, rest', digest);
      } else {
        assert first + [] == first && first' + [] == first';
        AlikeAppend(first, first', rest, rest', digest);
      }
    }
  }

  lemma EmptyAlike(digest: Digest)
    ensures Alike([], [], digest)
  {
  }

  lemma AlikeHere(a: Disk, b: Disk, path: Path, digest: Digest)
    requires SameUpTo(a, b, digest) && path in a
    ensures path in b && (a[path].Directory? <==> b[path].Directory?)
    ensures Alike([Visit(path, a[path], Excluded(path))], [Visit(path, b[path], Excluded(path))], digest)
  {
    hide Excluded;
    assert SameItem(a[path], b[path], digest);
  }

  lemma {:induction false} AlikeStreams(w: seq<Visit>, x: seq<Visit>, digest: Digest)
    requires Alike(w, x, digest)
    ensures Stream(w, digest) == Stream(x, digest)
  {
    if w != [] {
      var n := |w| - 1;
      AlikeStreams(w[..n], x[..n], digest);
      assert AlikeVisits(w[n], x[n], digest);
    }
  }

  lemma AlikeWalks(a: Disk, b: Disk, listing: Listing, limit: nat, digest: Digest)
    requires Scanned(a, listing, limit) && Scanned(b, listing, limit) && SameUpTo(a, b, digest)
    ensures Stream(Walk(a, listing, limit), digest) == Stream(Walk(b, listing, limit), digest)
  {
    hide Scanned, Sorted, SameUpTo, Stream, Alike, WalkNames;
    RootFacts(a, listing, limit);
    RootFacts(b, listing, limit);
    AlikeNames(a, b, listing, limit, [], Sorted(listing[[]]), digest);
    AlikeStreams(Walk(a, listing, limit), Walk(b, listing, limit), digest);
  }

  /** A disk and its kept part have one fingerprint, however the kept part is listed. */
  lemma PartHasFingerprint(disk: Disk, listing: Listing, other: Listing, limit: nat, digest: Digest)
    requires Scanned(disk, listing, limit) && SiblingsDiffer(disk) && Scanned(VisiblePart(disk), other, limit)
    ensures Stream(Walk(disk, listing, limit), digest) == Stream(Walk(VisiblePart(disk), other, limit), digest)
  {
    hide Scanned, Walk, SiblingsDiffer, VisiblePart, Visible, Stream;
    SameWalk(disk, listing, VisiblePart(disk), other, limit);
    SummaryOfVisible(Walk(disk, listing, limit), digest);
  }

  // ---------------------------------------------------------------------------
  // Main results
  // ---------------------------------------------------------------------------

  /** Two profiles have one fingerprint exactly when the parts a clone keeps have the same paths, and
      at them files of the same size, modification time and digest, or directories. Nothing is
      asked of the digest but its length. */
  lemma FingerprintExact(a: Disk, la: Listing, b: Disk, lb: Listing, limit: nat, digest: Digest)
    requires Scanned(a, la, limit) && Scanned(b, lb, limit) && Sound(a) && Sound(b)
    requires SiblingsDiffer(a) && SiblingsDiffer(b) && IsDigest(digest)
    ensures Stream(Walk(a, la, limit), digest) == Stream(Walk(b, lb, limit), digest)
      <==> SameUpTo(VisiblePart(a), VisiblePart(b), digest)
  {
    hide Excluded, Scanned, Walk, VisiblePart, Stream, SiblingsDiffer, Sound, IsDigest, SameUpTo, VisibleListing;
    if Stream(Walk(a, la, limit), digest) == Stream(Walk(b, lb, limit), digest) {
      EqualStreamsTell(a, la, b, lb, limit, digest);
    }
    if SameUpTo(VisiblePart(a), VisiblePart(b), digest) {
      var lc := VisibleListing(a, la);
      VisibleScanned(a, la, limit);
      ScannedAlike(VisiblePart(a), VisiblePart(b), lc, limit, digest);
      PartHasFingerprint(a, la, lc, limit, digest);
      PartHasFingerprint(b, lb, lc, limit, digest);
      AlikeWalks(VisiblePart(a), VisiblePart(b), lc, limit, digest);
    }
  }

  predicate Collides(x: Bytes, y: Bytes, digest: Digest) {
    x != y && |x| == |y| && digest(x) == digest(y)
  }

  /** No two files at one path of the disks have different contents of the same size with the same
      digest: nothing is said about contents that do not occur. */
  ghost predicate NoCollision(a: Disk, b: Disk, digest: Digest) {
    forall p :: p in a && p in b && a[p].File? && b[p].File? ==> !Collides(a[p].content, b[p].content, digest)
  }

  lemma SameUpToEqual(a: Disk, b: Disk, digest: Digest)
    requires forall p :: p in a ==> a[p].File? || a[p].Directory?
    ensures a == b ==> SameUpTo(a, b, digest)
    ensures SameUpTo(a, b, digest) && NoCollision(a, b, digest) ==> a == b
  {
    if SameUpTo(a, b, digest) && NoCollision(a, b, digest) {
      forall p | p in a ensures p in b && a[p] == b[p] {
        assert SameItem(a[p], b[p], digest);
        assert a[p].File? ==> !Collides(a[p].content, b[p].content, digest);
      }
    }
  }

  /** So unless two contents that occur collide, one fingerprint means the same kept part. */
  lemma FingerprintTellsProfiles(a: Disk, la: Listing, b: Disk, lb: Listing, limit: nat, digest: Digest)
    requires Scanned(a, la, limit) && Scanned(b, lb, limit) && Sound(a) && Sound(b)
    requires SiblingsDiffer(a) && SiblingsDiffer(b) && IsDigest(digest)
    requires NoCollision(VisiblePart(a), VisiblePart(b), digest)
    ensures Stream(Walk(a, la, limit), digest) == Stream(Walk(b, lb, limit), digest) <==> VisiblePart(a) == VisiblePart(b)
  {
    hide Excluded, Scanned, Walk, Stream, SiblingsDiffer, IsDigest, SameUpTo, NoCollision;
    FingerprintExact(a, la, b, lb, limit, digest);
    SameUpToEqual(VisiblePart(a), VisiblePart(b), digest);
  }

  // ---------------------------------------------------------------------------
  // Both cases occur
  // ---------------------------------------------------------------------------

  function OneFile(content: Bytes): Disk {
    map[["Default"] := Directory, ["Default", "A"] := File(content, 0)]
  }

  const ONE_LISTING: Listing := map[[] := ["Default"], ["Default"] := ["A"]]

  lemma OneFileScanned(content: Bytes)
    ensures Scanned(OneFile(content), ONE_LISTING, 2)
  {
    var disk := OneFile(content);
    assert ["Default"][..0] == [];
    assert ["Default", "A"][..1] == ["Default"];
    assert Rooted(disk, 2);
    forall d | IsDirectory(disk, d) ensures d in ONE_LISTING && ListsOne(disk, ONE_LISTING[d], d) {
      assert d == [] || d == ["Default"];
      forall n ensures n in ONE_LISTING[d] <==> d + [n] in disk {
        if d == [] {
          assert [] + [n] == [n];
          assert |[n]| == 1;
        } else {
          assert ["Default"] + [n] == ["Default", n];
        }
      }
    }
  }

  lemma OneFileKept(content: Bytes)
    ensures Sound(OneFile(content)) && SiblingsDiffer(OneFile(content)) && VisiblePart(OneFile(content)) == OneFile(content)
  {
    hide Excluded;
    RivalPaths();
    assert |["Default"]| == 1 && |["Default", "A"]| == 2;
  }

  /** A profile with one file whose contents change: the fingerprint notices exactly when the
      digest does. */
  lemma OneFileChanged(digest: Digest, x: char, y: char)
    requires IsDigest(digest) && x != y
    ensures VisiblePart(OneFile([x])) != VisiblePart(OneFile([y]))
    ensures Scanned(OneFile([x]), ONE_LISTING, 2) && Scanned(OneFile([y]), ONE_LISTING, 2)
    ensures Stream(Walk(OneFile([x]), ONE_LISTING, 2), digest) == Stream(Walk(OneFile([y]), ONE_LISTING, 2), digest)
      <==> digest([x]) == digest([y])
  {
    hide Scanned, Walk, Stream, VisiblePart, Sound, SiblingsDiffer, IsDigest;
    OneFileScanned([x]);
    OneFileScanned([y]);
    OneFileKept([x]);
    OneFileKept([y]);
    FingerprintExact(OneFile([x]), ONE_LISTING, OneFile([y]), ONE_LISTING, 2, digest);
    assert OneFile([x])[["Default", "A"]] == File([x], 0) && OneFile([y])[["Default", "A"]] == File([y], 0);
    assert SameItem(File([x], 0), File([y], 0), digest) <==> digest([x]) == digest([y]);
  }

  /** There are digests of either kind. */
  lemma DigestsExist() returns (blind: Digest, keen: Digest)
    ensures IsDigest(blind) && blind("x") == blind("y")
    ensures IsDigest(keen) && keen("x") != keen("y")
  {
    var ps, qs := seq(32, _ => 'p'), seq(32, _ => 'q');
    blind := content => ps;
    keen := content => if content == "x" then ps else qs;
    assert ps[0] != qs[0];
  }
}
