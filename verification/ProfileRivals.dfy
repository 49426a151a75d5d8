/** Exactly when a clone is certain to match its source: siblings that agree up to case make the
    walk depend on the order in which directories are listed. */
module ProfileRivals {
  import opened Prelude
  import opened ProfileTree
  import opened ProfileClone

  /** p occurs before q. */
  ghost predicate Precedes<T(!new)>(s: seq<T>, p: T, q: T) {
    exists i, j :: 0 <= i < j < |s| && s[i] == p && s[j] == q
  }

  lemma PrecedesInside<T(!new)>(a: seq<T>, s: seq<T>, b: seq<T>, p: T, q: T)
    requires Precedes(s, p, q)
    ensures Precedes(a + s + b, p, q)
  {
    var i, j :| 0 <= i < j < |s| && s[i] == p && s[j] == q;
    assert (a + s + b)[|a| + i] == p && (a + s + b)[|a| + j] == q;
  }

  lemma HeadPrecedes<T(!new)>(p: T, a: seq<T>, b: seq<T>, q: T)
    requires q in b
    ensures Precedes([p] + a + b, p, q)
  {
    var j :| 0 <= j < |b| && b[j] == q;
    var s := [p] + a + b;
    assert s[0] == p && s[1 + |a| + j] == q;
  }

  lemma NotBothWays<T(!new)>(s: seq<T>, p: T, q: T)
    requires Distinct(s) && Precedes(s, p, q)
    ensures !Precedes(s, q, p)
  {
  }

  lemma PrecedesTail(names: seq<string>, x: string, y: string)
    requires Distinct(names) && Precedes(names, x, y)
    ensures names != [] && names[0] != y
    ensures names[0] == x ==> y in names[1..]
    ensures names[0] != x ==> Precedes(names[1..], x, y)
  {
    var i, j :| 0 <= i < j < |names| && names[i] == x && names[j] == y;
    assert names[1..][j - 1] == y;
    if i > 0 {
      assert names[1..][i - 1] == x;
    }
  }

  /** The parts one step of the walk is made of. */
  ghost predicate Split(disk: Disk, listing: Listing, limit: nat, dir: Path, names: seq<string>, inside: seq<Visit>, rest: seq<Visit>)
    requires Scanned(disk, listing, limit) && |dir| <= limit && names != []
    requires forall n :: n in names ==> dir + [n] in disk
  {
    var path := dir + [names[0]];
    && Paths(WalkNames(disk, listing, limit, dir, names)) == [path] + Paths(inside) + Paths(rest)
    && rest == WalkNames(disk, listing, limit, dir, names[1..])
    && (Entry(disk, path) ==>
         && path in listing && |path| <= limit && (forall n :: n in Sorted(listing[path]) ==> path + [n] in disk)
         && inside == WalkNames(disk, listing, limit, path, Sorted(listing[path])))
  }

  /** A directory the walk enters. */
  predicate Entry(disk: Disk, path: Path) {
    path in disk && disk[path].Directory? && !Excluded(path)
  }

  lemma WalkSplits(disk: Disk, listing: Listing, limit: nat, dir: Path, names: seq<string>) returns (inside: seq<Visit>, rest: seq<Visit>)
    requires Scanned(disk, listing, limit) && |dir| <= limit && names != []
    requires forall n :: n in names ==> dir + [n] in disk
    ensures Split(disk, listing, limit, dir, names, inside, rest)
  {
    hide Excluded, Scanned;
    var path := dir + [names[0]];
    ChildFacts(disk, listing, limit, dir, names[0]);
    inside := [];
    if Entry(disk, path) {
      inside := WalkNames(disk, listing, limit, path, Sorted(listing[path]));
    }
    rest := WalkNames(disk, listing, limit, dir, names[1..]);
    var here := [Visit(path, disk[path], Excluded(path))];
    PathsAppend(here + inside, rest);
    PathsAppend(here, inside);
    assert Paths(here) == [path];
  }

  /** Two kept entries of the directory the walk is in come in the order of their names. */
  lemma {:induction false} OrderHere(disk: Disk, listing: Listing, limit: nat, dir: Path, names: seq<string>, x: string, y: string)
    requires Scanned(disk, listing, limit) && |dir| <= limit && Distinct(names) && Precedes(names, x, y)
    requires forall n :: n in names ==> dir + [n] in disk
    ensures Precedes(Paths(WalkNames(disk, listing, limit, dir, names)), dir + [x], dir + [y])
    decreases |names|
  {
    hide Excluded, Scanned, Precedes;
    PrecedesTail(names, x, y);
    var inside, rest := WalkSplits(disk, listing, limit, dir, names);
    if names[0] == x {
      WalkReaches(disk, listing, limit, dir, names[1..], dir + [y]);
      ChildBelow(disk, dir, names[1..], y);
      HeadPrecedes(dir + [x], Paths(inside), Paths(rest), dir + [y]);
    } else {
      assert Distinct(names[1..]);
      OrderHere(disk, listing, limit, dir, names[1..], x, y);
      assert [dir + [names[0]]] + Paths(inside) + Paths(rest) == ([dir + [names[0]]] + Paths(inside)) + Paths(rest) + [];
      PrecedesInside([dir + [names[0]]] + Paths(inside), Paths(rest), [], dir + [x], dir + [y]);
    }
  }

  lemma ChildBelow(disk: Disk, dir: Path, names: seq<string>, y: string)
    requires y in names && dir + [y] in disk
    ensures Below(disk, dir, names, dir + [y])
  {
    hide Excluded;
    assert (dir + [y])[..|dir|] == dir;
  }

  /** d is entered below one of the named children: through that child, or as that child. */
  predicate Through(disk: Disk, dir: Path, names: seq<string>, d: Path) {
    |d| > |dir| && d[..|dir|] == dir && d[|dir|] in names && Entry(disk, d)
  }

  lemma {:induction false} OrderBelow(disk: Disk, listing: Listing, limit: nat, dir: Path, names: seq<string>, d: Path, x: string, y: string)
    requires Scanned(disk, listing, limit) && |dir| <= limit && Through(disk, dir, names, d)
    requires forall n :: n in names ==> dir + [n] in disk
    requires d in listing && Precedes(Sorted(listing[d]), x, y)
    ensures Precedes(Paths(WalkNames(disk, listing, limit, dir, names)), d + [x], d + [y])
    decreases limit - |dir|, |names|
  {
    hide Excluded, Scanned, Precedes;
    var path := dir + [names[0]];
    var inside, rest := WalkSplits(disk, listing, limit, dir, names);
    if d[|dir|] == names[0] {
      EntryAbove(disk, listing, limit, dir, names[0], d);
      if d == path {
        ListedDistinct(disk, listing, limit, path);
        OrderHere(disk, listing, limit, path, Sorted(listing[path]), x, y);
      } else {
        OrderBelow(disk, listing, limit, path, Sorted(listing[path]), d, x, y);
      }
      PrecedesInside([path], Paths(inside), Paths(rest), d + [x], d + [y]);
    } else {
      assert names == [names[0]] + names[1..];
      OrderBelow(disk, listing, limit, dir, names[1..], d, x, y);
      assert [path] + Paths(inside) + Paths(rest) == ([path] + Paths(inside)) + Paths(rest) + [];
      PrecedesInside([path] + Paths(inside), Paths(rest), [], d + [x], d + [y]);
    }
  }

  lemma EntryAbove(disk: Disk, listing: Listing, limit: nat, dir: Path, name: string, d: Path)
    requires Scanned(disk, listing, limit) && |d| > |dir| && d[..|dir|] == dir && d[|dir|] == name && Entry(disk, d)
    ensures var path := dir + [name];
      && Entry(disk, path) && path in listing && IsDirectory(disk, path)
      && (d != path ==> Through(disk, path, Sorted(listing[path]), d))
  {
    hide Excluded, Scanned;
    var path := dir + [name];
    DeeperThanChild(dir, name, d);
    if d != path {
      ListedAncestor(disk, listing, limit, path, d);
      if Excluded(path) {
        ExclusionDownwardClosed(path, d);
      }
    } else {
      ListedDistinct(disk, listing, limit, path);
    }
  }

  /** In the whole walk, two entries of one kept directory come in the order of its sorted names. */
  lemma OrderInWalk(disk: Disk, listing: Listing, limit: nat, d: Path, x: string, y: string)
    requires Scanned(disk, listing, limit) && IsDirectory(disk, d) && !Excluded(d)
    requires d in listing && Precedes(Sorted(listing[d]), x, y)
    ensures Precedes(Paths(Walk(disk, listing, limit)), d + [x], d + [y])
  {
    hide Excluded, Scanned, Precedes;
    RootFacts(disk, listing, limit);
    ListedDistinct(disk, listing, limit, []);
    if d == [] {
      OrderHere(disk, listing, limit, [], Sorted(listing[[]]), x, y);
    } else {
      ListedAncestorOfRoot(disk, listing, limit, d);
      OrderBelow(disk, listing, limit, [], Sorted(listing[[]]), d, x, y);
    }
  }

  lemma ListedAncestorOfRoot(disk: Disk, listing: Listing, limit: nat, d: Path)
    requires Scanned(disk, listing, limit) && d != [] && Entry(disk, d)
    ensures [] in listing && Through(disk, [], Sorted(listing[[]]), d)
  {
    hide Excluded;
    AncestorsPresent(disk, limit, d, 1);
    assert IsDirectory(disk, []);
    assert ListsOne(disk, listing[[]], []);
    assert d[..1] == [] + [d[0]] && d[..0] == [];
  }

  // ---------------------------------------------------------------------------
  // Rivals can always be listed the other way round
  // ---------------------------------------------------------------------------

  /** `names` with y moved to the front. */
  function WithFirst(names: seq<string>, y: string): (r: seq<string>)
    requires y in names
    ensures forall n :: n in r <==> n in names
  {
    [y] + Omit(names, y)
  }

  function Omit(names: seq<string>, y: string): (r: seq<string>)
    ensures forall n :: n in r <==> n in names && n != y
  {
    if names == [] then []
    else
      assert names == [names[0]] + names[1..];
      (if names[0] == y then [] else [names[0]]) + Omit(names[1..], y)
  }

  lemma {:induction false} OmitDistinct(names: seq<string>, y: string)
    requires Distinct(names)
    ensures Distinct(Omit(names, y))
  {
    if names != [] {
      HeadNotInTail(names);
      OmitDistinct(names[1..], y);
    }
  }

  lemma WithFirstDistinct(names: seq<string>, y: string)
    requires Distinct(names) && y in names
    ensures Distinct(WithFirst(names, y))
  {
    OmitDistinct(names, y);
  }

  /** A name keeps its place before the names inserted after it that agree with it up to case. */
  lemma {:induction false} InsertKeepsOrder(names: seq<string>, name: string, x: string, y: string)
    requires Precedes(names, x, y)
    ensures Precedes(InsertName(names, name), x, y)
  {
    hide Fold;
    var i, j :| 0 <= i < j < |names| && names[i] == x && names[j] == y;
    if Before(Fold(name), Fold(names[|names| - 1])) {
      var n := |names| - 1;
      var front := InsertName(names[..n], name);
      if j < n {
        assert names[..n][i] == x && names[..n][j] == y;
        InsertKeepsOrder(names[..n], name, x, y);
        assert InsertName(names, name) == [] + front + [names[n]];
        PrecedesInside([], front, [names[n]], x, y);
      } else {
        assert names[..n][i] == x;
        assert x in front;
        var k :| 0 <= k < |front| && front[k] == x;
        assert InsertName(names, name)[k] == x && InsertName(names, name)[|front|] == y;
      }
    } else {
      assert InsertName(names, name)[i] == x && InsertName(names, name)[j] == y;
    }
  }

  lemma {:induction false} InsertBehind(names: seq<string>, y: string, x: string)
    requires Ascending(names) && y in names && Fold(x) == Fold(y)
    ensures Precedes(InsertName(names, x), y, x)
  {
    hide Fold;
    var n := |names| - 1;
    var i :| 0 <= i < |names| && names[i] == y;
    if Before(Fold(x), Fold(names[n])) {
      BeforeTotal(Fold(x), Fold(y));
      assert i < n;
      assert names[..n][i] == y;
      assert Ascending(names[..n]);
      InsertBehind(names[..n], y, x);
      assert InsertName(names, x) == [] + InsertName(names[..n], x) + [names[n]];
      PrecedesInside([], InsertName(names[..n], x), [names[n]], y, x);
    } else {
      assert InsertName(names, x)[i] == y && InsertName(names, x)[|names|] == x;
    }
  }

  /** The sort is stable: whichever of two rivals is listed first comes first. */
  lemma {:induction false} SortStable(names: seq<string>, y: string, x: string)
    requires Distinct(names) && names != [] && names[0] == y && x in names && x != y && Fold(x) == Fold(y)
    ensures Precedes(Sorted(names), y, x)
  {
    hide Fold, Precedes;
    var n := |names| - 1;
    assert names == names[..n] + [names[n]];
    if names[n] == x {
      assert names[..n][0] == y;
      SortedAscending(names[..n]);
      InsertBehind(Sorted(names[..n]), y, x);
    } else {
      assert x in names[..n];
      SortStable(names[..n], y, x);
      InsertKeepsOrder(Sorted(names[..n]), names[n], y, x);
    }
  }

  lemma RelistedHere(disk: Disk, names: seq<string>, d: Path, y: string)
    requires ListsOne(disk, names, d) && y in names
    ensures ListsOne(disk, WithFirst(names, y), d)
  {
    hide WithFirst;
    WithFirstDistinct(names, y);
  }

  /** Listing one directory in another order, the rest as before. */
  lemma RelistedScanned(disk: Disk, listing: Listing, limit: nat, d: Path, y: string)
    requires Scanned(disk, listing, limit) && IsDirectory(disk, d) && d in listing && y in listing[d]
    ensures Scanned(disk, listing[d := WithFirst(listing[d], y)], limit)
  {
    hide WithFirst, ListsOne, Rooted;
    assert ListsOne(disk, listing[d], d);
    RelistedHere(disk, listing[d], d, y);
    Relisted(disk, listing, d, WithFirst(listing[d], y));
  }

  lemma Relisted(disk: Disk, listing: Listing, d: Path, names: seq<string>)
    requires Lists(disk, listing) && ListsOne(disk, names, d)
    ensures Lists(disk, listing[d := names])
  {
    hide ListsOne, IsDirectory;
    forall e | IsDirectory(disk, e) ensures e in listing[d := names] && ListsOne(disk, listing[d := names][e], e) {
      assert e in listing && ListsOne(disk, listing[e], e);
    }
  }

  /** If two kept siblings agree up to case, the visible part can be listed in two ways that are
      walked differently. */
  lemma TwoWalks(disk: Disk, listing: Listing, limit: nat, d: Path, x: string, y: string) returns (a: Listing, b: Listing)
    requires Scanned(disk, listing, limit) && IsDirectory(disk, d) && !Excluded(d)
    requires d + [x] in disk && d + [y] in disk && x != y && Fold(x) == Fold(y)
    ensures Scanned(disk, a, limit) && Scanned(disk, b, limit) && Walk(disk, a, limit) != Walk(disk, b, limit)
  {
    ListedBoth(disk, listing, limit, d, x, y);
    a := listing[d := WithFirst(listing[d], x)];
    b := listing[d := WithFirst(listing[d], y)];
    hide Excluded, Scanned, Fold, Precedes, Walk;
    RelistedScanned(disk, listing, limit, d, x);
    RelistedScanned(disk, listing, limit, d, y);
    WithFirstDistinct(listing[d], x);
    WithFirstDistinct(listing[d], y);
    SortStable(a[d], x, y);
    SortStable(b[d], y, x);
    OrderInWalk(disk, a, limit, d, x, y);
    OrderInWalk(disk, b, limit, d, y, x);
    PrunedWalkExact(disk, a, limit);
    NotBothWays(Paths(Walk(disk, a, limit)), d + [x], d + [y]);
  }

  lemma ListedBoth(disk: Disk, listing: Listing, limit: nat, d: Path, x: string, y: string)
    requires Scanned(disk, listing, limit) && IsDirectory(disk, d) && d + [x] in disk && d + [y] in disk
    ensures d in listing && x in listing[d] && y in listing[d] && Distinct(listing[d])
  {
    assert ListsOne(disk, listing[d], d);
  }

  /** However the copy is listed, its fingerprint is the source's. */
  ghost predicate AlwaysMatches(source: Disk, ls: Listing, limit: nat, digest: Digest)
    requires Scanned(source, ls, limit)
  {
    forall lt :: Scanned(VisiblePart(source), lt, limit) ==>
      Stream(Walk(VisiblePart(source), lt, limit), digest) == Stream(Walk(source, ls, limit), digest)
  }

  lemma VisibleSound(disk: Disk, listing: Listing, limit: nat)
    requires Scanned(VisiblePart(disk), listing, limit) && Sound(disk)
    ensures forall v :: v in Walk(VisiblePart(disk), listing, limit) ==> Plain(v)
  {
    hide Excluded, Scanned, Walk, PlainPath;
    PrunedWalkExact(VisiblePart(disk), listing, limit);
  }

  /** Visits of one disk: the path determines the rest. */
  ghost predicate VisitsOf(w: seq<Visit>, disk: Disk) {
    forall v :: v in w ==> v.path in disk && v == Visit(v.path, disk[v.path], Excluded(v.path))
  }

  /** Two walks of one disk with the same stream are the same, whatever the digest tells. */
  lemma StreamTellsWalks(a: seq<Visit>, b: seq<Visit>, disk: Disk, digest: Digest)
    requires IsDigest(digest) && Stream(a, digest) == Stream(b, digest)
    requires (forall v :: v in a ==> Plain(v)) && (forall v :: v in b ==> Plain(v))
    requires VisitsOf(a, disk) && VisitsOf(b, disk)
    ensures a == b
  {
    hide Plain, IsDigest, Stream, Excluded;
    StreamUnique(a, b, digest);
    forall i | 0 <= i < |a| ensures a[i] == b[i] {
      assert a[i] in a && b[i] in b;
      assert SameEntry(a[i], b[i], digest);
    }
  }

  lemma WalkVisits(disk: Disk, listing: Listing, limit: nat)
    requires Scanned(disk, listing, limit)
    ensures VisitsOf(Walk(disk, listing, limit), disk)
  {
    hide Excluded, Scanned, Walk;
    PrunedWalkExact(disk, listing, limit);
  }

  /** A clone is certain to match its source exactly when the siblings it keeps differ up to case. */
  lemma CloneMatchesExactly(source: Disk, ls: Listing, limit: nat, digest: Digest)
    requires Scanned(source, ls, limit) && Sound(source) && IsDigest(digest)
    ensures AlwaysMatches(source, ls, limit, digest) <==> SiblingsDiffer(source)
  {
    hide Excluded, Scanned, Walk, Stream, VisiblePart, Sound, IsDigest, VisibleListing, FileCount, TotalBytes, ExcludedCount,
      Rivals, Plain, VisitsOf;
    if SiblingsDiffer(source) {
      forall lt | Scanned(VisiblePart(source), lt, limit)
        ensures Stream(Walk(VisiblePart(source), lt, limit), digest) == Stream(Walk(source, ls, limit), digest)
      {
        CloneFaithful(source, ls, VisiblePart(source), lt, limit, digest);
      }
    } else {
      var p, q :| p in source && q in source && !Excluded(p) && !Excluded(q) && Rivals(p, q) && p != q;
      RivalsFound(source, ls, limit, p, q);
      var d, x, y := p[..|p| - 1], p[|p| - 1], q[|q| - 1];
      VisibleScanned(source, ls, limit);
      var a, b := TwoWalks(VisiblePart(source), VisibleListing(source, ls), limit, d, x, y);
      if Stream(Walk(VisiblePart(source), a, limit), digest) == Stream(Walk(VisiblePart(source), b, limit), digest) {
        VisibleSound(source, a, limit);
        VisibleSound(source, b, limit);
        WalkVisits(VisiblePart(source), a, limit);
        WalkVisits(VisiblePart(source), b, limit);
        StreamTellsWalks(Walk(VisiblePart(source), a, limit), Walk(VisiblePart(source), b, limit), VisiblePart(source), digest);
      }
    }
  }

  lemma RivalsFound(source: Disk, ls: Listing, limit: nat, p: Path, q: Path)
    requires Scanned(source, ls, limit) && p in source && q in source && !Excluded(p) && !Excluded(q) && Rivals(p, q) && p != q
    ensures |p| > 0 && |q| > 0
    ensures var d, x, y := p[..|p| - 1], p[|p| - 1], q[|q| - 1];
      && IsDirectory(VisiblePart(source), d) && !Excluded(d)
      && d + [x] in VisiblePart(source) && d + [y] in VisiblePart(source) && x != y && Fold(x) == Fold(y)
  {
    hide Excluded, Fold, Scanned;
    HasParent(source, ls, limit, p);
    NotExcludedParent(p);
    var d, x, y := p[..|p| - 1], p[|p| - 1], q[|q| - 1];
    LastName(p);
    LastName(q);
  }

  lemma HasParent(disk: Disk, listing: Listing, limit: nat, p: Path)
    requires Scanned(disk, listing, limit) && p in disk
    ensures p != [] && IsDirectory(disk, p[..|p| - 1])
  {
    assert InDirectory(disk, limit, p);
  }

  lemma LastName(p: Path)
    requires p != []
    ensures p == p[..|p| - 1] + [p[|p| - 1]]
  {
  }
}
