/** The profile directory tree: which paths a clone leaves out, and the sorted walk that prunes
    them. A disk maps every path below the root to what is there; a listing gives, for every
    directory, its names in whatever order the operating system returns them. */
module ProfileTree {
  import opened Prelude

  /** Stands for bytes; file names stand for their UTF-8 encodings. */
  type Bytes = seq<char>

  type Path = seq<string>

  datatype Item = Directory | File(content: Bytes, mtime: nat) | Link | Special

  type Disk = map<Path, Item>

  type Listing = map<Path, seq<string>>

  datatype Visit = Visit(path: Path, item: Item, excluded: bool)

  // ---------------------------------------------------------------------------
  // Exclusion
  // ---------------------------------------------------------------------------

  const EXCLUDED_NAMES: set<string> := {
    "account web data", "account web data-journal", "affiliation database", "affiliation database-journal",
    "archived history", "autofillstrike database", "bookmarks", "bookmarks.bak", "commerce_subscription_db",
    "current session", "current tabs", "discounts_db", "download service", "extension cookies",
    "extension cookies-journal", "favicons", "favicons-journal", "history", "history-journal", "last session",
    "last tabs", "login data", "login data for account", "login data for account-journal", "login data-journal",
    "network action predictor", "network action predictor-journal", "parcel_tracking_db", "secure preferences",
    "shortcuts", "shortcuts-journal", "site characteristics database", "top sites", "top sites-journal",
    "visited links", "web data", "web data for account", "web data for account-journal", "web data-journal"}

  const EXCLUDED_PREFIXES: set<string> := {
    "autofillstrikedatabase", "cache", "code cache", "dawngraphitecache", "dawnwebgpucache", "download service",
    "extension rules", "extension scripts", "extension state", "extensions", "gpucache",
    "local extension settings", "managed extension settings", "segmentation platform", "sessions", "sync data",
    "sync extension settings", "web applications"}

  const EXCLUDED_NETWORK_NAMES: set<string> := {
    "network persistent state", "reporting and nel", "reporting and nel-journal", "transportsecurity"}

  function FoldChar(c: char): char {
    if 'A' <= c <= 'Z' then c - 'A' + 'a' else c
  }

  /** Case folding, for ASCII letters. */
  function Fold(name: string): (r: string)
    ensures |r| == |name|
  {
    seq(|name|, i requires 0 <= i < |name| => FoldChar(name[i]))
  }

  predicate ExcludedName(child: string) {
    child in EXCLUDED_NAMES || child in EXCLUDED_PREFIXES
  }

  predicate ExcludedNetworkName(name: string) {
    name in EXCLUDED_NETWORK_NAMES
  }

  predicate Excluded(path: Path) {
    if path == [] then false
    else if Fold(path[0]) == "local state" then |path| != 1
    else if Fold(path[0]) != "default" then true
    else if |path| == 1 then false
    else if Fold(path[1]) == "network" && |path| >= 3 && ExcludedNetworkName(Fold(path[2])) then true
    else ExcludedName(Fold(path[1]))
  }

  /** Everything below an excluded path is excluded. */
  lemma ExclusionDownwardClosed(path: Path, below: Path)
    requires Excluded(path) && path <= below
    ensures Excluded(below)
  {
    hide Fold, ExcludedName, ExcludedNetworkName;
    assert forall i :: 0 <= i < |path| ==> below[i] == path[i];
  }

  // ---------------------------------------------------------------------------
  // Sorting siblings by folded name
  // ---------------------------------------------------------------------------

  /** Strictly earlier in dictionary order. */
  predicate Before(a: string, b: string) {
    if b == "" then false
    else if a == "" then true
    else if a[0] != b[0] then a[0] < b[0]
    else Before(a[1..], b[1..])
  }

  lemma {:induction false} BeforeTotal(a: string, b: string)
    ensures !Before(a, a)
    ensures a != b ==> (Before(a, b) <==> !Before(b, a))
  {
    if a != "" {
      BeforeTotal(a[1..], if b != "" then b[1..] else "");
      if b != "" && a[0] == b[0] && a[1..] == b[1..] {
        assert a == [a[0]] + a[1..] && b == [b[0]] + b[1..];
      }
    }
  }

  lemma {:induction false} BeforeTransitive(a: string, b: string, c: string)
    requires !Before(b, a) && !Before(c, b)
    ensures !Before(c, a)
  {
    if a != "" && b != "" && c != "" && a[0] == b[0] == c[0] {
      BeforeTransitive(a[1..], b[1..], c[1..]);
    }
  }

  /** The stable sort's insertion: behind every name whose folded form is not later. */
  function InsertName(names: seq<string>, name: string): (r: seq<string>)
    ensures |r| == |names| + 1
    ensures forall x :: x in r <==> x in names || x == name
  {
    if names == [] || !Before(Fold(name), Fold(names[|names| - 1])) then names + [name]
    else
      assert names == names[..|names| - 1] + [names[|names| - 1]];
      InsertName(names[..|names| - 1], name) + [names[|names| - 1]]
  }

  function Sorted(names: seq<string>): (r: seq<string>)
    ensures |r| == |names|
    ensures forall x :: x in r <==> x in names
  {
    if names == [] then []
    else
      assert names == names[..|names| - 1] + [names[|names| - 1]];
      InsertName(Sorted(names[..|names| - 1]), names[|names| - 1])
  }

  ghost predicate Ascending(names: seq<string>) {
    forall i, j :: 0 <= i < j < |names| ==> !Before(Fold(names[j]), Fold(names[i]))
  }

  lemma {:induction false} InsertAscending(names: seq<string>, name: string)
    requires Ascending(names)
    ensures Ascending(InsertName(names, name))
  {
    hide Fold, Before;
    if names == [] {
    } else if !Before(Fold(name), Fold(names[|names| - 1])) {
      forall i | 0 <= i < |names| ensures !Before(Fold(name), Fold(names[i])) {
        if i < |names| - 1 {
          BeforeTransitive(Fold(names[i]), Fold(names[|names| - 1]), Fold(name));
        }
      }
    } else {
      var n := |names| - 1;
      InsertAscending(names[..n], name);
      var front := InsertName(names[..n], name);
      forall i | 0 <= i < |front| ensures !Before(Fold(names[n]), Fold(front[i])) {
        if front[i] == name {
          BeforeTotal(Fold(name), Fold(names[n]));
        } else {
          assert front[i] in names[..n];
        }
      }
    }
  }

  lemma {:induction false} SortedAscending(names: seq<string>)
    ensures Ascending(Sorted(names))
  {
    if names != [] {
      SortedAscending(names[..|names| - 1]);
      InsertAscending(Sorted(names[..|names| - 1]), names[|names| - 1]);
    }
  }

  lemma {:induction false} InsertDistinct(names: seq<string>, name: string)
    requires Distinct(names) && name !in names
    ensures Distinct(InsertName(names, name))
  {
    if names != [] && Before(Fold(name), Fold(names[|names| - 1])) {
      var n := |names| - 1;
      assert names[n] !in names[..n];
      InsertDistinct(names[..n], name);
    }
  }

  lemma {:induction false} SortedDistinct(names: seq<string>)
    requires Distinct(names)
    ensures Distinct(Sorted(names))
  {
    if names != [] {
      var n := |names| - 1;
      assert names[n] !in names[..n];
      SortedDistinct(names[..n]);
      InsertDistinct(Sorted(names[..n]), names[n]);
    }
  }

  /** No two of the names agree up to case. */
  ghost predicate FoldDistinct(names: set<string>) {
    forall a, b :: a in names && b in names && Fold(a) == Fold(b) ==> a == b
  }

  /** Names that differ up to case can be sorted in one way only. */
  lemma {:induction false} SortUnique(a: seq<string>, b: seq<string>)
    requires Ascending(a) && Ascending(b) && Distinct(a) && Distinct(b)
    requires Elements(a) == Elements(b) && FoldDistinct(Elements(a))
    ensures a == b
  {
    hide Fold, Before;
    if a == [] {
      if b != [] {
        NonEmptyElements(b);
      }
    } else if b == [] {
      NonEmptyElements(a);
    } else {
      SameLast(a, b);
      var m, n := |a| - 1, |b| - 1;
      assert Elements(a[..m]) == Elements(a) - {a[m]} by {
        AllButLast(a);
      }
      assert Elements(b[..n]) == Elements(b) - {b[n]} by {
        AllButLast(b);
      }
      SortUnique(a[..m], b[..n]);
      assert a == a[..m] + [a[m]] && b == b[..n] + [b[n]];
    }
  }

  lemma NonEmptyElements(a: seq<string>)
    requires a != []
    ensures Elements(a) != {}
  {
    assert a[0] in Elements(a);
  }

  lemma AllButLast(a: seq<string>)
    requires a != [] && Distinct(a)
    ensures Elements(a[..|a| - 1]) == Elements(a) - {a[|a| - 1]}
  {
    assert a == a[..|a| - 1] + [a[|a| - 1]];
    assert a[|a| - 1] !in a[..|a| - 1];
  }

  lemma SameLast(a: seq<string>, b: seq<string>)
    requires a != [] && b != [] && Ascending(a) && Ascending(b)
    requires Elements(a) == Elements(b) && FoldDistinct(Elements(a))
    ensures a[|a| - 1] == b[|b| - 1]
  {
    hide Fold, Before;
    var x, y := a[|a| - 1], b[|b| - 1];
    assert x in Elements(b) && y in Elements(a);
    var i :| 0 <= i < |b| && b[i] == x;
    var j :| 0 <= j < |a| && a[j] == y;
    BeforeTotal(Fold(x), Fold(y));
  }

  // ---------------------------------------------------------------------------
  // The walk
  // ---------------------------------------------------------------------------

  predicate IsDirectory(disk: Disk, path: Path) {
    path == [] || (path in disk && disk[path].Directory?)
  }

  /** Every entry lies in a directory, no path is longer than `limit`. */
  ghost predicate Rooted(disk: Disk, limit: nat) {
    forall p :: p in disk ==> InDirectory(disk, limit, p)
  }

  predicate InDirectory(disk: Disk, limit: nat, p: Path) {
    0 < |p| <= limit && IsDirectory(disk, p[..|p| - 1])
  }

  /** The listing names exactly the entries of every directory, each once. */
  ghost predicate Lists(disk: Disk, listing: Listing) {
    forall d :: IsDirectory(disk, d) ==> d in listing && ListsOne(disk, listing[d], d)
  }

  ghost predicate ListsOne(disk: Disk, names: seq<string>, d: Path) {
    Distinct(names) && forall n :: n in names <==> d + [n] in disk
  }

  ghost predicate Scanned(disk: Disk, listing: Listing, limit: nat) {
    Rooted(disk, limit) && Lists(disk, listing)
  }

  lemma ChildFacts(disk: Disk, listing: Listing, limit: nat, dir: Path, name: string)
    requires Scanned(disk, listing, limit) && dir + [name] in disk
    ensures |dir| < limit
    ensures disk[dir + [name]].Directory? ==>
      dir + [name] in listing && forall n :: n in Sorted(listing[dir + [name]]) ==> dir + [name] + [n] in disk
  {
    assert InDirectory(disk, limit, dir + [name]);
    if disk[dir + [name]].Directory? {
      assert IsDirectory(disk, dir + [name]);
      assert ListsOne(disk, listing[dir + [name]], dir + [name]);
    }
  }

  /** Visits the named entries of `dir`; directories that are not excluded are entered. */
  function WalkNames(disk: Disk, listing: Listing, limit: nat, dir: Path, names: seq<string>): seq<Visit>
    requires Scanned(disk, listing, limit) && |dir| <= limit
    requires forall n :: n in names ==> dir + [n] in disk
    decreases limit - |dir|, |names|
  {
    if names == [] then []
    else
      var path := dir + [names[0]];
      var item := disk[path];
      ChildFacts(disk, listing, limit, dir, names[0]);
      [Visit(path, item, Excluded(path))]
      + (if item.Directory? && !Excluded(path) then WalkNames(disk, listing, limit, path, Sorted(listing[path])) else [])
      + WalkNames(disk, listing, limit, dir, names[1..])
  }

  function Walk(disk: Disk, listing: Listing, limit: nat): seq<Visit>
    requires Scanned(disk, listing, limit)
  {
    RootFacts(disk, listing, limit);
    WalkNames(disk, listing, limit, [], Sorted(listing[[]]))
  }

  lemma RootFacts(disk: Disk, listing: Listing, limit: nat)
    requires Scanned(disk, listing, limit)
    ensures [] in listing && forall n :: n in Sorted(listing[[]]) ==> [] + [n] in disk
  {
    assert IsDirectory(disk, []);
    assert ListsOne(disk, listing[[]], []);
  }

  function Paths(w: seq<Visit>): (r: seq<Path>)
    ensures |r| == |w| && forall i :: 0 <= i < |r| ==> r[i] == w[i].path
  {
    seq(|w|, i requires 0 <= i < |w| => w[i].path)
  }

  /** An entry below one of the named children whose own directory is not excluded. */
  predicate Below(disk: Disk, dir: Path, names: seq<string>, p: Path) {
    && p in disk && |p| > |dir| && p[..|dir|] == dir && p[|dir|] in names
    && (|p| > |dir| + 1 ==> !Excluded(p[..|p| - 1]))
  }

  lemma PathsAppend(a: seq<Visit>, b: seq<Visit>)
    ensures Paths(a + b) == Paths(a) + Paths(b)
    ensures forall p :: p in Paths(a + b) <==> p in Paths(a) || p in Paths(b)
  {
  }

  lemma {:induction false} AncestorsPresent(disk: Disk, limit: nat, p: Path, k: nat)
    requires Rooted(disk, limit) && p in disk && 0 < k <= |p|
    ensures p[..k] in disk && (k < |p| ==> disk[p[..k]].Directory?)
    decreases |p| - k
  {
    if k < |p| {
      AncestorsPresent(disk, limit, p, k + 1);
      assert InDirectory(disk, limit, p[..k + 1]);
      assert p[..k + 1][..k] == p[..k];
    } else {
      assert p[..k] == p;
    }
  }

  /** An entry deeper than `path` and below it. */
  predicate Deeper(path: Path, p: Path) {
    |p| > |path| && p[..|path|] == path
  }

  lemma DeeperThanChild(dir: Path, name: string, p: Path)
    ensures Deeper(dir, p) && p[|dir|] == name <==> p == dir + [name] || Deeper(dir + [name], p)
  {
    var path := dir + [name];
    if Deeper(dir, p) && p[|dir|] == name {
      assert p[..|path|] == p[..|dir|] + [p[|dir|]];
      assert |p| == |path| ==> p == p[..|path|];
    }
    if Deeper(path, p) {
      assert p[..|dir|] == p[..|path|][..|dir|] == dir;
      assert p[|dir|] == p[..|path|][|dir|];
    }
  }

  lemma ListedAncestor(disk: Disk, listing: Listing, limit: nat, path: Path, p: Path)
    requires Scanned(disk, listing, limit) && p in disk && Deeper(path, p) && path != []
    ensures path in disk && disk[path].Directory? && path in listing && p[|path|] in Sorted(listing[path])
  {
    AncestorsPresent(disk, limit, p, |path|);
    AncestorsPresent(disk, limit, p, |path| + 1);
    assert p[..|path| + 1] == path + [p[|path|]];
    assert IsDirectory(disk, path);
    assert ListsOne(disk, listing[path], path);
  }

  /** Below a directory's child: the child itself, or below one of the child's own entries. */
  lemma BelowChild(disk: Disk, listing: Listing, limit: nat, dir: Path, name: string, p: Path)
    requires Scanned(disk, listing, limit) && dir + [name] in disk
    ensures var path := dir + [name];
      Below(disk, dir, [name], p) <==>
        p == path || (disk[path].Directory? && !Excluded(path) && path in listing && Below(disk, path, Sorted(listing[path]), p))
  {
    hide Excluded, Scanned;
    var path := dir + [name];
    DeeperThanChild(dir, name, p);
    if p in disk && Deeper(path, p) {
      ListedAncestor(disk, listing, limit, path, p);
      if !Excluded(p[..|p| - 1]) {
        ParentVisible(p, path);
      }
      if |p| == |path| + 1 {
        assert p[..|p| - 1] == path;
      }
    }
  }

  lemma ParentVisible(p: Path, path: Path)
    requires |p| > |path| && p[..|path|] == path && !Excluded(p[..|p| - 1])
    ensures !Excluded(path)
  {
    if Excluded(path) {
      ExclusionDownwardClosed(path, p[..|p| - 1]);
    }
  }

  lemma {:induction false} WalkReaches(disk: Disk, listing: Listing, limit: nat, dir: Path, names: seq<string>, p: Path)
    requires Scanned(disk, listing, limit) && |dir| <= limit
    requires forall n :: n in names ==> dir + [n] in disk
    ensures p in Paths(WalkNames(disk, listing, limit, dir, names)) <==> Below(disk, dir, names, p)
    decreases limit - |dir|, |names|
  {
    hide Excluded, Scanned;
    if names != [] {
      var path := dir + [names[0]];
      ChildFacts(disk, listing, limit, dir, names[0]);
      BelowChild(disk, listing, limit, dir, names[0], p);
      var here := [Visit(path, disk[path], Excluded(path))];
      var inside: seq<Visit> := [];
      if disk[path].Directory? && !Excluded(path) {
        inside := WalkNames(disk, listing, limit, path, Sorted(listing[path]));
        WalkReaches(disk, listing, limit, path, Sorted(listing[path]), p);
      }
      var rest := WalkNames(disk, listing, limit, dir, names[1..]);
      WalkReaches(disk, listing, limit, dir, names[1..], p);
      PathsAppend(here + inside, rest);
      PathsAppend(here, inside);
      assert p in Paths(here) <==> p == path by {
        assert Paths(here) == [path];
      }
      assert names == [names[0]] + names[1..];
      assert Below(disk, dir, names, p) <==> Below(disk, dir, [names[0]], p) || Below(disk, dir, names[1..], p);
    }
  }

  lemma {:induction false} WalkTruthful(disk: Disk, listing: Listing, limit: nat, dir: Path, names: seq<string>)
    requires Scanned(disk, listing, limit) && |dir| <= limit
    requires forall n :: n in names ==> dir + [n] in disk
    ensures forall v :: v in WalkNames(disk, listing, limit, dir, names) ==>
      v.path in disk && v == Visit(v.path, disk[v.path], Excluded(v.path))
    decreases limit - |dir|, |names|
  {
    hide Excluded, Scanned;
    if names != [] {
      var path := dir + [names[0]];
      ChildFacts(disk, listing, limit, dir, names[0]);
      if disk[path].Directory? && !Excluded(path) {
        WalkTruthful(disk, listing, limit, path, Sorted(listing[path]));
      }
      WalkTruthful(disk, listing, limit, dir, names[1..]);
    }
  }

  lemma {:induction false} WalkDistinct(disk: Disk, listing: Listing, limit: nat, dir: Path, names: seq<string>)
    requires Scanned(disk, listing, limit) && |dir| <= limit && Distinct(names)
    requires forall n :: n in names ==> dir + [n] in disk
    ensures Distinct(Paths(WalkNames(disk, listing, limit, dir, names)))
    decreases limit - |dir|, |names|
  {
    hide Excluded, Scanned;
    if names != [] {
      var path := dir + [names[0]];
      ChildFacts(disk, listing, limit, dir, names[0]);
      var here := [Visit(path, disk[path], Excluded(path))];
      var inside: seq<Visit> := [];
      if disk[path].Directory? && !Excluded(path) {
        inside := WalkNames(disk, listing, limit, path, Sorted(listing[path]));
        ListedDistinct(disk, listing, limit, path);
        WalkDistinct(disk, listing, limit, path, Sorted(listing[path]));
      }
      var rest := WalkNames(disk, listing, limit, dir, names[1..]);
      WalkDistinct(disk, listing, limit, dir, names[1..]);
      forall p | p in Paths(inside) ensures p != path && |p| > |dir| && p[|dir|] == names[0] {
        WalkReaches(disk, listing, limit, path, Sorted(listing[path]), p);
        assert p[|dir|] == p[..|path|][|dir|];
      }
      forall p | p in Paths(rest) ensures |p| > |dir| && p[|dir|] != names[0] {
        WalkReaches(disk, listing, limit, dir, names[1..], p);
        HeadNotInTail(names);
      }
      PathsAppend(here + inside, rest);
      PathsAppend(here, inside);
      assert Paths(here) == [path];
      DistinctParts(path, Paths(inside), Paths(rest));
    }
  }

  lemma HeadNotInTail(names: seq<string>)
    requires Distinct(names) && names != []
    ensures names[0] !in names[1..]
  {
  }

  lemma ListedDistinct(disk: Disk, listing: Listing, limit: nat, d: Path)
    requires Scanned(disk, listing, limit) && IsDirectory(disk, d)
    ensures d in listing && Distinct(Sorted(listing[d]))
  {
    assert ListsOne(disk, listing[d], d);
    SortedDistinct(listing[d]);
  }

  lemma DistinctParts(x: Path, a: seq<Path>, b: seq<Path>)
    requires Distinct(a) && Distinct(b) && x !in a && x !in b && forall p :: p in a ==> p !in b
    ensures Distinct([x] + a + b)
  {
    var s := [x] + a + b;
    forall i, j | 0 <= i < j < |s| ensures s[i] != s[j] {
      if j <= |a| {
        assert s[j] == a[j - 1] && a[j - 1] in a;
        assert i > 0 ==> s[i] == a[i - 1];
      } else {
        assert s[j] == b[j - 1 - |a|] && b[j - 1 - |a|] in b;
        assert 0 < i <= |a| ==> s[i] == a[i - 1] && a[i - 1] in a;
        assert i > |a| ==> s[i] == b[i - 1 - |a|];
      }
    }
  }

  /** In a directory that is not excluded. */
  predicate Entered(p: Path) {
    p != [] && !Excluded(p[..|p| - 1])
  }

  /** The pruned walk visits every entry whose directory is not excluded, once each and truthfully;
      what it does not mark as excluded is exactly what is not excluded. */
  lemma PrunedWalkExact(disk: Disk, listing: Listing, limit: nat)
    requires Scanned(disk, listing, limit)
    ensures var w := Walk(disk, listing, limit);
      && Distinct(Paths(w))
      && (forall v :: v in w ==> v.path in disk && v == Visit(v.path, disk[v.path], Excluded(v.path)))
      && (forall p :: p in Paths(w) <==> p in disk && Entered(p))
      && (forall p :: p in disk && !Excluded(p) ==> Visit(p, disk[p], false) in w)
  {
    hide Excluded, Scanned, Sorted, WalkNames;
    RootFacts(disk, listing, limit);
    ListedDistinct(disk, listing, limit, []);
    var names := Sorted(listing[[]]);
    var w := Walk(disk, listing, limit);
    WalkDistinct(disk, listing, limit, [], names);
    WalkTruthful(disk, listing, limit, [], names);
    forall p ensures p in Paths(w) <==> p in disk && Entered(p) {
      WalkReaches(disk, listing, limit, [], names, p);
      BelowRoot(disk, listing, limit, p);
    }
    forall p | p in disk && !Excluded(p) ensures Visit(p, disk[p], false) in w {
      BelowRoot(disk, listing, limit, p);
      NotExcludedParent(p);
      assert p in Paths(w);
      var i :| 0 <= i < |w| && Paths(w)[i] == p;
      assert w[i] in w;
    }
  }

  lemma NotExcludedParent(p: Path)
    requires p != [] && !Excluded(p)
    ensures Entered(p)
  {
    if Excluded(p[..|p| - 1]) {
      ExclusionDownwardClosed(p[..|p| - 1], p);
    }
  }

  lemma BelowRoot(disk: Disk, listing: Listing, limit: nat, p: Path)
    requires Scanned(disk, listing, limit)
    ensures p in disk ==> p != []
    ensures [] in listing && (p in disk ==> (Below(disk, [], Sorted(listing[[]]), p) <==> Entered(p)))
  {
    hide Excluded;
    RootFacts(disk, listing, limit);
    if p in disk {
      assert InDirectory(disk, limit, p);
      AncestorsPresent(disk, limit, p, 1);
      assert ListsOne(disk, listing[[]], []);
      assert p[..1] == [] + [p[0]];
      assert p[..0] == [];
      if |p| == 1 {
        assert p[..|p| - 1] == [];
        RootNotExcluded();
      }
    }
  }

  lemma RootNotExcluded()
    ensures !Excluded([])
  {
  }

  // ---------------------------------------------------------------------------
  // Two disks with the same visible part are walked alike
  // ---------------------------------------------------------------------------

  /** What a clone is to contain. */
  function VisiblePart(disk: Disk): Disk {
    map p | p in disk && !Excluded(p) :: disk[p]
  }

  function Visible(w: seq<Visit>): seq<Visit> {
    if w == [] then [] else (if w[0].excluded then [] else [w[0]]) + Visible(w[1..])
  }

  lemma VisibleNone()
    ensures Visible([]) == []
  {
  }

  lemma VisibleOne(v: Visit)
    ensures Visible([v]) == if v.excluded then [] else [v]
  {
  }

  lemma {:induction false} VisibleAppend(a: seq<Visit>, b: seq<Visit>)
    ensures Visible(a + b) == Visible(a) + Visible(b)
  {
    if a == [] {
      assert a + b == b;
    } else {
      assert (a + b)[1..] == a[1..] + b;
      VisibleAppend(a[1..], b);
    }
  }

  function VisibleNames(dir: Path, names: seq<string>): (r: seq<string>)
    ensures forall n :: n in r <==> n in names && !Excluded(dir + [n])
  {
    if names == [] then []
    else
      assert names == [names[0]] + names[1..];
      (if Excluded(dir + [names[0]]) then [] else [names[0]]) + VisibleNames(dir, names[1..])
  }

  lemma {:induction false} VisibleNamesOrdered(dir: Path, names: seq<string>)
    ensures Ascending(names) ==> Ascending(VisibleNames(dir, names))
    ensures Distinct(names) ==> Distinct(VisibleNames(dir, names))
  {
    hide Excluded, Fold, Before;
    if names != [] {
      VisibleNamesOrdered(dir, names[1..]);
      if Ascending(names) {
        forall n | n in VisibleNames(dir, names[1..]) ensures !Before(Fold(n), Fold(names[0])) {
          var i :| 0 <= i < |names[1..]| && names[1..][i] == n;
          assert names[i + 1] == n;
        }
      }
      if Distinct(names) {
        HeadNotInTail(names);
      }
    }
  }

  /** Entries of one directory that a clone keeps never agree up to case. */
  ghost predicate SiblingsDiffer(disk: Disk) {
    forall p, q :: p in disk && q in disk && !Excluded(p) && !Excluded(q) && Rivals(p, q) ==> p == q
  }

  /** In one directory, with names that agree up to case. */
  predicate Rivals(p: Path, q: Path) {
    |p| == |q| > 0 && p[..|p| - 1] == q[..|q| - 1] && Fold(p[|p| - 1]) == Fold(q[|q| - 1])
  }

  lemma SameNames(source: Disk, ls: Listing, target: Disk, lt: Listing, limit: nat, dir: Path)
    requires Scanned(source, ls, limit) && Scanned(target, lt, limit) && SiblingsDiffer(source)
    requires target == VisiblePart(source) && IsDirectory(source, dir) && !Excluded(dir)
    ensures dir in ls && dir in lt && VisibleNames(dir, Sorted(ls[dir])) == Sorted(lt[dir])
  {
    hide Excluded, Fold;
    assert IsDirectory(target, dir);
    assert ListsOne(source, ls[dir], dir) && ListsOne(target, lt[dir], dir);
    var a, b := VisibleNames(dir, Sorted(ls[dir])), Sorted(lt[dir]);
    SortedAscending(ls[dir]);
    SortedAscending(lt[dir]);
    SortedDistinct(ls[dir]);
    SortedDistinct(lt[dir]);
    VisibleNamesOrdered(dir, Sorted(ls[dir]));
    assert Elements(a) == Elements(b);
    forall x, y | x in Elements(a) && y in Elements(a) && Fold(x) == Fold(y) ensures x == y {
      assert Rivals(dir + [x], dir + [y]);
      assert (dir + [x])[|dir|] == (dir + [y])[|dir|];
    }
    SortUnique(a, b);
  }

  lemma {:induction false} SameVisits(source: Disk, ls: Listing, target: Disk, lt: Listing, limit: nat, dir: Path, names: seq<string>)
    requires Scanned(source, ls, limit) && Scanned(target, lt, limit) && SiblingsDiffer(source) && |dir| <= limit
    requires target == VisiblePart(source)
    requires forall n :: n in names ==> dir + [n] in source
    ensures Visible(WalkNames(source, ls, limit, dir, names)) == WalkNames(target, lt, limit, dir, VisibleNames(dir, names))
    decreases limit - |dir|, |names|
  {
    hide Excluded, Scanned, SiblingsDiffer, Visible, Sorted;
    if names == [] {
      VisibleNone();
    } else {
      var path := dir + [names[0]];
      ChildFacts(source, ls, limit, dir, names[0]);
      var here := [Visit(path, source[path], Excluded(path))];
      var rest := WalkNames(source, ls, limit, dir, names[1..]);
      SameVisits(source, ls, target, lt, limit, dir, names[1..]);
      var inside: seq<Visit> := [];
      if source[path].Directory? && !Excluded(path) {
        inside := WalkNames(source, ls, limit, path, Sorted(ls[path]));
        SameNames(source, ls, target, lt, limit, path);
        SameVisits(source, ls, target, lt, limit, path, Sorted(ls[path]));
      }
      VisibleAppend(here + inside, rest);
      VisibleAppend(here, inside);
      var kept := VisibleNames(dir, names);
      VisibleNone();
      VisibleOne(here[0]);
      if !Excluded(path) {
        assert kept == [names[0]] + VisibleNames(dir, names[1..]);
        assert kept[1..] == VisibleNames(dir, names[1..]);
        assert target[path] == source[path];
      } else {
        assert kept == VisibleNames(dir, names[1..]);
      }
    }
  }

  /** Walking a disk that holds the visible part of another gives the other's visible visits, in
      the same order, whatever order the directories were listed in. */
  lemma SameWalk(source: Disk, ls: Listing, target: Disk, lt: Listing, limit: nat)
    requires Scanned(source, ls, limit) && Scanned(target, lt, limit) && SiblingsDiffer(source)
    requires target == VisiblePart(source)
    ensures Visible(Walk(source, ls, limit)) == Walk(target, lt, limit)
  {
    hide Excluded, Scanned, SiblingsDiffer, WalkNames, Visible;
    RootFacts(source, ls, limit);
    RootNotExcluded();
    SameNames(source, ls, target, lt, limit, []);
    SameVisits(source, ls, target, lt, limit, [], Sorted(ls[[]]));
  }
}
