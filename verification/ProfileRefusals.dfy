/** What a clone leaves out, in which order it takes the rest, and exactly when it is refused before
    anything is copied; said of the profile directory itself. */
module ProfileRefusals {
  import opened Prelude
  import opened TextWords
  import opened ProfileTree
  import opened ProfileClone

  // ---------------------------------------------------------------------------
  // What is left out
  // ---------------------------------------------------------------------------

  /** The same name up to the case of ASCII letters. */
  predicate SameName(a: string, b: string) {
    |a| == |b| && forall i :: 0 <= i < |a| ==> SameLetter(a[i], b[i])
  }

  lemma FoldExactly(a: string, b: string)
    ensures Fold(a) == Fold(b) <==> SameName(a, b)
  {
    forall i | 0 <= i < |a| ensures FoldChar(a[i]) == Lower(a[i]) {
    }
    forall i | 0 <= i < |a| && i < |b| ensures FoldChar(a[i]) == FoldChar(b[i]) <==> SameLetter(a[i], b[i]) {
      LowerExact(a[i], b[i]);
    }
    if Fold(a) == Fold(b) {
      assert forall i :: 0 <= i < |a| ==> FoldChar(a[i]) == Fold(a)[i] == Fold(b)[i] == FoldChar(b[i]);
    }
  }

  /** What is kept: the file named "local state", and of the directory "default" everything but the
      named children and, in its network directory, the named files; all in any case. */
  predicate Kept(path: Path) {
    || path == []
    || (|path| == 1 && Fold(path[0]) == "local state")
    || (Fold(path[0]) == "default"
        && (|path| >= 2 ==> Fold(path[1]) !in EXCLUDED_NAMES && Fold(path[1]) !in EXCLUDED_PREFIXES)
        && (|path| >= 3 && Fold(path[1]) == "network" ==> Fold(path[2]) !in EXCLUDED_NETWORK_NAMES))
  }

  lemma ExcludedExactly(path: Path)
    ensures Excluded(path) <==> !Kept(path)
  {
    hide Fold;
    assert "local state" != "default";
  }

  // ---------------------------------------------------------------------------
  // The order of the walk
  // ---------------------------------------------------------------------------

  /** The texts agree up to k, and there the first ends or has the smaller character. */
  predicate EarlierAt(a: string, b: string, k: nat) {
    k <= |a| && k < |b| && a[..k] == b[..k] && (k == |a| || a[k] < b[k])
  }

  lemma SameStart(a: string, b: string, k: nat)
    requires EarlierAt(a, b, k)
    ensures k > 0 ==> a != "" && a[0] == b[0]
  {
    assert forall i :: 0 <= i < k ==> a[..k][i] == a[i] && b[..k][i] == b[i];
  }

  lemma {:induction false} BeforeExactly(a: string, b: string)
    ensures Before(a, b) <==> exists k: nat :: EarlierAt(a, b, k)
  {
    if a == "" || b == "" || a[0] != b[0] {
      if Before(a, b) {
        assert EarlierAt(a, b, 0);
      }
      forall k: nat | EarlierAt(a, b, k) ensures k == 0 || (a != "" && a[0] == b[0]) {
        SameStart(a, b, k);
      }
    } else {
      BeforeExactly(a[1..], b[1..]);
      if k: nat :| EarlierAt(a[1..], b[1..], k) {
        assert a[..k + 1] == [a[0]] + a[1..][..k] && b[..k + 1] == [b[0]] + b[1..][..k];
        assert EarlierAt(a, b, k + 1);
      }
      if k: nat :| EarlierAt(a, b, k) {
        assert a[1..][..k - 1] == a[..k][1..] && b[1..][..k - 1] == b[..k][1..];
        assert EarlierAt(a[1..], b[1..], k - 1);
      }
    }
  }

  // ---------------------------------------------------------------------------
  // Refusals
  // ---------------------------------------------------------------------------

  /** Nothing but files and directories lies in a directory that is kept. */
  ghost predicate OnlyPlainEntries(source: Disk) {
    forall p :: p in source && Entered(p) ==> source[p].File? || source[p].Directory?
  }

  /** No file that is kept was written to while it was hashed. */
  ghost predicate NothingChanged(source: Disk, changed: set<Path>) {
    forall p :: p in source && !Excluded(p) && source[p].File? ==> p !in changed
  }

  lemma FailsExactly(source: Disk, listing: Listing, limit: nat, changed: set<Path>)
    requires Scanned(source, listing, limit)
    ensures FirstFailure(Walk(source, listing, limit), changed).None?
      <==> OnlyPlainEntries(source) && NothingChanged(source, changed)
  {
    hide Excluded, Scanned, Walk, FirstFailure, Entered;
    var w := Walk(source, listing, limit);
    PrunedWalkExact(source, listing, limit);
    FailureOf(w, changed);
    if OnlyPlainEntries(source) && NothingChanged(source, changed) {
      forall v | v in w ensures Failure(v, changed).None? {
        VisitedPath(w, v);
      }
    }
    if FirstFailure(w, changed).None? {
      forall p | p in source && Entered(p) ensures source[p].File? || source[p].Directory? {
        var i :| 0 <= i < |w| && Paths(w)[i] == p;
        assert w[i] in w && Failure(w[i], changed).None?;
      }
      forall p | p in source && !Excluded(p) && source[p].File? ensures p !in changed {
        assert Failure(Visit(p, source[p], false), changed).None?;
      }
    }
  }

  lemma VisitedPath(w: seq<Visit>, v: Visit)
    requires v in w
    ensures v.path in Paths(w)
  {
    var i :| 0 <= i < |w| && w[i] == v;
    assert Paths(w)[i] == v.path;
  }

  /** A clone goes ahead exactly if the source holds nothing but files and directories where it is
      walked, no kept file was written to meanwhile, the fingerprint is the expected one, the target is
      empty, and there is room for the kept files and the larger of 64 MiB and a twentieth of them. */
  lemma RefusedExactly(source: Disk, listing: Listing, limit: nat, changed: set<Path>, digest: Digest, expected: Bytes,
                       target: Disk, free: nat)
    requires Scanned(source, listing, limit)
    ensures var w := Walk(source, listing, limit);
      Refusal(w, changed, digest, expected, target, free).None? <==>
        && OnlyPlainEntries(source) && NothingChanged(source, changed)
        && Stream(w, digest) == expected && target == map[]
        && free >= TotalBytes(w) + 67108864 && free >= TotalBytes(w) + TotalBytes(w) / 20
  {
    hide Excluded, Scanned, Walk, FirstFailure, Stream, TotalBytes, OnlyPlainEntries, NothingChanged;
    FailsExactly(source, listing, limit, changed);
  }
}
