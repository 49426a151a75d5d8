/** Exactly which archives pass inspection, whoever made them: every member plain and safely named, and
    the manifest an account of just these members, their sizes and their digests. */
module BundleInspection {
  import opened Prelude
  import opened ProfileTree
  import opened ProfileClone
  import opened BundleArchive

  // ---------------------------------------------------------------------------
  // Names
  // ---------------------------------------------------------------------------

  /** A name is split at each of its slashes and nowhere else. */
  lemma {:induction false} SplitExactly(text: string)
    ensures Posix(Components(text)) == text
    ensures forall i :: 0 <= i < |Components(text)| ==> '/' !in Components(text)[i]
  {
    hide Posix;
    if text == "" {
      PosixOne("");
    } else {
      var n := |text| - 1;
      SplitExactly(text[..n]);
      PosixAddChar(Components(text[..n]), text[n]);
      assert text == text[..n] + [text[n]];
    }
  }

  lemma PosixAddChar(front: Path, c: char)
    requires front != []
    ensures Posix(AddChar(front, c)) == Posix(front) + [c]
  {
    hide Posix;
    var n := |front| - 1;
    var longer := AddChar(front, c);
    PosixStep(longer);
    PosixStep(front);
    if c == '/' {
      assert longer[..|longer| - 1] == front;
    } else {
      assert longer[..n] == front[..n];
    }
  }

  /** Of the components of a name, the empty ones and single dots are skipped, and no other. */
  lemma {:induction false} PartsExactly(a: Path, x: string)
    ensures Parts([]) == [] && Parts([x]) == (if x == "" || x == "." then [] else [x])
    ensures Parts(a + [x]) == Parts(a) + Parts([x])
  {
    assert [x][..0] == [];
    assert (a + [x])[..|a|] == a;
  }

  function UpperCase(s: string): (r: string)
    ensures |r| == |s| && forall i :: 0 <= i < |s| ==> r[i] == if 'a' <= s[i] <= 'z' then s[i] - 'a' + 'A' else s[i]
  {
    seq(|s|, i requires 0 <= i < |s| => if 'a' <= s[i] <= 'z' then s[i] - 'a' + 'A' else s[i])
  }

  /** The first `k` characters are what comes before the first dot. */
  predicate StemEnds(component: string, k: nat) {
    k <= |component| && '.' !in component[..k] && (k == |component| || component[k] == '.')
  }

  lemma {:induction false} StemExactly(component: string) returns (k: nat)
    ensures StemEnds(component, k) && Stem(component) == UpperCase(component[..k])
  {
    if component == "" || component[0] == '.' {
      k := 0;
    } else {
      k := StemExactly(component[1..]);
      assert component[..k + 1] == [component[0]] + component[1..][..k];
      k := k + 1;
    }
  }

  lemma StemEndsOnce(component: string, j: nat, k: nat)
    requires StemEnds(component, j) && StemEnds(component, k)
    ensures j == k
  {
    assert forall i :: 0 <= i < j ==> component[..j][i] == component[i];
    assert forall i :: 0 <= i < k ==> component[..k][i] == component[i];
  }

  /** A component every supported file system takes: no wildcard or separator, no dot or blank at its
      end, and no device name before its first dot. */
  ghost predicate PortableName(component: string) {
    && (forall c :: c in component ==> c !in "<>:\"|?*")
    && (component != "" ==> component[|component| - 1] != '.' && component[|component| - 1] != ' ')
    && (forall k: nat :: StemEnds(component, k) ==> UpperCase(component[..k]) !in RESERVED)
  }

  lemma PortableExactly(component: string)
    ensures UnsafeComponent(component) <==> !PortableName(component)
  {
    hide UpperCase, Stem;
    var k := StemExactly(component);
    forall j: nat | StemEnds(component, j) ensures j == k {
      StemEndsOnce(component, j, k);
    }
    assert ContainsAny(component, "<>:\"|?*") <==> exists i :: 0 <= i < |component| && component[i] in "<>:\"|?*";
  }

  /** The member name leads to the path, which stays inside the profile and is portable. */
  ghost predicate SafeName(name: string, path: Path) {
    && "profile/" <= name && |name| <= 4096 && '\\' !in name && NUL !in name
    && Parts(Components(name)) == ["profile"] + path
    && path != [] && forall c :: c in path ==> c != ".." && PortableName(c)
  }

  lemma {:induction false} ComponentsAfter(x: string, rest: string)
    requires '/' !in x
    ensures Components(x + "/" + rest) == [x] + Components(rest)
  {
    hide Components;
    if rest == "" {
      assert x + "/" + rest == x + "/" && "" + x == x;
      ComponentsSlash(x);
      ComponentsExtend("", x);
      NoComponents();
    } else {
      var n := |rest| - 1;
      ComponentsAfter(x, rest[..n]);
      var whole := x + "/" + rest;
      assert whole[..|whole| - 1] == x + "/" + rest[..n];
      ComponentsStep(whole);
      ComponentsStep(rest);
      AddCharAfter(x, Components(rest[..n]), rest[n]);
    }
  }

  lemma ComponentsStep(name: string)
    requires name != ""
    ensures Components(name) == AddChar(Components(name[..|name| - 1]), name[|name| - 1])
  {
  }

  lemma AddCharAfter(x: string, front: Path, c: char)
    requires front != []
    ensures AddChar([x] + front, c) == [x] + AddChar(front, c)
  {
    var n := |front| - 1;
    assert ([x] + front)[..n + 1] == [x] + front[..n];
  }

  lemma {:induction false} PartsAfter(x: string, rest: Path)
    requires x != "" && x != "."
    ensures Parts([x] + rest) == [x] + Parts(rest)
  {
    if rest == [] {
      assert [x] + rest == [x];
      PartsExactly([], x);
    } else {
      var n := |rest| - 1;
      PartsAfter(x, rest[..n]);
      assert ([x] + rest)[..n + 1] == [x] + rest[..n];
    }
  }

  lemma FirstPart(name: string)
    requires "profile/" <= name
    ensures Parts(Components(name)) != [] && Parts(Components(name))[0] == "profile"
  {
    hide Components, Parts;
    assert name == "profile" + "/" + name[8..];
    ComponentsAfter("profile", name[8..]);
    PartsAfter("profile", Components(name[8..]));
  }

  /** A member name is accepted, for one path, exactly if it is safe for that path. */
  lemma ValidatesExactly(name: string, path: Path)
    ensures ValidateName(name) == Ok(path) <==> SafeName(name, path)
  {
    hide Components, Parts, PortableName, UnsafeComponent;
    assert Prefixed(name) <==> "profile/" <= name;
    if "profile/" <= name {
      FirstPart(name);
      var parts := Parts(Components(name));
      assert parts == ["profile"] + parts[1..] && (["profile"] + path)[1..] == path;
      assert ".." in parts <==> ".." in parts[1..];
      forall i | 0 <= i < |parts[1..]| ensures UnsafeComponent(parts[1..][i]) <==> !PortableName(parts[1..][i]) {
        PortableExactly(parts[1..][i]);
      }
      PortablePath(parts[1..]);
    }
  }

  lemma PortablePath(path: Path)
    requires forall i :: 0 <= i < |path| ==> (UnsafeComponent(path[i]) <==> !PortableName(path[i]))
    ensures !HasUnsafe(path) <==> forall c :: c in path ==> PortableName(c)
  {
    hide PortableName, UnsafeComponent;
    assert HasUnsafe(path) <==> exists i :: 0 <= i < |path| && UnsafeComponent(path[i]);
    if forall c :: c in path ==> PortableName(c) {
      assert forall i :: 0 <= i < |path| ==> path[i] in path;
    }
  }

  // ---------------------------------------------------------------------------
  // Members and entries
  // ---------------------------------------------------------------------------

  /** A member that is neither encrypted, compressed, a link nor a directory; the manifest keeps to its
      own size, every other member has a safe name. */
  ghost predicate MemberFine(m: Member) {
    && !m.encrypted && m.stored && !m.symlink && !IsFolder(m.name)
    && (if m.name == MANIFEST_NAME then m.size <= MANIFEST_MAX_BYTES else exists path :: SafeName(m.name, path))
  }

  lemma MemberErrorExactly(m: Member)
    ensures MemberFine(m) <==> MemberError(m).None? && (m.name == MANIFEST_NAME ==> m.size <= MANIFEST_MAX_BYTES)
  {
    hide ValidateName, SafeName;
    if ValidateName(m.name).Ok? {
      ValidatesExactly(m.name, ValidateName(m.name).value);
    }
    if path :| SafeName(m.name, path) {
      ValidatesExactly(m.name, path);
    }
  }

  lemma {:induction false} PayloadGrows(a: Archive, k: nat)
    requires k <= |a|
    ensures PayloadBytes(a[..k]) <= PayloadBytes(a)
  {
    if k < |a| {
      PayloadGrows(a[..|a| - 1], k);
      assert a[..|a| - 1][..k] == a[..k];
    } else {
      assert a[..k] == a;
    }
  }

  /** No member is wrong exactly if each is fine and together they are not too large. */
  lemma {:induction false} MembersExactly(a: Archive)
    ensures MembersError(a).None? <==> (forall m :: m in a ==> MemberFine(m)) && PayloadBytes(a) <= MAX_PLAINTEXT_BYTES
  {
    hide MemberFine, MemberError;
    if a != [] {
      var n := |a| - 1;
      MembersExactly(a[..n]);
      MemberErrorExactly(a[n]);
      assert a == a[..n] + [a[n]];
    }
  }

  lemma {:induction false} EntriesExactly(entries: seq<Entry>, a: Archive, c: Codec)
    ensures EntriesError(entries, a, c).None? <==> forall e :: e in entries ==> EntryError(e, a, c).None?
  {
    hide EntryError;
    if entries != [] {
      var n := |entries| - 1;
      EntriesExactly(entries[..n], a, c);
      assert entries == entries[..n] + [entries[n]];
    }
  }

  lemma {:induction false} FindExactly(a: Archive, m: Member)
    requires Unrepeated(NameList(a))
    ensures FindMember(a, m.name) == Some(m) <==> m in a
  {
    if a != [] {
      var n := |a| - 1;
      assert NameList(a)[..n] == NameList(a[..n]);
      forall i, j | 0 <= i < j < n ensures NameList(a[..n])[i] != NameList(a[..n])[j] {
        assert NameList(a)[i] != NameList(a)[j];
      }
      FindExactly(a[..n], m);
      assert a == a[..n] + [a[n]];
      if m in a[..n] {
        var k :| 0 <= k < n && a[k] == m;
        assert NameList(a)[k] != NameList(a)[n];
      }
    }
  }

  /** The member is what the entry says: under its name, of its size and digest. */
  predicate Accounts(e: Entry, m: Member, c: Codec) {
    m.name == e.path && m.size == e.size && |m.content| == e.size && c.digest(m.content) == e.digest
  }

  /** The entry accounts for a member of the archive, at a safe path that belongs to a bundle. */
  ghost predicate EntryFine(e: Entry, a: Archive, c: Codec) {
    && (exists path :: SafeName(e.path, path) && !Excluded(path))
    && exists m :: m in a && Accounts(e, m, c)
  }

  lemma FindAny(a: Archive, name: string)
    ensures FindMember(a, name).Some? ==> FindMember(a, name).value in a && FindMember(a, name).value.name == name
  {
  }

  lemma EntryErrorExactly(e: Entry, a: Archive, c: Codec)
    requires Unrepeated(NameList(a))
    ensures EntryFine(e, a, c) <==> EntryError(e, a, c).None?
  {
    hide ValidateName, SafeName, Excluded, Unrepeated, NameList, FindMember;
    if ValidateName(e.path).Ok? {
      ValidatesExactly(e.path, ValidateName(e.path).value);
    }
    if path :| SafeName(e.path, path) && !Excluded(path) {
      ValidatesExactly(e.path, path);
    }
    FindAny(a, e.path);
    if FindMember(a, e.path).Some? {
      FindExactly(a, FindMember(a, e.path).value);
    }
    if m :| m in a && Accounts(e, m, c) {
      FindExactly(a, m);
    }
  }

  // ---------------------------------------------------------------------------
  // Archives
  // ---------------------------------------------------------------------------

  predicate HasMember(a: Archive, name: string) {
    exists k :: 0 <= k < |a| && a[k].name == name
  }

  predicate HasEntry(m: Manifest, name: string) {
    exists k :: 0 <= k < |m.entries| && m.entries[k].path == name
  }

  predicate IsManifest(a: Archive, c: Codec, m: Manifest, k: nat) {
    k < |a| && a[k].name == MANIFEST_NAME && c.decode(a[k].content) == Some(m)
  }

  /** The manifest is in the archive, and lists every other member once, and nothing else. */
  ghost predicate Listed(a: Archive, c: Codec, m: Manifest) {
    && (exists k: nat :: IsManifest(a, c, m, k))
    && (forall i, j :: 0 <= i < j < |m.entries| ==> m.entries[i].path != m.entries[j].path)
    && (forall name :: HasEntry(m, name) <==> HasMember(a, name) && name != MANIFEST_NAME)
    && m.fileCount == |m.entries| == |a| - 1
    && m.totalBytes == SizeSum(m.entries) == PayloadBytes(a)
  }

  /** An archive of plain, safely named and differently named members within the limits, with a manifest
      that accounts for each of them. */
  ghost predicate SoundArchive(a: Archive, c: Codec, m: Manifest) {
    && |a| <= MAX_FILES + 1 && PayloadBytes(a) <= MAX_PLAINTEXT_BYTES
    && (forall i, j :: 0 <= i < j < |a| ==> a[i].name != a[j].name)
    && (forall x :: x in a ==> MemberFine(x))
    && Listed(a, c, m)
    && forall e :: e in m.entries ==> EntryFine(e, a, c)
  }

  lemma NamesIn(a: Archive, m: Manifest, name: string)
    ensures HasMember(a, name) <==> name in Elements(NameList(a))
    ensures HasEntry(m, name) <==> name in Elements(EntryPaths(m.entries))
  {
    if k :| 0 <= k < |a| && a[k].name == name {
      assert NameList(a)[k] == name;
    }
    if k :| 0 <= k < |m.entries| && m.entries[k].path == name {
      assert EntryPaths(m.entries)[k] == name;
    }
  }

  lemma ConsistentExactly(a: Archive, c: Codec, m: Manifest)
    ensures Listed(a, c, m) <==> (exists k: nat :: IsManifest(a, c, m, k)) && Consistent(m, a)
  {
    hide PayloadBytes, SizeSum, HasMember, HasEntry, IsManifest, EntryPaths, NameList;
    forall name ensures (HasEntry(m, name) <==> HasMember(a, name) && name != MANIFEST_NAME)
      <==> (name in Elements(EntryPaths(m.entries)) <==> name in Elements(NameList(a)) - {MANIFEST_NAME}) {
      NamesIn(a, m, name);
    }
  }

  lemma UnrepeatedExactly(a: Archive)
    ensures Unrepeated(NameList(a)) <==> forall i, j :: 0 <= i < j < |a| ==> a[i].name != a[j].name
  {
    if forall i, j :: 0 <= i < j < |a| ==> a[i].name != a[j].name {
      assert Unrepeated(NameList(a));
    } else {
      var i, j :| 0 <= i < j < |a| && a[i].name == a[j].name;
      assert NameList(a)[i] == NameList(a)[j];
    }
  }

  lemma ManifestFound(a: Archive, c: Codec, m: Manifest)
    requires Unrepeated(NameList(a))
    ensures (exists k: nat :: IsManifest(a, c, m, k)) <==>
      FindMember(a, MANIFEST_NAME).Some? && c.decode(FindMember(a, MANIFEST_NAME).value.content) == Some(m)
  {
    hide Unrepeated, NameList, FindMember;
    FindAny(a, MANIFEST_NAME);
    if FindMember(a, MANIFEST_NAME).Some? {
      var k :| 0 <= k < |a| && a[k] == FindMember(a, MANIFEST_NAME).value;
      assert c.decode(a[k].content) == Some(m) ==> IsManifest(a, c, m, k);
    }
    if k: nat :| IsManifest(a, c, m, k) {
      FindExactly(a, a[k]);
    }
  }

  /** Inspection accepts exactly the sound archives, and gives back their manifest. */
  lemma InspectedExactly(a: Archive, c: Codec, m: Manifest)
    ensures Inspected(a, c) == Ok(m) <==> SoundArchive(a, c, m)
  {
    hide MemberFine, EntryFine, Listed, Consistent, MembersError, EntriesError, EntryError, PayloadBytes, FindMember, NameList,
      Unrepeated, IsManifest;
    MembersExactly(a);
    UnrepeatedExactly(a);
    if Unrepeated(NameList(a)) {
      ManifestFound(a, c, m);
      ConsistentExactly(a, c, m);
      EntriesExactly(m.entries, a, c);
      forall e | e in m.entries ensures EntryFine(e, a, c) <==> EntryError(e, a, c).None? {
        EntryErrorExactly(e, a, c);
      }
      FindAny(a, MANIFEST_NAME);
      ManifestNamed(a, c, m);
    }
  }

  lemma ManifestNamed(a: Archive, c: Codec, m: Manifest)
    ensures (exists k: nat :: IsManifest(a, c, m, k)) ==> MANIFEST_NAME in NameList(a)
  {
    if k: nat :| IsManifest(a, c, m, k) {
      assert NameList(a)[k] == MANIFEST_NAME;
    }
  }
}
