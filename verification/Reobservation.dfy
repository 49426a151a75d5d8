/** What reconciliation does when the same page is observed again under other transient ids,
    listed in another order: exactly the recognizable objects keep their identity. */
module Reobservation {
  import opened Prelude
  import opened WebObjects
  import opened IdentityMatching

  ghost predicate HasUniqueKey(page: seq<Candidate>, c: Candidate) {
    exists key :: key in c.strong && Owners(page, key) == {c.id}
  }

  function Uniques(page: seq<Candidate>): set<Id> {
    set c | c in page && (exists key | key in c.strong :: Owners(page, key) == {c.id}) :: c.id
  }

  /** A strong key of its own, or a semantic key unique among the objects without one. */
  ghost predicate Recognizable(page: seq<Candidate>, c: Candidate) {
    || HasUniqueKey(page, c)
    || Lookalikes(page, Uniques(page), c.semantic) == {c.id}
  }

  /** `listing` lists the same candidates as `page`, possibly in another order. */
  ghost predicate SamePage(page: seq<Candidate>, listing: seq<Candidate>) {
    DistinctCandidates(page) && DistinctCandidates(listing) && Elements(page) == Elements(listing)
  }

  ghost predicate Renaming(page: seq<Candidate>, rename: map<Id, Id>) {
    rename.Keys == CandidateIds(page) && Injective(rename)
  }

  function Rename(listing: seq<Candidate>, rename: map<Id, Id>): (r: seq<Candidate>)
    requires CandidateIds(listing) <= rename.Keys
    ensures |r| == |listing|
    ensures forall i :: 0 <= i < |listing| ==> r[i] == listing[i].(id := rename[listing[i].id])
  {
    seq(|listing|, i requires 0 <= i < |listing| =>
      assert listing[i].id in CandidateIds(listing); listing[i].(id := rename[listing[i].id]))
  }

  lemma SamePageIds(page: seq<Candidate>, listing: seq<Candidate>)
    requires SamePage(page, listing)
    ensures CandidateIds(page) == CandidateIds(listing)
    ensures forall c :: c in page <==> c in listing
  {
    assert forall c :: c in page <==> c in Elements(page);
    assert forall c :: c in listing <==> c in Elements(listing);
  }

  lemma UniqueById(page: seq<Candidate>, c: Candidate)
    requires DistinctCandidates(page) && c in page
    ensures c.id in Uniques(page) <==> HasUniqueKey(page, c)
  {
  }

  lemma {:induction false} FirstFreeOfOwner(keys: seq<StrongKey>, page: seq<Candidate>, used: set<Id>, c: Candidate)
    requires c in page && c.id !in used && forall key :: key in keys ==> key in c.strong
    ensures FirstFree(keys, page, used) ==
      if exists key :: key in keys && Owners(page, key) == {c.id} then Some(c.id) else None
  {
    if keys != [] {
      assert keys[0] in c.strong;
      assert c.id in Owners(page, keys[0]);
      FirstFreeOfOwner(keys[1..], page, used, c);
      assert keys == [keys[0]] + keys[1..];
      if Owners(page, keys[0]) == {c.id} {
        assert StrongMatch(page, keys[0]) == Some(c.id);
      }
    }
  }

  /** m maps exactly the renamed objects of the listing with a key of their own, each to itself. */
  ghost predicate RecognizedBy(m: map<Id, Id>, page: seq<Candidate>, listing: seq<Candidate>, rename: map<Id, Id>)
    requires CandidateIds(listing) <= rename.Keys
  {
    && m.Keys <= CandidateIds(Rename(listing, rename))
    && forall i :: 0 <= i < |listing| ==> RecognizedOne(m, page, listing[i], rename)
  }

  ghost predicate RecognizedOne(m: map<Id, Id>, page: seq<Candidate>, c: Candidate, rename: map<Id, Id>) {
    && c.id in rename
    && (rename[c.id] in m <==> HasUniqueKey(page, c))
    && (rename[c.id] in m ==> m[rename[c.id]] == c.id)
  }

  lemma NotTaken(m: map<Id, Id>, page: seq<Candidate>, front: seq<Candidate>, rename: map<Id, Id>, c: Candidate)
    requires CandidateIds(front) <= rename.Keys && RecognizedBy(m, page, front, rename)
    requires c.id !in CandidateIds(front)
    ensures c.id !in m.Values
  {
    forall id | id in m ensures m[id] != c.id {
      var i :| 0 <= i < |front| && Rename(front, rename)[i].id == id;
      assert RecognizedOne(m, page, front[i], rename);
    }
  }

  lemma RecognizedStep(m: map<Id, Id>, page: seq<Candidate>, front: seq<Candidate>, last: Candidate, rename: map<Id, Id>)
    requires CandidateIds(front) <= rename.Keys && RecognizedBy(m, page, front, rename)
    requires last.id in rename && last.id !in CandidateIds(front) && Injective(rename)
    ensures CandidateIds(front + [last]) <= rename.Keys
    ensures RecognizedBy(if HasUniqueKey(page, last) then m[rename[last.id] := last.id] else m,
                         page, front + [last], rename)
  {
    var after := if HasUniqueKey(page, last) then m[rename[last.id] := last.id] else m;
    var listing := front + [last];
    assert CandidateIds(listing) == CandidateIds(front) + {last.id};
    assert Rename(listing, rename) == Rename(front, rename) + Rename([last], rename);
    assert rename[last.id] !in m;
    forall i | 0 <= i < |listing|
      ensures RecognizedOne(after, page, listing[i], rename)
    {
      if i < |front| {
        assert RecognizedOne(m, page, front[i], rename);
        assert front[i].id in CandidateIds(front);
      }
    }
    assert CandidateIds(Rename(listing, rename)) == CandidateIds(Rename(front, rename)) + {rename[last.id]};
  }

  /** The strong pass matches exactly the objects with a key of their own, each to itself. */
  lemma {:induction false} StrongPassRecognizes(page: seq<Candidate>, prefix: seq<Candidate>, rename: map<Id, Id>)
    requires DistinctCandidates(page) && Renaming(page, rename)
    requires DistinctCandidates(prefix) && (forall c :: c in prefix ==> c in page)
    requires CandidateIds(prefix) <= rename.Keys
    ensures RecognizedBy(StrongPass(Rename(prefix, rename), page), page, prefix, rename)
  {
    if prefix != [] {
      var n := |prefix| - 1;
      var front, last := prefix[..n], prefix[n];
      assert prefix == front + [last];
      assert Rename(prefix, rename)[..n] == Rename(front, rename);
      StrongPassRecognizes(page, front, rename);
      var m := StrongPass(Rename(front, rename), page);
      NotTaken(m, page, front, rename, last);
      FirstFreeOfOwner(last.strong, page, m.Values, last);
      RecognizedStep(m, page, front, last, rename);
    }
  }

  lemma StrongPassOfRenaming(page: seq<Candidate>, listing: seq<Candidate>, rename: map<Id, Id>)
    requires SamePage(page, listing) && Renaming(page, rename)
    ensures CandidateIds(listing) <= rename.Keys
    ensures var m := StrongPass(Rename(listing, rename), page);
      && (forall c :: c in page ==> RecognizedOne(m, page, c, rename))
      && m.Values == Uniques(page)
  {
    SamePageIds(page, listing);
    StrongPassRecognizes(page, listing, rename);
    var m := StrongPass(Rename(listing, rename), page);
    forall c | c in page ensures RecognizedOne(m, page, c, rename) {
      var k :| 0 <= k < |listing| && listing[k] == c;
    }
    RecognizedValues(m, page, listing, rename);
  }

  lemma RecognizedValues(m: map<Id, Id>, page: seq<Candidate>, listing: seq<Candidate>, rename: map<Id, Id>)
    requires CandidateIds(listing) <= rename.Keys && RecognizedBy(m, page, listing, rename)
    requires forall c :: c in page ==> RecognizedOne(m, page, c, rename)
    requires forall c :: c in listing ==> c in page
    ensures m.Values == Uniques(page)
  {
    forall id | id in m.Values ensures id in Uniques(page) {
      var t :| t in m && m[t] == id;
      var k :| 0 <= k < |listing| && Rename(listing, rename)[k].id == t;
      assert RecognizedOne(m, page, listing[k], rename);
    }
    forall id | id in Uniques(page) ensures id in m.Values {
      var c :| c in page && c.id == id && HasUniqueKey(page, c);
      assert RecognizedOne(m, page, c, rename);
    }
  }

  /** The lookalikes of the renamed objects left over by the strong pass. */
  function LeftOver(page: seq<Candidate>, rename: map<Id, Id>, key: SemanticKey): set<Id>
    requires CandidateIds(page) <= rename.Keys
  {
    set c | c in page && c.id !in Uniques(page) && c.semantic == key ::
      (assert c.id in CandidateIds(page); rename[c.id])
  }

  /** Lookalikes on the incoming side are the renamed lookalikes of the page. */
  lemma RenamedLookalikes(page: seq<Candidate>, listing: seq<Candidate>, rename: map<Id, Id>, key: SemanticKey)
    requires SamePage(page, listing) && Renaming(page, rename)
    requires CandidateIds(listing) <= rename.Keys
    ensures Lookalikes(Rename(listing, rename), StrongPass(Rename(listing, rename), page).Keys, key)
      == LeftOver(page, rename, key)
  {
    StrongPassOfRenaming(page, listing, rename);
    SamePageIds(page, listing);
    var incoming := Rename(listing, rename);
    var m := StrongPass(incoming, page);
    forall id | id in LeftOver(page, rename, key)
      ensures id in Lookalikes(incoming, m.Keys, key)
    {
      var d :| d in page && d.id !in Uniques(page) && d.semantic == key && rename[d.id] == id;
      var k :| 0 <= k < |listing| && listing[k] == d;
      assert RecognizedOne(m, page, d, rename);
      assert incoming[k] in incoming;
    }
    forall id | id in Lookalikes(incoming, m.Keys, key)
      ensures id in LeftOver(page, rename, key)
    {
      var k :| 0 <= k < |incoming| && incoming[k].id == id && incoming[k].semantic == key && id !in m.Keys;
      assert RecognizedOne(m, page, listing[k], rename);
      UniqueById(page, listing[k]);
    }
  }

  lemma LeftOverSingle(page: seq<Candidate>, rename: map<Id, Id>, c: Candidate)
    requires Renaming(page, rename) && DistinctCandidates(page) && c in page && !HasUniqueKey(page, c)
    ensures LeftOver(page, rename, c.semantic) == {rename[c.id]}
      <==> Lookalikes(page, Uniques(page), c.semantic) == {c.id}
  {
    var left, right := LeftOver(page, rename, c.semantic), Lookalikes(page, Uniques(page), c.semantic);
    assert left == set id | id in right :: rename[id];
    assert c.id in right;
    if left == {rename[c.id]} {
      forall id | id in right ensures id == c.id {
        assert rename[id] in left;
      }
    }
  }

  /** The semantic partner of an object without a key of its own: itself if recognizable, none otherwise. */
  lemma PartnerOfRenaming(page: seq<Candidate>, listing: seq<Candidate>, rename: map<Id, Id>, k: nat)
    requires SamePage(page, listing) && Renaming(page, rename) && k < |listing| && !HasUniqueKey(page, listing[k])
    requires CandidateIds(listing) <= rename.Keys
    ensures var incoming := Rename(listing, rename);
      SemanticMatch(incoming[k], incoming, page, StrongPass(incoming, page))
        == if Recognizable(page, listing[k]) then Some(listing[k].id) else None
  {
    SamePageIds(page, listing);
    assert listing[k] in page;
    StrongPassOfRenaming(page, listing, rename);
    assert RecognizedOne(StrongPass(Rename(listing, rename), page), page, listing[k], rename);
    RenamedLookalikes(page, listing, rename, listing[k].semantic);
    LeftOverSingle(page, rename, listing[k]);
    if Recognizable(page, listing[k]) {
      var incoming := Rename(listing, rename);
      var m := StrongPass(incoming, page);
      assert Lookalikes(page, m.Values, listing[k].semantic) == {listing[k].id};
    }
  }

  lemma {:induction false} AssignKeepsNext(ids: seq<Id>, partners: seq<Option<Id>>, strong: map<Id, Id>, next: nat)
    requires |ids| == |partners|
    requires forall i :: 0 <= i < |ids| ==> ids[i] in strong || partners[i].Some?
    ensures Assign(ids, partners, strong, next).next == next
  {
    if ids != [] {
      AssignKeepsNext(ids[..|ids| - 1], partners[..|ids| - 1], strong, next);
    }
  }

  /** An object without a key of its own is partnered with itself or with nobody. */
  lemma Partnered(page: seq<Candidate>, listing: seq<Candidate>, rename: map<Id, Id>, k: nat)
    requires SamePage(page, listing) && Renaming(page, rename)
    requires CandidateIds(listing) <= rename.Keys && k < |listing|
    ensures var incoming := Rename(listing, rename);
      var strong := StrongPass(incoming, page);
      var id := rename[listing[k].id];
      if HasUniqueKey(page, listing[k])
      then id in strong && strong[id] == listing[k].id && Recognizable(page, listing[k])
      else id !in strong && Partners(incoming, page, strong)[k] == if Recognizable(page, listing[k]) then Some(listing[k].id) else None
  {
    SamePageIds(page, listing);
    StrongPassOfRenaming(page, listing, rename);
    assert listing[k] in page;
    assert RecognizedOne(StrongPass(Rename(listing, rename), page), page, listing[k], rename);
    if !HasUniqueKey(page, listing[k]) {
      PartnerOfRenaming(page, listing, rename, k);
    }
  }

  lemma ReobservedOne(page: seq<Candidate>, listing: seq<Candidate>, rename: map<Id, Id>, next: nat, k: nat)
    requires SamePage(page, listing) && Renaming(page, rename) && BelowNext(CandidateIds(page), next)
    requires CandidateIds(listing) <= rename.Keys && k < |listing|
    ensures var m, id := Reconcile(Rename(listing, rename), page, next), rename[listing[k].id];
      && id in m.ids
      && (m.ids[id] == listing[k].id <==> Recognizable(page, listing[k]))
      && (!Recognizable(page, listing[k]) ==> m.ids[id].Allocated? && m.ids[id].number >= next)
  {
    hide StrongPass, Partners, Assign, HasUniqueKey, Recognizable;
    SamePageIds(page, listing);
    var incoming := Rename(listing, rename);
    var strong := StrongPass(incoming, page);
    var partners := Partners(incoming, page, strong);
    StrongPassInjective(incoming, page);
    PartnersGood(incoming, page, strong);
    AssignSound(IdsOf(incoming), partners, strong, next, CandidateIds(page));
    assert Assigned(Reconcile(incoming, page, next), IdsOf(incoming)[k], partners[k], strong, next);
    assert listing[k].id in CandidateIds(listing);
    Partnered(page, listing, rename, k);
  }

  lemma AllRecognizedKeepsNext(page: seq<Candidate>, listing: seq<Candidate>, rename: map<Id, Id>, next: nat)
    requires SamePage(page, listing) && Renaming(page, rename) && CandidateIds(listing) <= rename.Keys
    requires forall c :: c in page ==> Recognizable(page, c)
    ensures Reconcile(Rename(listing, rename), page, next).next == next
  {
    hide StrongPass, Partners, Assign, HasUniqueKey, Recognizable;
    SamePageIds(page, listing);
    var incoming := Rename(listing, rename);
    var strong := StrongPass(incoming, page);
    var partners := Partners(incoming, page, strong);
    forall i | 0 <= i < |incoming|
      ensures IdsOf(incoming)[i] in strong || partners[i].Some?
    {
      assert listing[i] in page;
      Partnered(page, listing, rename, i);
    }
    AssignKeepsNext(IdsOf(incoming), partners, strong, next);
  }

  /** Re-observing a page: an object keeps its id if and only if it is recognizable;
      the others get numbers never used before. */
  lemma ReobservationExact(page: seq<Candidate>, listing: seq<Candidate>, rename: map<Id, Id>, next: nat)
    requires SamePage(page, listing) && Renaming(page, rename) && BelowNext(CandidateIds(page), next)
    ensures CandidateIds(listing) <= rename.Keys
    ensures var m := Reconcile(Rename(listing, rename), page, next);
      && (forall c :: c in page ==> rename[c.id] in m.ids)
      && (forall c :: c in page ==> (m.ids[rename[c.id]] == c.id <==> Recognizable(page, c)))
      && (forall c :: c in page && !Recognizable(page, c) ==>
            m.ids[rename[c.id]].Allocated? && m.ids[rename[c.id]].number >= next)
      && ((forall c :: c in page ==> Recognizable(page, c)) ==> m.next == next)
  {
    hide Reconcile, Recognizable, BelowNext;
    SamePageIds(page, listing);
    var m := Reconcile(Rename(listing, rename), page, next);
    forall c | c in page
      ensures rename[c.id] in m.ids
      ensures m.ids[rename[c.id]] == c.id <==> Recognizable(page, c)
      ensures !Recognizable(page, c) ==> m.ids[rename[c.id]].Allocated? && m.ids[rename[c.id]].number >= next
    {
      var k :| 0 <= k < |listing| && listing[k] == c;
      ReobservedOne(page, listing, rename, next, k);
    }
    if forall c :: c in page ==> Recognizable(page, c) {
      AllRecognizedKeepsNext(page, listing, rename, next);
    }
  }
}
