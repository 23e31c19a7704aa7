/**
 The repair of the three URL lists of a visual selection: URLs outside the gallery are
 dropped, and a URL is either an asset or a reference, never both.
 */
module VisualSelection {

  type Url = string

  datatype Role = BrandAsset | Content | Reference | Unknown

  datatype GalleryItem = GalleryItem(url: Url, role: Role)

  /** Codes of the warnings, each with the number of URLs it speaks of. */
  datatype Warning = VisualHallucinated(count: nat) | ReferenceUsedAsAsset(count: nat)

  // ---- Specification ----

  function Urls(gallery: seq<GalleryItem>): set<Url> {
    set item | item in gallery :: item.url
  }

  /** The URLs whose last gallery entry is a reference; `gallery_by_url` keeps the last. */
  function ReferenceUrls(gallery: seq<GalleryItem>): set<Url> {
    if gallery == [] then {} else
    var last := gallery[|gallery| - 1];
    var before := ReferenceUrls(gallery[..|gallery| - 1]);
    if last.role == Reference then before + {last.url} else before - {last.url}
  }

  /** The elements of `s` that lie in `keep`, in order. */
  function Keep(s: seq<Url>, keep: set<Url>): (r: seq<Url>)
    ensures forall u :: u in r <==> u in s && u in keep
    ensures |r| <= |s|
    ensures (forall u :: u in s ==> u !in keep) ==> r == []
  {
    if s == [] then [] else
    var last := s[|s| - 1];
    assert forall u :: u in s <==> u in s[..|s| - 1] || u == last;
    var before := Keep(s[..|s| - 1], keep);
    if last in keep then before + [last] else before
  }

  /** The elements of `s` outside `avoid`, in order. */
  function Drop(s: seq<Url>, avoid: set<Url>): seq<Url> {
    Keep(s, Elements(s) - avoid)
  }

  function Elements(s: seq<Url>): set<Url> {
    set u | u in s
  }

  /** Append each element of `extra` that is not there yet. */
  function AppendMissing(s: seq<Url>, extra: seq<Url>): (r: seq<Url>)
    ensures s <= r && Elements(r) == Elements(s) + Elements(extra)
    ensures Elements(extra) <= Elements(s) ==> r == s
  {
    if extra == [] then s else
    var last := extra[|extra| - 1];
    var before := AppendMissing(s, extra[..|extra| - 1]);
    assert Elements(extra) == Elements(extra[..|extra| - 1]) + {last};
    assert Elements(before + [last]) == Elements(before) + {last};
    assert last in before ==> Elements(before) == Elements(before) + {last};
    if last in before then before else before + [last]
  }

  datatype Lists = Lists(assets: seq<Url>, references: seq<Url>, avoid: seq<Url>)

  lemma AppendOneMore(s: seq<Url>, extra: seq<Url>, i: nat)
    requires i < |extra|
    ensures var before := AppendMissing(s, extra[..i]);
            AppendMissing(s, extra[..i + 1]) == if extra[i] in before then before else before + [extra[i]]
  {
    assert extra[..i + 1][..i] == extra[..i];
  }

  function WarnIf(count: nat, w: Warning): seq<Warning> {
    if count > 0 then [w] else []
  }

  /** First stage: containment in the gallery. */
  function Contained(l: Lists, all: set<Url>): Lists {
    Lists(Keep(l.assets, all), Keep(l.references, all), Keep(l.avoid, all))
  }

  function LostWarnings(urls: seq<Url>, all: set<Url>): seq<Warning> {
    var lost := |urls| - |Keep(urls, all)|;
    WarnIf(lost, VisualHallucinated(lost))
  }

  function ContainWarnings(l: Lists, all: set<Url>): seq<Warning> {
    LostWarnings(l.assets, all) + LostWarnings(l.references, all)
  }

  /** Second stage: role=reference assets become references. */
  function Moved(l: Lists, referenceUrls: set<Url>): Lists {
    var misplaced := Keep(l.assets, referenceUrls);
    l.(assets := if misplaced == [] then l.assets else Drop(l.assets, referenceUrls),
       references := AppendMissing(l.references, misplaced))
  }

  function MoveWarnings(l: Lists, referenceUrls: set<Url>): seq<Warning> {
    var n := |Keep(l.assets, referenceUrls)|;
    WarnIf(n, ReferenceUsedAsAsset(n))
  }

  /** Third stage: a URL in both lists stays a reference only. */
  function Unshared(l: Lists): Lists {
    var shared := Elements(l.assets) * Elements(l.references);
    l.(assets := if shared == {} then l.assets else Drop(l.assets, shared))
  }

  function UnshareWarnings(l: Lists): seq<Warning> {
    var n := |Elements(l.assets) * Elements(l.references)|;
    WarnIf(n, ReferenceUsedAsAsset(n))
  }

  function Repaired(l: Lists, gallery: seq<GalleryItem>): Lists {
    Unshared(Moved(Contained(l, Urls(gallery)), ReferenceUrls(gallery)))
  }

  function RepairWarnings(l: Lists, gallery: seq<GalleryItem>): seq<Warning> {
    var contained := Contained(l, Urls(gallery));
    ContainWarnings(l, Urls(gallery)) + MoveWarnings(contained, ReferenceUrls(gallery))
    + UnshareWarnings(Moved(contained, ReferenceUrls(gallery)))
  }

  /** The role=reference assets, which move over to the references. */
  function Misplaced(l: Lists, gallery: seq<GalleryItem>): seq<Url> {
    Keep(Keep(l.assets, Urls(gallery)), ReferenceUrls(gallery))
  }

  function RepairedReferences(l: Lists, gallery: seq<GalleryItem>): seq<Url> {
    AppendMissing(Keep(l.references, Urls(gallery)), Misplaced(l, gallery))
  }

  /** The three stages in one: the assets are filtered once. */
  lemma RepairedInOne(l: Lists, gallery: seq<GalleryItem>)
    ensures var references := RepairedReferences(l, gallery);
            Repaired(l, gallery)
            == Lists(Keep(l.assets, Urls(gallery) - ReferenceUrls(gallery) - Elements(references)),
                     references,
                     Keep(l.avoid, Urls(gallery)))
  {
    DropTwice(l.assets, Urls(gallery), ReferenceUrls(gallery), Misplaced(l, gallery));
    SharedDropped(l.assets, Urls(gallery) - ReferenceUrls(gallery), Elements(RepairedReferences(l, gallery)));
  }

  lemma KeepSnoc(s: seq<Url>, u: Url, a: set<Url>)
    ensures Keep(s + [u], a) == if u in a then Keep(s, a) + [u] else Keep(s, a)
  {
    assert (s + [u])[..|s|] == s;
  }

  lemma {:induction false} KeepTwice(s: seq<Url>, a: set<Url>, b: set<Url>)
    ensures Keep(Keep(s, a), b) == Keep(s, a * b)
  {
    if s != [] {
      var last := |s| - 1;
      KeepTwice(s[..last], a, b);
      KeepSnoc(Keep(s[..last], a), s[last], b);
      assert s[last] !in a ==> Keep(s, a) == Keep(s[..last], a);
    }
  }

  lemma {:induction false} KeepSame(s: seq<Url>, a: set<Url>, b: set<Url>)
    requires forall u :: u in s ==> (u in a <==> u in b)
    ensures Keep(s, a) == Keep(s, b)
  {
    if s != [] {
      KeepSame(s[..|s| - 1], a, b);
    }
  }

  lemma {:induction false} KeepAll(s: seq<Url>, a: set<Url>)
    ensures Keep(s, a) == s <==> Elements(s) <= a
    ensures |Keep(s, a)| == |s| <==> Elements(s) <= a
  {
    if s != [] {
      var last := |s| - 1;
      KeepAll(s[..last], a);
      assert Elements(s) == Elements(s[..last]) + {s[last]};
      assert s == s[..last] + [s[last]];
    }
  }

  // ---- The code ----

  class Selection {
    var assets: seq<Url>
    var references: seq<Url>
    var avoid: seq<Url>

    function Value(): Lists
      reads this
    {
      Lists(assets, references, avoid)
    }

    /** The visual-selection part of `validate_and_correct`. */
    method Repair(gallery: seq<GalleryItem>) returns (warnings: seq<Warning>)
      modifies this
      ensures Value() == Repaired(old(Value()), gallery)
      ensures warnings == RepairWarnings(old(Value()), gallery)
    {
      var lost := DropHallucinated(Urls(gallery));
      var moved := MoveMisplaced(ReferenceUrls(gallery));
      var overlap := DropShared();
      warnings := lost + moved + overlap;
    }

    method DropHallucinated(galleryUrls: set<Url>) returns (warnings: seq<Warning>)
      modifies this
      ensures Value() == Contained(old(Value()), galleryUrls)
      ensures warnings == ContainWarnings(old(Value()), galleryUrls)
    {
      var keptAssets, lostAssets := Contain(assets, galleryUrls);
      var keptReferences, lostReferences := Contain(references, galleryUrls);
      warnings := lostAssets + lostReferences;
      assets, references, avoid := keptAssets, keptReferences, Keep(avoid, galleryUrls);
    }

    static method Contain(urls: seq<Url>, galleryUrls: set<Url>) returns (kept: seq<Url>, warnings: seq<Warning>)
      ensures kept == Keep(urls, galleryUrls)
      ensures warnings == LostWarnings(urls, galleryUrls)
    {
      kept, warnings := urls, [];
      var hallucinated := Drop(urls, galleryUrls);
      DropLength(urls, galleryUrls);
      KeepAll(urls, galleryUrls);
      if hallucinated != [] {
        warnings := [VisualHallucinated(|hallucinated|)];
        kept := Keep(urls, galleryUrls);
      }
    }

    method MoveMisplaced(referenceUrls: set<Url>) returns (warnings: seq<Warning>)
      modifies this
      ensures Value() == Moved(old(Value()), referenceUrls)
      ensures warnings == MoveWarnings(old(Value()), referenceUrls)
    {
      warnings := [];
      var misplaced := Keep(assets, referenceUrls);
      if misplaced != [] {
        warnings := warnings + [ReferenceUsedAsAsset(|misplaced|)];
        assets := Drop(assets, referenceUrls);
        AppendEach(misplaced);
      }
    }

    /** The loop over the misplaced assets. */
    method AppendEach(misplaced: seq<Url>)
      modifies this`references
      ensures references == AppendMissing(old(references), misplaced)
    {
      for i := 0 to |misplaced|
        invariant references == AppendMissing(old(references), misplaced[..i])
      {
        AppendOneMore(old(references), misplaced, i);
        if misplaced[i] !in references {
          references := references + [misplaced[i]];
        }
      }
      assert misplaced[..|misplaced|] == misplaced;
    }

    method DropShared() returns (warnings: seq<Warning>)
      modifies this`assets
      ensures Value() == Unshared(old(Value()))
      ensures warnings == UnshareWarnings(old(Value()))
    {
      warnings := [];
      var shared := Elements(assets) * Elements(references);
      if shared != {} {
        warnings := [ReferenceUsedAsAsset(|shared|)];
        assets := Drop(assets, shared);
      }
    }
  }

  lemma {:induction false} DropLength(s: seq<Url>, a: set<Url>)
    ensures |Drop(s, a)| == |s| - |Keep(s, a)|
  {
    if s != [] {
      var last := |s| - 1;
      DropLength(s[..last], a);
      KeepSame(s[..last], Elements(s) - a, Elements(s[..last]) - a);
    }
  }

  lemma DropTwice(s: seq<Url>, a: set<Url>, b: set<Url>, misplaced: seq<Url>)
    requires misplaced == Keep(Keep(s, a), b)
    ensures Drop(Keep(s, a), b) == Keep(s, a - b)
    ensures misplaced == [] ==> Keep(s, a) == Keep(s, a - b)
  {
    var k := Elements(Keep(s, a)) - b;
    KeepTwice(s, a, k);
    KeepSame(s, a * k, a - b);
    if misplaced == [] {
      assert forall u :: u in s && u in a ==> u in Keep(s, a) && (u in b ==> u in misplaced);
      KeepSame(s, a, a - b);
    }
  }

  lemma SharedDropped(s: seq<Url>, a: set<Url>, references: set<Url>)
    ensures var kept := Keep(s, a); var shared := Elements(kept) * references;
            Keep(s, a - references) == if shared == {} then kept else Drop(kept, shared)
  {
    var kept := Keep(s, a);
    var shared := Elements(kept) * references;
    DropTwice(s, a, shared, Keep(kept, shared));
    assert forall u :: u in s && u in a ==> (u in shared <==> u in references);
    KeepSame(s, a - shared, a - references);
    if shared == {} {
      assert a - shared == a;
    }
  }

  // ---- Properties ----

  predicate Inside(s: seq<Url>, all: set<Url>) {
    forall u :: u in s ==> u in all
  }

  /** Every list is within the gallery, no asset has the reference role, and no URL is
      both an asset and a reference. */
  lemma RepairPartitions(l: Lists, gallery: seq<GalleryItem>)
    ensures var r := Repaired(l, gallery);
            && Inside(r.assets, Urls(gallery)) && Inside(r.references, Urls(gallery)) && Inside(r.avoid, Urls(gallery))
            && Elements(r.assets) !! ReferenceUrls(gallery)
            && Elements(r.assets) !! Elements(r.references)
  {
    RepairStaysInside(l, gallery);
    RepairSeparates(l, gallery);
  }

  lemma RepairStaysInside(l: Lists, gallery: seq<GalleryItem>)
    ensures var r := Repaired(l, gallery);
            Inside(r.assets, Urls(gallery)) && Inside(r.references, Urls(gallery)) && Inside(r.avoid, Urls(gallery))
  {
    var r, all := Repaired(l, gallery), Urls(gallery);
    forall u ensures u in r.assets || u in r.references || u in r.avoid ==> u in all {
      RepairMembers(l, gallery, u);
    }
  }

  lemma RepairSeparates(l: Lists, gallery: seq<GalleryItem>)
    ensures var r := Repaired(l, gallery);
            Elements(r.assets) !! ReferenceUrls(gallery) && Elements(r.assets) !! Elements(r.references)
  {
    var r, references := Repaired(l, gallery), ReferenceUrls(gallery);
    forall u | u in r.assets ensures u !in references && u !in r.references {
      RepairMembers(l, gallery, u);
    }
  }

  /** The recommended gallery URLs are conserved: repair only moves them between the lists. */
  lemma RepairConserves(l: Lists, gallery: seq<GalleryItem>)
    ensures var r := Repaired(l, gallery);
            Elements(r.assets) + Elements(r.references)
            == (Elements(l.assets) + Elements(l.references)) * Urls(gallery)
  {
    var r := Repaired(l, gallery);
    forall u
      ensures u in r.assets || u in r.references <==> (u in l.assets || u in l.references) && u in Urls(gallery)
    {
      RepairMembers(l, gallery, u);
    }
  }

  lemma RepairMembers(l: Lists, gallery: seq<GalleryItem>, u: Url)
    ensures u in Repaired(l, gallery).references <==>
            u in Urls(gallery) && (u in l.references || (u in l.assets && u in ReferenceUrls(gallery)))
    ensures u in Repaired(l, gallery).assets <==>
            u in l.assets && u in Urls(gallery) && u !in ReferenceUrls(gallery) && u !in Repaired(l, gallery).references
    ensures u in Repaired(l, gallery).avoid <==> u in l.avoid && u in Urls(gallery)
  {
    RepairedInOne(l, gallery);
    var kept, misplaced := Keep(l.references, Urls(gallery)), Misplaced(l, gallery);
    assert u in Elements(AppendMissing(kept, misplaced)) <==> u in Elements(kept) + Elements(misplaced);
  }

  predicate Listed(gallery: seq<GalleryItem>, u: Url) {
    exists k :: 0 <= k < |gallery| && gallery[k].url == u
  }

  /** Entry k is the last one of the URL, and a reference. */
  predicate EndsAt(gallery: seq<GalleryItem>, u: Url, k: int) {
    && 0 <= k < |gallery| && gallery[k].url == u && gallery[k].role == Reference
    && forall j :: k < j < |gallery| ==> gallery[j].url != u
  }

  /** The last gallery entry of the URL has the reference role. */
  predicate EndsAsReference(gallery: seq<GalleryItem>, u: Url) {
    exists k :: 0 <= k < |gallery| && EndsAt(gallery, u, k)
  }

  lemma EndsAtSnoc(before: seq<GalleryItem>, last: GalleryItem, u: Url, k: int)
    ensures k != |before| ==> (EndsAt(before + [last], u, k) <==> EndsAt(before, u, k) && last.url != u)
    ensures EndsAt(before + [last], u, |before|) <==> last.url == u && last.role == Reference
  {
    var all := before + [last];
    assert forall j :: 0 <= j < |before| ==> all[j] == before[j];
    assert all[|before|] == last;
  }

  lemma EndsSnoc(before: seq<GalleryItem>, last: GalleryItem, u: Url)
    ensures EndsAsReference(before + [last], u) <==> if last.url == u then last.role == Reference else EndsAsReference(before, u)
  {
    EndsAtSnoc(before, last, u, 0);
    if k :| 0 <= k < |before + [last]| && EndsAt(before + [last], u, k) {
      EndsAtSnoc(before, last, u, k);
    }
    if k :| 0 <= k < |before| && EndsAt(before, u, k) {
      EndsAtSnoc(before, last, u, k);
    }
  }

  lemma {:induction false} ReferencesByLastEntry(gallery: seq<GalleryItem>, u: Url)
    ensures u in ReferenceUrls(gallery) <==> EndsAsReference(gallery, u)
  {
    if gallery != [] {
      var n := |gallery| - 1;
      ReferencesByLastEntry(gallery[..n], u);
      EndsSnoc(gallery[..n], gallery[n], u);
      assert gallery == gallery[..n] + [gallery[n]];
    }
  }

  /** Where each URL ends up, from the gallery and the given lists alone: what the gallery does
      not list is dropped; an asset whose last gallery entry is a reference becomes one; what
      is recommended as both stays a reference; the avoided ones are only filtered. */
  lemma RepairSorts(l: Lists, gallery: seq<GalleryItem>, u: Url)
    ensures var r := Repaired(l, gallery);
            && (u in r.references <==>
                  Listed(gallery, u) && (u in l.references || (u in l.assets && EndsAsReference(gallery, u))))
            && (u in r.assets <==>
                  Listed(gallery, u) && u in l.assets && u !in l.references && !EndsAsReference(gallery, u))
            && (u in r.avoid <==> Listed(gallery, u) && u in l.avoid)
  {
    RepairMembers(l, gallery, u);
    ReferencesByLastEntry(gallery, u);
    assert u in Urls(gallery) <==> Listed(gallery, u) by {
      if u in Urls(gallery) {
        var item :| item in gallery && item.url == u;
      }
    }
  }

  /** Survivors keep their order: the assets are a filter of the given assets and the
      references a filter of the given references followed by the URLs moved there. */
  lemma RepairKeepsOrder(l: Lists, gallery: seq<GalleryItem>)
    ensures var r := Repaired(l, gallery);
            && r.assets == Keep(l.assets, Elements(r.assets))
            && Keep(l.references, Urls(gallery)) <= r.references
            && r.avoid == Keep(l.avoid, Elements(r.avoid))
            && (forall u :: u in r.references[|Keep(l.references, Urls(gallery))|..] ==> u in l.assets)
  {
    var r := Repaired(l, gallery);
    RepairedInOne(l, gallery);
    KeepSame(l.assets, Urls(gallery) - ReferenceUrls(gallery) - Elements(r.references), Elements(r.assets));
    KeepSame(l.avoid, Urls(gallery), Elements(r.avoid));
    AppendedFromExtra(Keep(l.references, Urls(gallery)), Misplaced(l, gallery));
  }

  lemma {:induction false} AppendedFromExtra(s: seq<Url>, extra: seq<Url>)
    ensures forall u :: u in AppendMissing(s, extra)[|s|..] ==> u in extra
  {
    if extra != [] {
      var before := AppendMissing(s, extra[..|extra| - 1]);
      AppendedFromExtra(s, extra[..|extra| - 1]);
      assert before[|s|..] + [extra[|extra| - 1]] == (before + [extra[|extra| - 1]])[|s|..];
    }
  }

  /** A second repair changes nothing and warns of nothing. */
  lemma RepairIsIdempotent(l: Lists, gallery: seq<GalleryItem>)
    ensures var r := Repaired(l, gallery);
            Repaired(r, gallery) == r && RepairWarnings(r, gallery) == []
  {
    var r := Repaired(l, gallery);
    var all := Urls(gallery);
    RepairPartitions(l, gallery);
    KeepAll(r.assets, all);
    KeepAll(r.references, all);
    KeepAll(r.avoid, all);
    assert forall u :: u in Elements(r.assets) ==> u !in ReferenceUrls(gallery);
    assert Misplaced(r, gallery) == [];
    assert RepairedReferences(r, gallery) == r.references;
  }

  /** The positions of the list at which a URL of the set stands. */
  function Places(s: seq<Url>, a: set<Url>): set<int> {
    set i | 0 <= i < |s| && s[i] in a
  }

  lemma PlacesSnoc(s: seq<Url>, u: Url, a: set<Url>)
    ensures Places(s + [u], a) == Places(s, a) + (if u in a then {|s|} else {})
    ensures |Places(s + [u], a)| == |Places(s, a)| + (if u in a then 1 else 0)
  {
    assert |s| !in Places(s, a);
    assert Places(s + [u], a) == Places(s, a) + (if u in a then {|s|} else {});
  }

  lemma {:induction false} KeepCounts(s: seq<Url>, a: set<Url>)
    ensures |Keep(s, a)| == |Places(s, a)|
  {
    if s != [] {
      var n := |s| - 1;
      KeepCounts(s[..n], a);
      PlacesSnoc(s[..n], s[n], a);
      assert s == s[..n] + [s[n]];
    }
  }

  /** The positions at which a URL stands that the gallery does not list. */
  function Unlisted(s: seq<Url>, all: set<Url>): set<int> {
    set i | 0 <= i < |s| && s[i] !in all
  }

  lemma UnlistedCounts(s: seq<Url>, all: set<Url>)
    ensures |Unlisted(s, all)| == |s| - |Keep(s, all)|
  {
    DropLength(s, all);
    KeepCounts(s, Elements(s) - all);
    assert Unlisted(s, all) == Places(s, Elements(s) - all);
  }

  function WarnOf(places: set<int>, w: nat -> Warning): seq<Warning> {
    if places == {} then [] else [w(|places|)]
  }

  /** The first stage reports, list by list, how many entries it drops, if any, and the second
      how many assets it moves. */
  lemma WarningsCount(l: Lists, gallery: seq<GalleryItem>)
    ensures var all := Urls(gallery);
            ContainWarnings(l, all)
            == WarnOf(Unlisted(l.assets, all), (n: nat) => VisualHallucinated(n))
               + WarnOf(Unlisted(l.references, all), (n: nat) => VisualHallucinated(n))
    ensures MoveWarnings(l, ReferenceUrls(gallery))
            == WarnOf(Places(l.assets, ReferenceUrls(gallery)), (n: nat) => ReferenceUsedAsAsset(n))
  {
    UnlistedCounts(l.assets, Urls(gallery));
    UnlistedCounts(l.references, Urls(gallery));
    KeepCounts(l.assets, ReferenceUrls(gallery));
  }

  /** Nothing is reported exactly when the three lists are left as they are, the avoid
      list aside, which is filtered silently. */
  lemma SilentIffUnchanged(l: Lists, gallery: seq<GalleryItem>)
    ensures RepairWarnings(l, gallery) == [] <==>
            Repaired(l, gallery).assets == l.assets && Repaired(l, gallery).references == l.references
  {
    var all := Urls(gallery);
    var r := Repaired(l, gallery);
    if r.assets == l.assets && r.references == l.references {
      RepairIsIdempotent(l, gallery);
      assert RepairWarnings(r, gallery) == RepairWarnings(l, gallery);
    } else if RepairWarnings(l, gallery) == [] {
      KeepAll(l.assets, all);
      KeepAll(l.references, all);
    }
  }
}
