/**
 The channels a call to action may target: how they are read from the brief, how a
 user profile overrides them, and how the call to action the model chose is corrected.
 */
module Channels {
  import opened Wrappers
  import opened Text

  datatype Kind =
    | Website | InstagramProfile | Facebook | TikTok | LinkedIn | Phone | WhatsApp | Email
    | Dm | LinkSticker | NoChannel

  datatype Channel = Channel(kind: Kind, url: Option<string>, hint: Option<string>)

  /** Python truth of an optional string. */
  predicate Filled(url: Option<string>) {
    url.Some? && url.value != ""
  }

  /** Channels that need no target. */
  predicate Placeless(kind: Kind) {
    kind == Dm || kind == LinkSticker
  }

  predicate Usable(c: Channel) {
    Placeless(c.kind) || Filled(c.url)
  }

  function Kinds(channels: seq<Channel>): set<Kind> {
    set c | c in channels :: c.kind
  }

  ghost predicate OneEntryPerKind(channels: seq<Channel>) {
    forall i, j :: 0 <= i < j < |channels| ==> channels[i].kind != channels[j].kind
  }

  function DmChannel(): Channel {
    Channel(Dm, None, Some("Escríbenos por DM"))
  }

  function LinkStickerChannel(): Channel {
    Channel(LinkSticker, None, Some("Toca el sticker"))
  }

  /** The usable channels, in order. */
  function OnlyUsable(channels: seq<Channel>): (r: seq<Channel>)
    ensures forall c :: c in r <==> c in channels && Usable(c)
    ensures (forall c :: c in channels ==> Usable(c)) ==> r == channels
    ensures OneEntryPerKind(channels) ==> OneEntryPerKind(r)
  {
    if channels == [] then [] else
    var last := channels[|channels| - 1];
    var rest := OnlyUsable(channels[..|channels| - 1]);
    assert channels == channels[..|channels| - 1] + [last];
    assert forall j :: 0 <= j < |rest| ==> rest[j] in rest;
    assert OneEntryPerKind(channels) ==> forall c :: c in channels[..|channels| - 1] ==> c.kind != last.kind;
    if Usable(last) then rest + [last] else rest
  }

  // ---- _extract_available_channels ----

  /** The cleaned brief values, after the `or` between form field and profile field. */
  datatype BriefContacts = BriefContacts(website: Option<string>, instagram: Option<string>, facebook: Option<string>,
                                         tiktok: Option<string>, linkedin: Option<string>, phone: Option<string>,
                                         email: Option<string>)

  function BriefValue(b: BriefContacts, kind: Kind): Option<string> {
    match kind
    case Website => b.website
    case InstagramProfile => b.instagram
    case Facebook => b.facebook
    case TikTok => b.tiktok
    case LinkedIn => b.linkedin
    case Phone => b.phone
    case Email => b.email
    case _ => None
  }

  function Hint(kind: Kind): Option<string> {
    match kind
    case Website => Some("Visita la web")
    case InstagramProfile => Some("Síguenos")
    case Phone => Some("Llámanos")
    case Dm => DmChannel().hint
    case LinkSticker => LinkStickerChannel().hint
    case _ => None
  }

  const BRIEF_KINDS: seq<Kind> := [Website, InstagramProfile, Facebook, TikTok, LinkedIn, Phone, Email, Dm, LinkSticker]

  function Candidate(b: BriefContacts, kind: Kind): Channel {
    Channel(kind, CleanString(BriefValue(b, kind)), Hint(kind))
  }

  function Candidates(b: BriefContacts, n: nat): seq<Channel>
    requires n <= |BRIEF_KINDS|
  {
    if n == 0 then [] else
    if n == 1 && !Filled(b.website) then Candidates(b, n - 1)
    else Candidates(b, n - 1) + [Candidate(b, BRIEF_KINDS[n - 1])]
  }

  lemma BriefKindsDiffer(n: nat)
    requires n < |BRIEF_KINDS|
    ensures BRIEF_KINDS[n] !in BRIEF_KINDS[..n] && BRIEF_KINDS[n] != WhatsApp && BRIEF_KINDS[n] != NoChannel
    ensures BRIEF_KINDS[..n + 1] == BRIEF_KINDS[..n] + [BRIEF_KINDS[n]]
  {
  }

  lemma {:induction false} CandidateKinds(b: BriefContacts, n: nat, c: Channel)
    requires n <= |BRIEF_KINDS| && c in Candidates(b, n)
    ensures c == Candidate(b, c.kind) && c.kind in BRIEF_KINDS[..n] && c.kind != WhatsApp && c.kind != NoChannel
  {
    if n > 0 {
      BriefKindsDiffer(n - 1);
      if c in Candidates(b, n - 1) {
        CandidateKinds(b, n - 1, c);
      }
    }
  }

  lemma {:induction false} CandidatesOnce(b: BriefContacts, n: nat)
    requires n <= |BRIEF_KINDS|
    ensures OneEntryPerKind(Candidates(b, n))
  {
    if n > 0 {
      var before, kind := Candidates(b, n - 1), BRIEF_KINDS[n - 1];
      CandidatesOnce(b, n - 1);
      forall i, j | 0 <= i < |before| && 0 <= j < 1 ensures before[i].kind != [Candidate(b, kind)][j].kind {
        assert before[i] in before;
        CandidateKinds(b, n - 1, before[i]);
        BriefKindsDiffer(n - 1);
      }
      ConcatPerKind(before, [Candidate(b, kind)]);
    }
  }

  lemma {:induction false} CandidateListed(b: BriefContacts, n: nat, k: nat)
    requires 1 <= k < n <= |BRIEF_KINDS|
    ensures Candidate(b, BRIEF_KINDS[k]) in Candidates(b, n)
  {
    if k < n - 1 {
      CandidateListed(b, n - 1, k);
    }
  }

  /** `_extract_available_channels`: an entry is added unless its kind and value were seen,
      and the entries without a value are dropped at the end. */
  method ExtractAvailableChannels(b: BriefContacts) returns (channels: seq<Channel>)
    ensures channels == OnlyUsable(Candidates(b, |BRIEF_KINDS|))
  {
    var added: seq<Channel> := [];
    var seen: set<(Kind, Option<string>)> := {};
    for n := 0 to |BRIEF_KINDS|
      invariant added == Candidates(b, n)
      invariant forall key :: key in seen ==> key.0 in BRIEF_KINDS[..n]
    {
      var kind := BRIEF_KINDS[n];
      assert kind !in BRIEF_KINDS[..n];
      assert BRIEF_KINDS[..n + 1] == BRIEF_KINDS[..n] + [kind];
      if kind != Website || Filled(b.website) {
        var c := Candidate(b, kind);
        if (kind, c.url) !in seen {
          seen := seen + {(kind, c.url)};
          added := added + [c];
        }
      }
    }
    channels := OnlyUsable(added);
  }

  /** What the brief offers: one entry per kind, usable, never WhatsApp, and every target
      that a channel needs is the clean form of its brief value. */
  lemma ExtractedChannels(b: BriefContacts)
    ensures var r := OnlyUsable(Candidates(b, |BRIEF_KINDS|));
            && OneEntryPerKind(r)
            && (forall c :: c in r ==> Usable(c) && c.kind != WhatsApp && c.kind != NoChannel)
            && (forall c :: c in r && !Placeless(c.kind) ==> c.url == CleanString(BriefValue(b, c.kind)) && Clean(c.url.value))
  {
    CandidatesOnce(b, |BRIEF_KINDS|);
    forall c | c in OnlyUsable(Candidates(b, |BRIEF_KINDS|))
      ensures c == Candidate(b, c.kind) && c.kind != WhatsApp && c.kind != NoChannel && CleanOption(c.url)
    {
      CandidateKinds(b, |BRIEF_KINDS|, c);
      CleanStringProjects(BriefValue(b, c.kind));
    }
  }

  /** The two placeless channels are always on offer. */
  lemma PlacelessAlwaysOffered(b: BriefContacts)
    ensures {Dm, LinkSticker} <= Kinds(OnlyUsable(Candidates(b, |BRIEF_KINDS|)))
  {
    CandidateListed(b, |BRIEF_KINDS|, 7);
    CandidateListed(b, |BRIEF_KINDS|, 8);
    assert BRIEF_KINDS[7] == Dm && BRIEF_KINDS[8] == LinkSticker;
    var r := OnlyUsable(Candidates(b, |BRIEF_KINDS|));
    assert Candidate(b, Dm) in r && Candidate(b, LinkSticker) in r;
  }

  /** The kind is on offer exactly if the value is filled, and then with that value only. */
  predicate OffersJust(channels: seq<Channel>, kind: Kind, value: Option<string>) {
    && (kind in Kinds(channels) <==> Filled(value))
    && forall c :: c in channels && c.kind == kind ==> c.url == value
  }

  lemma OfferedFromBrief(b: BriefContacts, k: nat)
    requires k < |BRIEF_KINDS|
    ensures var r := OnlyUsable(Candidates(b, |BRIEF_KINDS|)); var c := Candidate(b, BRIEF_KINDS[k]);
            && (c.kind in Kinds(r) <==> Usable(c)) && forall d :: d in r && d.kind == c.kind ==> d == c
  {
    var all := Candidates(b, |BRIEF_KINDS|);
    var c := Candidate(b, BRIEF_KINDS[k]);
    forall d | d in OnlyUsable(all) && d.kind == c.kind ensures d == c {
      CandidateKinds(b, |BRIEF_KINDS|, d);
    }
    if Usable(c) {
      if k > 0 {
        CandidateListed(b, |BRIEF_KINDS|, k);
      } else {
        FilledWebsite(b);
        WebsiteListed(b, |BRIEF_KINDS|);
      }
      assert c in OnlyUsable(all);
    }
  }

  lemma FilledWebsite(b: BriefContacts)
    requires Usable(Candidate(b, Website))
    ensures Filled(b.website)
  {
    EmptyIsNotClean();
  }

  lemma {:induction false} WebsiteListed(b: BriefContacts, n: nat)
    requires 1 <= n <= |BRIEF_KINDS| && Filled(b.website)
    ensures Candidate(b, Website) in Candidates(b, n)
  {
    if n > 1 {
      WebsiteListed(b, n - 1);
    }
  }

  lemma KindPosition(kind: Kind) returns (k: nat)
    requires !Placeless(kind) && kind != WhatsApp && kind != NoChannel
    ensures k < |BRIEF_KINDS| && BRIEF_KINDS[k] == kind
  {
    k := if kind == Website then 0 else if kind == InstagramProfile then 1 else if kind == Facebook then 2
         else if kind == TikTok then 3 else if kind == LinkedIn then 4 else if kind == Phone then 5 else 6;
  }

  lemma OffersField(b: BriefContacts, n: nat, r: seq<Channel>, kind: Kind)
    requires n == |BRIEF_KINDS| && r == OnlyUsable(Candidates(b, n))
    requires !Placeless(kind) && kind != WhatsApp && kind != NoChannel
    ensures OffersJust(r, kind, CleanString(BriefValue(b, kind)))
  {
    var k := KindPosition(kind);
    OfferedFromBrief(b, k);
  }

  /** What the brief offers, field by field: each contact with its cleaned value, if there is
      one, under the kind of that contact. */
  lemma BriefFieldsAreOffered(b: BriefContacts, n: nat, r: seq<Channel>, kind: Kind)
    requires n == |BRIEF_KINDS| && r == OnlyUsable(Candidates(b, n))
    ensures match kind
            case Website => OffersJust(r, kind, CleanString(b.website))
            case InstagramProfile => OffersJust(r, kind, CleanString(b.instagram))
            case Facebook => OffersJust(r, kind, CleanString(b.facebook))
            case TikTok => OffersJust(r, kind, CleanString(b.tiktok))
            case LinkedIn => OffersJust(r, kind, CleanString(b.linkedin))
            case Phone => OffersJust(r, kind, CleanString(b.phone))
            case Email => OffersJust(r, kind, CleanString(b.email))
            case _ => true
  {
    if !Placeless(kind) && kind != WhatsApp && kind != NoChannel {
      OffersField(b, n, r, kind);
    }
  }

  /** The hints that go with the contacts of the brief. */
  lemma BriefHints(b: BriefContacts, n: nat, c: Channel)
    requires n <= |BRIEF_KINDS| && c in Candidates(b, n)
    ensures c.kind == Website ==> c.hint == Some("Visita la web")
    ensures c.kind == InstagramProfile ==> c.hint == Some("Síguenos")
    ensures c.kind == Phone ==> c.hint == Some("Llámanos")
    ensures c.kind == Dm ==> c.hint == Some("Escríbenos por DM")
    ensures c.kind == LinkSticker ==> c.hint == Some("Toca el sticker")
    ensures c.kind in {Facebook, TikTok, LinkedIn, Email} ==> c.hint == None
  {
    CandidateKinds(b, n, c);
  }

  // ---- _apply_user_profile: channels ----

  /** The cleaned contact values of a user profile's identity. */
  datatype Profile = Profile(website: Option<string>, instagram: Option<string>, facebook: Option<string>,
                             tiktok: Option<string>, linkedin: Option<string>, phone: Option<string>,
                             email: Option<string>)

  const PROFILE_KINDS: seq<Kind> := [Website, InstagramProfile, Facebook, TikTok, LinkedIn, Phone, Email]

  function ProfileValue(p: Profile, kind: Kind): Option<string> {
    match kind
    case Website => p.website
    case InstagramProfile => p.instagram
    case Facebook => p.facebook
    case TikTok => p.tiktok
    case LinkedIn => p.linkedin
    case Phone => p.phone
    case Email => p.email
    case _ => None
  }

  function Overridden(c: Channel, p: Profile): Channel {
    if Filled(ProfileValue(p, c.kind)) then c.(url := ProfileValue(p, c.kind)) else c
  }

  function OverriddenAll(channels: seq<Channel>, p: Profile): (r: seq<Channel>)
    ensures |r| == |channels|
    ensures forall i :: 0 <= i < |r| ==> r[i] == Overridden(channels[i], p)
  {
    seq(|channels|, i requires 0 <= i < |channels| => Overridden(channels[i], p))
  }

  /** New entries for the profile values whose kind is not listed yet. */
  function ProfileOnly(p: Profile, listed: set<Kind>, n: nat): seq<Channel>
    requires n <= |PROFILE_KINDS|
  {
    if n == 0 then [] else
    var kind := PROFILE_KINDS[n - 1];
    ProfileOnly(p, listed, n - 1)
    + (if Filled(ProfileValue(p, kind)) && kind !in listed then [Channel(kind, ProfileValue(p, kind), None)] else [])
  }

  function Always(listed: set<Kind>): seq<Channel> {
    if Dm in listed then (if LinkSticker in listed then [] else [LinkStickerChannel()])
    else if LinkSticker in listed then [DmChannel()]
    else [DmChannel(), LinkStickerChannel()]
  }

  function Merged(channels: seq<Channel>, p: Profile): seq<Channel> {
    var listed := Kinds(channels);
    OnlyUsable(OverriddenAll(channels, p) + ProfileOnly(p, listed, |PROFILE_KINDS|) + Always(listed))
  }

  /** A profile without an identity leaves the channels alone. */
  function ApplyProfile(channels: seq<Channel>, identity: Option<Profile>): seq<Channel> {
    match identity
    case None => channels
    case Some(p) => Merged(channels, p)
  }

  method ApplyUserProfile(channels: seq<Channel>, identity: Option<Profile>) returns (r: seq<Channel>)
    ensures r == ApplyProfile(channels, identity)
  {
    if identity == None {
      return channels;
    }
    var p := identity.value;
    var merged, seenKinds := OverrideListed(channels, p);
    var added, more := AddUnlisted(p, seenKinds);
    merged, seenKinds := merged + added, seenKinds + more;
    if Dm !in seenKinds {
      merged := merged + [DmChannel()];
    }
    if LinkSticker !in seenKinds {
      merged := merged + [LinkStickerChannel()];
    }
    assert merged == OverriddenAll(channels, p) + added + Always(Kinds(channels));
    r := OnlyUsable(merged);
  }

  method OverrideListed(channels: seq<Channel>, p: Profile) returns (merged: seq<Channel>, seenKinds: set<Kind>)
    ensures merged == OverriddenAll(channels, p) && seenKinds == Kinds(channels)
  {
    merged, seenKinds := [], {};
    for i := 0 to |channels|
      invariant merged == OverriddenAll(channels, p)[..i] && seenKinds == Kinds(channels[..i])
    {
      merged := merged + [Overridden(channels[i], p)];
      seenKinds := seenKinds + {channels[i].kind};
      assert channels[..i + 1] == channels[..i] + [channels[i]];
    }
    assert channels[..|channels|] == channels;
  }

  method AddUnlisted(p: Profile, listed: set<Kind>) returns (added: seq<Channel>, kinds: set<Kind>)
    ensures added == ProfileOnly(p, listed, |PROFILE_KINDS|) && Dm !in kinds && LinkSticker !in kinds
  {
    added, kinds := [], {};
    for n := 0 to |PROFILE_KINDS|
      invariant added == ProfileOnly(p, listed, n)
      invariant forall kind :: kind in kinds ==> kind in PROFILE_KINDS[..n]
    {
      var kind := PROFILE_KINDS[n];
      assert kind !in PROFILE_KINDS[..n] && !Placeless(kind);
      assert PROFILE_KINDS[..n + 1] == PROFILE_KINDS[..n] + [kind];
      if Filled(ProfileValue(p, kind)) && kind !in listed + kinds {
        added := added + [Channel(kind, ProfileValue(p, kind), None)];
        kinds := kinds + {kind};
      }
    }
  }

  lemma {:induction false} ProfileOnlyMembers(p: Profile, listed: set<Kind>, n: nat)
    requires n <= |PROFILE_KINDS|
    ensures forall c :: c in ProfileOnly(p, listed, n) <==>
              c.kind in PROFILE_KINDS[..n] && c.kind !in listed && Filled(c.url)
              && c.url == ProfileValue(p, c.kind) && c.hint == None
    ensures OneEntryPerKind(ProfileOnly(p, listed, n))
  {
    if n > 0 {
      ProfileOnlyMembers(p, listed, n - 1);
      assert PROFILE_KINDS[..n] == PROFILE_KINDS[..n - 1] + [PROFILE_KINDS[n - 1]];
      assert PROFILE_KINDS[n - 1] !in PROFILE_KINDS[..n - 1];
    }
  }

  lemma OverriddenMembers(channels: seq<Channel>, p: Profile, c: Channel)
    ensures c in OverriddenAll(channels, p) <==> exists d :: d in channels && c == Overridden(d, p)
  {
    var over := OverriddenAll(channels, p);
    if d :| d in channels && c == Overridden(d, p) {
      var i :| 0 <= i < |channels| && channels[i] == d;
      assert over[i] == c;
    }
  }

  lemma MergedMembers(channels: seq<Channel>, p: Profile, c: Channel)
    ensures c in Merged(channels, p) <==>
            && Usable(c)
            && (|| (exists d :: d in channels && c == Overridden(d, p))
                || (c.kind in PROFILE_KINDS && c.kind !in Kinds(channels) && Filled(c.url)
                    && c.url == ProfileValue(p, c.kind) && c.hint == None)
                || (c.kind !in Kinds(channels) && (c == DmChannel() || c == LinkStickerChannel())))
  {
    OverriddenMembers(channels, p, c);
    ProfileOnlyMembers(p, Kinds(channels), |PROFILE_KINDS|);
    assert PROFILE_KINDS[..|PROFILE_KINDS|] == PROFILE_KINDS;
    assert c in Always(Kinds(channels)) <==> c.kind !in Kinds(channels) && (c == DmChannel() || c == LinkStickerChannel());
  }

  /** Every kind with a non-empty profile value carries exactly that value, and every
      other entry is the brief's own or one of the two that are always there. */
  lemma ProfileTakesPrecedence(channels: seq<Channel>, p: Profile, c: Channel)
    requires c in Merged(channels, p)
    ensures Usable(c)
    ensures Filled(ProfileValue(p, c.kind)) ==> c.url == ProfileValue(p, c.kind)
    ensures !Filled(ProfileValue(p, c.kind)) ==>
              c in channels || (c.kind !in Kinds(channels) && (c == DmChannel() || c == LinkStickerChannel()))
    ensures c.kind in Kinds(channels) ==> exists d :: d in channels && d.kind == c.kind && d.hint == c.hint
    ensures c.kind !in Kinds(channels) && !Placeless(c.kind) ==> c.hint == None
  {
    MergedMembers(channels, p, c);
    if d :| d in channels && c == Overridden(d, p) {
      assert d.kind == c.kind && d.hint == c.hint;
    }
  }

  lemma MergedKindsOnly(channels: seq<Channel>, p: Profile, c: Channel)
    requires c in Merged(channels, p)
    ensures Placeless(c.kind) || Filled(ProfileValue(p, c.kind)) || exists d :: d in channels && d.kind == c.kind && Usable(d)
  {
    MergedMembers(channels, p, c);
  }

  lemma ListedKindIsMerged(channels: seq<Channel>, p: Profile, d: Channel)
    requires d in channels && (Usable(d) || Filled(ProfileValue(p, d.kind)))
    ensures d.kind in Kinds(Merged(channels, p))
  {
    MergedMembers(channels, p, Overridden(d, p));
    assert Overridden(d, p) in Merged(channels, p);
  }

  lemma UnlistedKindIsMerged(channels: seq<Channel>, p: Profile, kind: Kind)
    requires kind !in Kinds(channels) && (Placeless(kind) || Filled(ProfileValue(p, kind)))
    ensures kind in Kinds(Merged(channels, p))
  {
    var c := if kind == Dm then DmChannel() else if kind == LinkSticker then LinkStickerChannel()
             else Channel(kind, ProfileValue(p, kind), None);
    assert Filled(ProfileValue(p, kind)) ==>
      || kind == PROFILE_KINDS[0] || kind == PROFILE_KINDS[1] || kind == PROFILE_KINDS[2] || kind == PROFILE_KINDS[3]
      || kind == PROFILE_KINDS[4] || kind == PROFILE_KINDS[5] || kind == PROFILE_KINDS[6];
    MergedMembers(channels, p, c);
    assert c in Merged(channels, p);
  }

  /** The kinds are those of the usable entries, those of the profile, and the two
      channels that are always there. */
  lemma MergedKinds(channels: seq<Channel>, p: Profile, kind: Kind)
    ensures kind in Kinds(Merged(channels, p)) <==>
            || Placeless(kind)
            || Filled(ProfileValue(p, kind))
            || (exists c :: c in channels && c.kind == kind && Usable(c))
  {
    if c :| c in Merged(channels, p) && c.kind == kind {
      MergedKindsOnly(channels, p, c);
    }
    if d :| d in channels && d.kind == kind && (Usable(d) || Filled(ProfileValue(p, kind))) {
      ListedKindIsMerged(channels, p, d);
    } else if kind !in Kinds(channels) && (Placeless(kind) || Filled(ProfileValue(p, kind))) {
      UnlistedKindIsMerged(channels, p, kind);
    }
  }

  lemma ConcatPerKind(a: seq<Channel>, b: seq<Channel>)
    requires OneEntryPerKind(a) && OneEntryPerKind(b)
    requires ApartKinds(a, b)
    ensures OneEntryPerKind(a + b)
  {
  }

  /** No entry of one list has the kind of an entry of the other. */
  ghost predicate ApartKinds(a: seq<Channel>, b: seq<Channel>) {
    forall i, j :: 0 <= i < |a| && 0 <= j < |b| ==> a[i].kind != b[j].kind
  }

  lemma OverriddenKinds(channels: seq<Channel>, p: Profile, i: int)
    requires 0 <= i < |channels|
    ensures OverriddenAll(channels, p)[i].kind in Kinds(channels)
  {
    assert channels[i] in channels;
  }

  lemma AddedKinds(p: Profile, listed: set<Kind>, n: nat, j: int)
    requires n <= |PROFILE_KINDS| && 0 <= j < |ProfileOnly(p, listed, n)|
    ensures ProfileOnly(p, listed, n)[j].kind !in listed && !Placeless(ProfileOnly(p, listed, n)[j].kind)
  {
    var added := ProfileOnly(p, listed, n);
    ProfileOnlyMembers(p, listed, n);
    assert added[j] in added;
  }

  lemma AddedApart(channels: seq<Channel>, p: Profile, n: nat)
    requires n <= |PROFILE_KINDS|
    ensures ApartKinds(OverriddenAll(channels, p), ProfileOnly(p, Kinds(channels), n))
  {
    var over, added := OverriddenAll(channels, p), ProfileOnly(p, Kinds(channels), n);
    forall i, j | 0 <= i < |over| && 0 <= j < |added| ensures over[i].kind != added[j].kind {
      OverriddenKinds(channels, p, i);
      AddedKinds(p, Kinds(channels), n, j);
    }
  }

  lemma AlwaysApart(channels: seq<Channel>, p: Profile)
    ensures ApartKinds(OverriddenAll(channels, p), Always(Kinds(channels)))
  {
    var over, always := OverriddenAll(channels, p), Always(Kinds(channels));
    forall i, j | 0 <= i < |over| && 0 <= j < |always| ensures over[i].kind != always[j].kind {
      OverriddenKinds(channels, p, i);
      AlwaysPerKind(Kinds(channels));
    }
  }

  lemma AddedAndAlwaysApart(p: Profile, listed: set<Kind>, n: nat)
    requires n <= |PROFILE_KINDS|
    ensures ApartKinds(ProfileOnly(p, listed, n), Always(listed))
  {
    var added, always := ProfileOnly(p, listed, n), Always(listed);
    AlwaysPerKind(listed);
    forall i, j | 0 <= i < |added| && 0 <= j < |always| ensures added[i].kind != always[j].kind {
      AddedKinds(p, listed, n, i);
    }
  }

  lemma AlwaysPerKind(listed: set<Kind>)
    ensures OneEntryPerKind(Always(listed))
    ensures forall j :: 0 <= j < |Always(listed)| ==> Placeless(Always(listed)[j].kind) && Always(listed)[j].kind !in listed
  {
  }

  lemma ConcatThree(a: seq<Channel>, b: seq<Channel>, c: seq<Channel>)
    requires OneEntryPerKind(a) && OneEntryPerKind(b) && OneEntryPerKind(c)
    requires ApartKinds(a, b) && ApartKinds(a, c) && ApartKinds(b, c)
    ensures OneEntryPerKind(a + b + c)
  {
    ConcatPerKind(a, b);
    ConcatPerKind(a + b, c);
  }

  lemma AllPartsPerKind(channels: seq<Channel>, p: Profile, n: nat)
    requires OneEntryPerKind(channels) && n <= |PROFILE_KINDS|
    ensures OneEntryPerKind(OverriddenAll(channels, p) + ProfileOnly(p, Kinds(channels), n) + Always(Kinds(channels)))
  {
    var listed := Kinds(channels);
    var over, added, always := OverriddenAll(channels, p), ProfileOnly(p, listed, n), Always(listed);
    ProfileOnlyMembers(p, listed, n);
    AlwaysPerKind(listed);
    AddedApart(channels, p, n);
    AlwaysApart(channels, p);
    AddedAndAlwaysApart(p, listed, n);
    ConcatThree(over, added, always);
  }

  /** A filled value is on offer under the kind, and is the only one. */
  predicate Prevails(channels: seq<Channel>, kind: Kind, value: Option<string>) {
    Filled(value) ==> kind in Kinds(channels) && forall c :: c in channels && c.kind == kind ==> c.url == value
  }

  lemma ProfilePrevails(channels: seq<Channel>, p: Profile, kind: Kind)
    ensures Prevails(Merged(channels, p), kind, ProfileValue(p, kind))
  {
    MergedKinds(channels, p, kind);
    forall c | c in Merged(channels, p) && c.kind == kind ensures Filled(ProfileValue(p, kind)) ==> c.url == ProfileValue(p, kind) {
      ProfileTakesPrecedence(channels, p, c);
    }
  }

  /** Which value of the profile prevails for which kind. */
  lemma ProfileFieldsPrevail(channels: seq<Channel>, p: Profile, m: seq<Channel>, kind: Kind)
    requires m == Merged(channels, p)
    ensures match kind
            case Website => Prevails(m, kind, p.website)
            case InstagramProfile => Prevails(m, kind, p.instagram)
            case Facebook => Prevails(m, kind, p.facebook)
            case TikTok => Prevails(m, kind, p.tiktok)
            case LinkedIn => Prevails(m, kind, p.linkedin)
            case Phone => Prevails(m, kind, p.phone)
            case Email => Prevails(m, kind, p.email)
            case _ => true
  {
    ProfilePrevails(channels, p, kind);
  }

  /** Entries of the kinds that a profile does not have stay as they are. */
  lemma OtherKindsStay(channels: seq<Channel>, p: Profile, c: Channel)
    requires c.kind in {WhatsApp, Dm, LinkSticker, NoChannel} && c in channels && Usable(c)
    ensures c in Merged(channels, p)
  {
    assert Overridden(c, p) == c;
    OverriddenMembers(channels, p, c);
    var over, more := OverriddenAll(channels, p), ProfileOnly(p, Kinds(channels), |PROFILE_KINDS|);
    assert c in over + more;
    assert c in (over + more) + Always(Kinds(channels));
  }

  /** One entry per kind in, one entry per kind out, the existing ones first and in order. */
  lemma MergeKeepsKindsApart(channels: seq<Channel>, p: Profile)
    requires OneEntryPerKind(channels)
    ensures OneEntryPerKind(Merged(channels, p))
    ensures OnlyUsable(OverriddenAll(channels, p)) <= Merged(channels, p)
  {
    var listed := Kinds(channels);
    var over, added, always := OverriddenAll(channels, p), ProfileOnly(p, listed, |PROFILE_KINDS|), Always(listed);
    AllPartsPerKind(channels, p, |PROFILE_KINDS|);
    OnlyUsablePrefix(over, added);
    OnlyUsablePrefix(over + added, always);
  }

  lemma {:induction false} OnlyUsablePrefix(a: seq<Channel>, b: seq<Channel>)
    ensures OnlyUsable(a) <= OnlyUsable(a + b)
  {
    if b == [] {
      assert a + b == a;
    } else {
      OnlyUsablePrefix(a, b[..|b| - 1]);
      assert (a + b)[..|a + b| - 1] == a + b[..|b| - 1];
    }
  }

  lemma {:induction false} NothingToAdd(p: Profile, listed: set<Kind>, n: nat)
    requires n <= |PROFILE_KINDS|
    requires forall kind :: Filled(ProfileValue(p, kind)) ==> kind in listed
    ensures ProfileOnly(p, listed, n) == []
  {
    if n > 0 {
      NothingToAdd(p, listed, n - 1);
    }
  }

  /** Applying the same profile again changes nothing. */
  lemma MergeIsIdempotent(channels: seq<Channel>, p: Profile)
    ensures Merged(Merged(channels, p), p) == Merged(channels, p)
  {
    var m := Merged(channels, p);
    forall i | 0 <= i < |m| ensures Overridden(m[i], p) == m[i] {
      ProfileTakesPrecedence(channels, p, m[i]);
    }
    forall kind ensures Placeless(kind) || Filled(ProfileValue(p, kind)) ==> kind in Kinds(m) {
      MergedKinds(channels, p, kind);
    }
    MergeFixpoint(m, p);
  }

  /** A list is left alone when it is usable, agrees with the profile and lists every kind
      the merge would add. */
  lemma MergeFixpoint(m: seq<Channel>, p: Profile)
    requires forall i :: 0 <= i < |m| ==> Overridden(m[i], p) == m[i]
    requires forall kind :: Placeless(kind) || Filled(ProfileValue(p, kind)) ==> kind in Kinds(m)
    requires forall c :: c in m ==> Usable(c)
    ensures Merged(m, p) == m
  {
    assert OverriddenAll(m, p) == m;
    NothingToAdd(p, Kinds(m), |PROFILE_KINDS|);
    assert Always(Kinds(m)) == [];
    assert m + [] + [] == m;
  }

  // ---- _validate_cta ----

  datatype Cta = Cta(kind: Kind, url: Option<string>)

  datatype Warning = ChannelInvalid | UrlInvalid

  /** `urlparse`: it raises on some inputs, such as an unclosed IPv6 bracket. */
  datatype ParsedUrl = Malformed | Parsed(scheme: string, netloc: string)

  datatype CtaError = UrlParseError

  /** The non-empty values on offer for a kind. */
  function Offered(channels: seq<Channel>, kind: Kind): set<string> {
    set c | c in channels && c.kind == kind && Filled(c.url) :: c.url.value
  }

  predicate OffersPhone(channels: seq<Channel>, kind: Kind, url: string) {
    NormalizePhone(url) in (set x | x in Offered(channels, kind) :: NormalizePhone(x))
  }

  predicate OffersFolded(channels: seq<Channel>, kind: Kind, url: string) {
    Lower(url) in (set x | x in Offered(channels, kind) :: Lower(x))
  }

  predicate WebAddress(parsed: ParsedUrl) {
    parsed.Parsed? && parsed.scheme in {"http", "https"} && parsed.netloc != ""
  }

  /** A call to action one may publish, stated without reference to the algorithm. */
  predicate Legal(cta: Cta, channels: seq<Channel>, parse: string -> ParsedUrl) {
    match cta.kind
    case NoChannel => cta.url == None
    case Dm => Dm in Kinds(channels) && cta.url == None
    case LinkSticker => LinkSticker in Kinds(channels) && cta.url == None
    case Phone => Filled(cta.url) && OffersPhone(channels, Phone, cta.url.value)
    case WhatsApp => Filled(cta.url) && OffersPhone(channels, WhatsApp, cta.url.value)
    case kind =>
      && cta.url.Some?
      && OffersFolded(channels, kind, cta.url.value)
      && parse(cta.url.value).Parsed?
      && (kind == Website ==> WebAddress(parse(cta.url.value)))
  }

  const NO_CTA: Cta := Cta(NoChannel, None)

  function Validated(cta: Cta, channels: seq<Channel>, parse: string -> ParsedUrl): Result<(Cta, seq<Warning>), CtaError> {
    if cta.kind == NoChannel then Ok((NO_CTA, []))
    else if cta.kind !in Kinds(channels) then Ok((NO_CTA, [ChannelInvalid]))
    else if Placeless(cta.kind) then Ok((cta.(url := None), []))
    else if cta.kind in {Phone, WhatsApp} && Filled(cta.url) then
      if OffersPhone(channels, cta.kind, cta.url.value) then Ok((cta, [])) else Ok((NO_CTA, [ChannelInvalid]))
    else if cta.url == None then Ok((NO_CTA, [ChannelInvalid]))
    else if !OffersFolded(channels, cta.kind, cta.url.value) then Ok((NO_CTA, [ChannelInvalid]))
    else
      var parsed := parse(cta.url.value);
      if parsed.Malformed? then Raised(UrlParseError)
      else if cta.kind == Website && !WebAddress(parsed) then Ok((NO_CTA, [UrlInvalid]))
      else Ok((cta, []))
  }

  class CallToAction {
    var kind: Kind
    var url: Option<string>

    function Value(): Cta
      reads this
    {
      Cta(kind, url)
    }

    /** `_validate_cta`, which overwrites the object it is given. */
    method Validate(channels: seq<Channel>, parse: string -> ParsedUrl) returns (outcome: Result<seq<Warning>, CtaError>)
      modifies this
      ensures match Validated(old(Value()), channels, parse)
              case Ok((cta, warnings)) => Value() == cta && outcome == Ok(warnings)
              case Raised(e) => Value() == old(Value()) && outcome == Raised(e)
    {
      outcome := Ok([]);
      if kind == NoChannel {
        url := None;
        return;
      }
      if kind !in Kinds(channels) {
        Reject();
        return Ok([ChannelInvalid]);
      }
      if Placeless(kind) {
        url := None;
        return;
      }
      if kind in {Phone, WhatsApp} && Filled(url) {
        if !OffersPhone(channels, kind, url.value) {
          Reject();
          outcome := Ok([ChannelInvalid]);
        }
        return;
      }
      if url == None {
        kind := NoChannel;
        return Ok([ChannelInvalid]);
      }
      if !OffersFolded(channels, kind, url.value) {
        Reject();
        return Ok([ChannelInvalid]);
      }
      var parsed := parse(url.value);
      if parsed.Malformed? {
        return Raised(UrlParseError);
      }
      if kind == Website && !WebAddress(parsed) {
        Reject();
        outcome := Ok([UrlInvalid]);
      }
    }

    method Reject()
      modifies this
      ensures Value() == NO_CTA
    {
      kind, url := NoChannel, None;
    }
  }

  /** What it means to be on offer: a filled entry of the kind reads the same, a phone number
      as it is dialled, anything else in lower case. */
  lemma OffersMean(channels: seq<Channel>, kind: Kind, url: string)
    ensures OffersPhone(channels, kind, url) <==>
            exists c :: c in channels && c.kind == kind && Filled(c.url) && NormalizePhone(c.url.value) == NormalizePhone(url)
    ensures OffersFolded(channels, kind, url) <==>
            exists c :: c in channels && c.kind == kind && Filled(c.url) && Lower(c.url.value) == Lower(url)
  {
    if OffersPhone(channels, kind, url) {
      var x :| x in Offered(channels, kind) && NormalizePhone(x) == NormalizePhone(url);
      var c :| c in channels && c.kind == kind && Filled(c.url) && c.url.value == x;
    }
    if OffersFolded(channels, kind, url) {
      var x :| x in Offered(channels, kind) && Lower(x) == Lower(url);
      var c :| c in channels && c.kind == kind && Filled(c.url) && c.url.value == x;
    }
    forall c | c in channels && c.kind == kind && Filled(c.url) ensures c.url.value in Offered(channels, kind) {
    }
  }

  /** Validation projects onto the legal calls to action: what it returns is legal, and a
      call to action passes unchanged and without a warning exactly when it is legal. */
  lemma ValidationProjects(cta: Cta, channels: seq<Channel>, parse: string -> ParsedUrl)
    ensures Validated(cta, channels, parse).Ok? ==> Legal(Validated(cta, channels, parse).value.0, channels, parse)
    ensures Validated(cta, channels, parse) == Ok((cta, [])) <==> Legal(cta, channels, parse)
    ensures Validated(cta, channels, parse).Ok? && !Legal(cta, channels, parse) ==>
              Validated(cta, channels, parse).value.0.kind in {NoChannel, Dm, LinkSticker}
  {
    if Legal(cta, channels, parse) && cta.kind != NoChannel && !Placeless(cta.kind) {
      var x :| x in Offered(channels, cta.kind);
      var c :| c in channels && c.kind == cta.kind && Filled(c.url) && c.url.value == x;
      assert cta.kind in Kinds(channels);
    }
  }

  /** Which calls to action with a target pass unchanged and without a warning: those to a phone
      number or another value that is on offer, which can be parsed, and which for a website
      is a web address. */
  lemma TargetPassesIff(cta: Cta, channels: seq<Channel>, parse: string -> ParsedUrl)
    requires cta.kind !in {NoChannel, Dm, LinkSticker} && cta.url.Some?
    ensures Validated(cta, channels, parse) == Ok((cta, [])) <==>
            var url := cta.url.value;
            if cta.kind == Phone || cta.kind == WhatsApp then
              url != "" && exists c :: c in channels && c.kind == cta.kind && Filled(c.url)
                                       && NormalizePhone(c.url.value) == NormalizePhone(url)
            else
              && (exists c :: c in channels && c.kind == cta.kind && Filled(c.url) && Lower(c.url.value) == Lower(url))
              && parse(url).Parsed?
              && (cta.kind == Website ==> (parse(url).scheme == "http" || parse(url).scheme == "https") && parse(url).netloc != "")
  {
    ValidationProjects(cta, channels, parse);
    OffersMean(channels, cta.kind, cta.url.value);
  }

  lemma ValidationIsIdempotent(cta: Cta, channels: seq<Channel>, parse: string -> ParsedUrl)
    requires Validated(cta, channels, parse).Ok?
    ensures var r := Validated(cta, channels, parse).value.0; Validated(r, channels, parse) == Ok((r, []))
  {
    ValidationProjects(cta, channels, parse);
    ValidationProjects(Validated(cta, channels, parse).value.0, channels, parse);
  }

  /** Validation raises exactly on an offered non-phone value that `urlparse` rejects. */
  lemma ValidationRaisesIff(cta: Cta, channels: seq<Channel>, parse: string -> ParsedUrl)
    ensures Validated(cta, channels, parse).Raised? <==>
            && cta.kind !in {NoChannel, Dm, LinkSticker}
            && (cta.kind in {Phone, WhatsApp} ==> !Filled(cta.url))
            && cta.url.Some?
            && OffersFolded(channels, cta.kind, cta.url.value)
            && parse(cta.url.value).Malformed?
  {
    if cta.url.Some? && OffersFolded(channels, cta.kind, cta.url.value) {
      var x :| x in Offered(channels, cta.kind);
      var c :| c in channels && c.kind == cta.kind && Filled(c.url) && c.url.value == x;
      assert cta.kind in Kinds(channels);
    }
  }

  lemma OnlyProfileValueIsOffered(channels: seq<Channel>, p: Profile, kind: Kind)
    requires Filled(ProfileValue(p, kind))
    ensures kind in Kinds(Merged(channels, p))
    ensures forall x :: x in Offered(Merged(channels, p), kind) ==> x == ProfileValue(p, kind).value
  {
    var m := Merged(channels, p);
    MergedKinds(channels, p, kind);
    forall x | x in Offered(m, kind) ensures x == ProfileValue(p, kind).value {
      var c :| c in m && c.kind == kind && Filled(c.url) && c.url.value == x;
      ProfileTakesPrecedence(channels, p, c);
    }
  }

  lemma UnmatchedIsRejected(cta: Cta, channels: seq<Channel>, value: string, parse: string -> ParsedUrl)
    requires !Placeless(cta.kind) && cta.kind !in {NoChannel, WhatsApp} && cta.url.Some? && cta.kind in Kinds(channels)
    requires forall x :: x in Offered(channels, cta.kind) ==> x == value
    requires Lower(cta.url.value) != Lower(value)
    requires cta.kind == Phone ==> NormalizePhone(cta.url.value) != NormalizePhone(value)
    ensures Validated(cta, channels, parse) == Ok((NO_CTA, [ChannelInvalid]))
  {
  }

  /** Once a profile value has superseded the brief's, a target that does not match the
      profile value is never published for that channel. */
  lemma SupersededTargetIsRejected(channels: seq<Channel>, p: Profile, cta: Cta, parse: string -> ParsedUrl)
    requires Filled(ProfileValue(p, cta.kind)) && cta.url.Some?
    requires Lower(cta.url.value) != Lower(ProfileValue(p, cta.kind).value)
    requires cta.kind == Phone ==> NormalizePhone(cta.url.value) != NormalizePhone(ProfileValue(p, cta.kind).value)
    ensures Validated(cta, Merged(channels, p), parse) == Ok((NO_CTA, [ChannelInvalid]))
  {
    OnlyProfileValueIsOffered(channels, p, cta.kind);
    UnmatchedIsRejected(cta, Merged(channels, p), ProfileValue(p, cta.kind).value, parse);
  }
}
