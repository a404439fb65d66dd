/**
 * What the update check guarantees, stated over the channels and builds it
 * is given rather than over its internal candidate list.
 */
module SelectionProperties {
  import opened Optional
  import opened BuildNumbers
  import opened UpdatesInfo
  import opened ChannelPolicy
  import opened UpdateStrategy

  // ----- where each (channel, build) pair lands in the candidate list -----

  lemma {:induction false} OffersPrefix(current: BuildNumber, ignored: seq<BuildNumber>, ch: Channel, bs: seq<Build>, m: nat)
    requires m <= |bs|
    ensures Offers(current, ignored, ch, bs[..m]) <= Offers(current, ignored, ch, bs)
    decreases |bs|
  {
    if m < |bs| {
      var init := bs[..|bs| - 1];
      assert init[..m] == bs[..m];
      OffersPrefix(current, ignored, ch, init, m);
    } else {
      assert bs[..m] == bs;
    }
  }

  lemma OffersStep(current: BuildNumber, ignored: seq<BuildNumber>, ch: Channel, bs: seq<Build>, m: nat)
    requires m < |bs|
    ensures Offers(current, ignored, ch, bs[..m + 1]) == Offers(current, ignored, ch, bs[..m]) +
      (if IsApplicable(current, ignored, bs[m]) then [Candidate(bs[m], ch)] else [])
  {
    assert bs[..m + 1][..m] == bs[..m];
  }

  lemma OffersAt(current: BuildNumber, ignored: seq<BuildNumber>, ch: Channel, bs: seq<Build>, m: nat, m': nat)
    requires m < m' <= |bs| && IsApplicable(current, ignored, bs[m])
    ensures |Offers(current, ignored, ch, bs[..m])| < |Offers(current, ignored, ch, bs[..m'])|
    ensures Offers(current, ignored, ch, bs[..m'])[|Offers(current, ignored, ch, bs[..m])|] == Candidate(bs[m], ch)
  {
    OffersStep(current, ignored, ch, bs, m);
    OffersPrefix(current, ignored, ch, bs[..m'], m + 1);
    assert bs[..m'][..m + 1] == bs[..m + 1];
  }

  lemma {:induction false} OffersInverse(current: BuildNumber, ignored: seq<BuildNumber>, ch: Channel, bs: seq<Build>, j: nat) returns (m: nat)
    requires j < |Offers(current, ignored, ch, bs)|
    ensures m < |bs| && IsApplicable(current, ignored, bs[m])
    ensures |Offers(current, ignored, ch, bs[..m])| == j
    decreases |bs|
  {
    var init := bs[..|bs| - 1];
    if j < |Offers(current, ignored, ch, init)| {
      m := OffersInverse(current, ignored, ch, init, j);
      assert init[..m] == bs[..m];
    } else {
      m := |bs| - 1;
      assert bs[..m] == init;
    }
  }

  lemma {:induction false} CandidatesPrefix(current: BuildNumber, ignored: seq<BuildNumber>, chs: seq<Channel>, k: nat)
    requires k <= |chs|
    ensures Candidates(current, ignored, chs[..k]) <= Candidates(current, ignored, chs)
    decreases |chs|
  {
    if k < |chs| {
      var init := chs[..|chs| - 1];
      assert init[..k] == chs[..k];
      CandidatesPrefix(current, ignored, init, k);
    } else {
      assert chs[..k] == chs;
    }
  }

  /** Index in the candidate list of build `m` of channel `k`, when that build is applicable. */
  function Position(current: BuildNumber, ignored: seq<BuildNumber>, chs: seq<Channel>, k: nat, m: nat): nat
    requires k < |chs| && m <= |chs[k].builds|
  {
    |Candidates(current, ignored, chs[..k])| + |Offers(current, ignored, chs[k], chs[k].builds[..m])|
  }

  lemma PositionBound(current: BuildNumber, ignored: seq<BuildNumber>, chs: seq<Channel>, k: nat, m: nat)
    requires k < |chs| && m <= |chs[k].builds|
    ensures Position(current, ignored, chs, k, m) <= |Candidates(current, ignored, chs[..k + 1])|
    ensures Candidates(current, ignored, chs[..k + 1]) ==
      Candidates(current, ignored, chs[..k]) + Offers(current, ignored, chs[k], chs[k].builds)
  {
    var bs := chs[k].builds;
    assert chs[..k + 1][..k] == chs[..k];
    OffersPrefix(current, ignored, chs[k], bs, m);
  }

  lemma PositionAt(current: BuildNumber, ignored: seq<BuildNumber>, chs: seq<Channel>, k: nat, m: nat)
    requires k < |chs| && m < |chs[k].builds| && IsApplicable(current, ignored, chs[k].builds[m])
    ensures Position(current, ignored, chs, k, m) < |Candidates(current, ignored, chs)|
    ensures Candidates(current, ignored, chs)[Position(current, ignored, chs, k, m)] == Candidate(chs[k].builds[m], chs[k])
  {
    var bs := chs[k].builds;
    assert bs[..|bs|] == bs;
    OffersAt(current, ignored, chs[k], bs, m, |bs|);
    PositionBound(current, ignored, chs, k, m);
    CandidatesPrefix(current, ignored, chs, k + 1);
  }

  lemma PositionBefore(current: BuildNumber, ignored: seq<BuildNumber>, chs: seq<Channel>, k': nat, m': nat, k: nat, m: nat)
    requires k' < |chs| && m' < |chs[k'].builds| && k < |chs| && m < |chs[k].builds|
    requires k' < k || (k' == k && m' < m)
    requires IsApplicable(current, ignored, chs[k'].builds[m'])
    ensures Position(current, ignored, chs, k', m') < Position(current, ignored, chs, k, m)
  {
    if k' == k {
      OffersAt(current, ignored, chs[k], chs[k].builds, m', m);
    } else {
      var bs := chs[k'].builds;
      assert bs[..|bs|] == bs;
      OffersAt(current, ignored, chs[k'], bs, m', |bs|);
      PositionBound(current, ignored, chs, k', m');
      CandidatesPrefix(current, ignored, chs[..k], k' + 1);
      assert chs[..k][..k' + 1] == chs[..k' + 1];
    }
  }

  lemma {:induction false} CandidatesInverse(current: BuildNumber, ignored: seq<BuildNumber>, chs: seq<Channel>, j: nat) returns (k: nat, m: nat)
    requires j < |Candidates(current, ignored, chs)|
    ensures k < |chs| && m < |chs[k].builds| && IsApplicable(current, ignored, chs[k].builds[m])
    ensures Position(current, ignored, chs, k, m) == j
    decreases |chs|
  {
    var init := chs[..|chs| - 1];
    if j < |Candidates(current, ignored, init)| {
      k, m := CandidatesInverse(current, ignored, init, j);
      assert init[..k] == chs[..k];
    } else {
      k := |chs| - 1;
      assert chs[..k] == init;
      m := OffersInverse(current, ignored, chs[k], chs[k].builds, j - |Candidates(current, ignored, init)|);
    }
  }

  // ----- the selection, stated over the scanned channels -----

  /** No scanned channel offers an applicable build. */
  predicate NothingOffered(current: BuildNumber, ignored: seq<BuildNumber>, chs: seq<Channel>) {
    forall k, m :: 0 <= k < |chs| && 0 <= m < |chs[k].builds| ==> !IsApplicable(current, ignored, chs[k].builds[m])
  }

  /**
   * Build `m` of channel `k` is applicable, nothing applicable outranks it,
   * and it outranks every applicable build scanned before it.
   */
  predicate IsBestOffer(current: BuildNumber, ignored: seq<BuildNumber>, chs: seq<Channel>, k: nat, m: nat) {
    k < |chs| && m < |chs[k].builds| && IsApplicable(current, ignored, chs[k].builds[m]) &&
    (forall k', m' :: 0 <= k' < |chs| && 0 <= m' < |chs[k'].builds| && IsApplicable(current, ignored, chs[k'].builds[m']) ==>
      !Outranks(current, chs[k'].builds[m'].number, chs[k].builds[m].number)) &&
    (forall k', m' ::
      (0 <= k' < |chs| && 0 <= m' < |chs[k'].builds| && (k' < k || (k' == k && m' < m)) &&
       IsApplicable(current, ignored, chs[k'].builds[m'])) ==>
      Outranks(current, chs[k].builds[m].number, chs[k'].builds[m'].number))
  }

  /**
   * The update check returns nothing exactly when no scanned channel offers
   * an applicable build, and otherwise the best offer of the scan and the
   * channel it came from.
   */
  lemma CheckForUpdatesSelects(current: BuildNumber, settings: UserUpdateSettings, channels: seq<Channel>) returns (k: nat, m: nat)
    ensures CheckForUpdates(current, settings, channels).newBuild.None? <==>
      NothingOffered(current, settings.ignoredBuildNumbers, OrderedChannels(settings.selectedChannelStatus, channels))
    ensures CheckForUpdates(current, settings, channels).newBuild.Some? ==>
      var s := OrderedChannels(settings.selectedChannelStatus, channels);
      IsBestOffer(current, settings.ignoredBuildNumbers, s, k, m) &&
      CheckForUpdates(current, settings, channels).newBuild == Some(s[k].builds[m]) &&
      CheckForUpdates(current, settings, channels).updatedChannel == Some(s[k])
  {
    var s := OrderedChannels(settings.selectedChannelStatus, channels);
    var ignored := settings.ignoredBuildNumbers;
    var cands := Candidates(current, ignored, s);
    if cands == [] {
      k, m := 0, 0;
      forall k', m' | 0 <= k' < |s| && 0 <= m' < |s[k'].builds| ensures !IsApplicable(current, ignored, s[k'].builds[m']) {
        if IsApplicable(current, ignored, s[k'].builds[m']) {
          PositionAt(current, ignored, s, k', m');
        }
      }
    } else {
      var i := PickSpec(current, cands);
      k, m := CandidatesInverse(current, ignored, s, i);
      PositionAt(current, ignored, s, k, m);
      var chosen := s[k].builds[m].number;
      forall k', m' | 0 <= k' < |s| && 0 <= m' < |s[k'].builds| && IsApplicable(current, ignored, s[k'].builds[m'])
        ensures !Outranks(current, s[k'].builds[m'].number, chosen)
      {
        PositionAt(current, ignored, s, k', m');
      }
      forall k', m' | 0 <= k' < |s| && 0 <= m' < |s[k'].builds| && (k' < k || (k' == k && m' < m)) &&
        IsApplicable(current, ignored, s[k'].builds[m'])
        ensures Outranks(current, chosen, s[k'].builds[m'].number)
      {
        PositionAt(current, ignored, s, k', m');
        PositionBefore(current, ignored, s, k', m', k, m);
      }
    }
  }

  // ----- the guarantees, stated over the product's channels in document order -----

  lemma ScannedIndex(current: BuildNumber, settings: UserUpdateSettings, channels: seq<Channel>, ch: Channel, b: Build)
    returns (k: nat, m: nat)
    requires ch in channels && IsEligible(settings.selectedChannelStatus, ch.status) && b in ch.builds
    ensures var s := OrderedChannels(settings.selectedChannelStatus, channels);
      k < |s| && s[k] == ch && m < |ch.builds| && ch.builds[m] == b
  {
    var s := OrderedChannels(settings.selectedChannelStatus, channels);
    OrderedChannelsSpec(settings.selectedChannelStatus, channels);
    k :| 0 <= k < |s| && s[k] == ch;
    m :| 0 <= m < |ch.builds| && ch.builds[m] == b;
  }

  /**
   * A selected build comes from an eligible channel of the product, is one
   * of that channel's builds, is strictly newer than the running build, is
   * not ignored, and its target range admits the running build.
   */
  lemma SelectedUpdateIsSafe(current: BuildNumber, settings: UserUpdateSettings, channels: seq<Channel>)
    ensures var r := CheckForUpdates(current, settings, channels);
      r.newBuild.Some? ==>
        r.updatedChannel.value in channels &&
        IsEligible(settings.selectedChannelStatus, r.updatedChannel.value.status) &&
        r.newBuild.value in r.updatedChannel.value.builds &&
        Newer(r.newBuild.value.number, current) &&
        r.newBuild.value.number !in settings.ignoredBuildNumbers &&
        InTargetRange(current, r.newBuild.value)
  {
    var k, m := CheckForUpdatesSelects(current, settings, channels);
    OrderedChannelsSpec(settings.selectedChannelStatus, channels);
    var s := OrderedChannels(settings.selectedChannelStatus, channels);
    if CheckForUpdates(current, settings, channels).newBuild.Some? {
      assert s[k] in s;
    }
  }

  /** Nothing is selected exactly when no eligible channel has an applicable build. */
  lemma NoUpdateIffNothingApplicable(current: BuildNumber, settings: UserUpdateSettings, channels: seq<Channel>)
    ensures CheckForUpdates(current, settings, channels).newBuild.None? <==>
      forall ch, b :: ch in channels && IsEligible(settings.selectedChannelStatus, ch.status) && b in ch.builds ==>
        !IsApplicable(current, settings.ignoredBuildNumbers, b)
  {
    var s := OrderedChannels(settings.selectedChannelStatus, channels);
    var ignored := settings.ignoredBuildNumbers;
    var k, m := CheckForUpdatesSelects(current, settings, channels);
    OrderedChannelsSpec(settings.selectedChannelStatus, channels);
    if CheckForUpdates(current, settings, channels).newBuild.None? {
      forall ch, b | ch in channels && IsEligible(settings.selectedChannelStatus, ch.status) && b in ch.builds
        ensures !IsApplicable(current, ignored, b)
      {
        var k', m' := ScannedIndex(current, settings, channels, ch, b);
      }
    } else {
      assert s[k] in s && s[k].builds[m] in s[k].builds;
    }
  }

  /**
   * Against any applicable build of an eligible channel, the selection is
   * at least as good: it shares the running build's baseline whenever that
   * build does, and when both share it (or both do not) it is at least as new.
   */
  lemma SelectedUpdateIsBest(current: BuildNumber, settings: UserUpdateSettings, channels: seq<Channel>, ch: Channel, b: Build)
    requires ch in channels && IsEligible(settings.selectedChannelStatus, ch.status) && b in ch.builds
    requires IsApplicable(current, settings.ignoredBuildNumbers, b)
    ensures var r := CheckForUpdates(current, settings, channels);
      r.newBuild.Some? &&
      !Outranks(current, b.number, r.newBuild.value.number) &&
      (SameBaseline(b.number, current) ==> SameBaseline(r.newBuild.value.number, current)) &&
      (SameBaseline(b.number, current) == SameBaseline(r.newBuild.value.number, current) ==>
        AtMost(b.number, r.newBuild.value.number))
  {
    var k, m := CheckForUpdatesSelects(current, settings, channels);
    var k', m' := ScannedIndex(current, settings, channels, ch, b);
    var chosen := CheckForUpdates(current, settings, channels).newBuild.value.number;
    CompareAntisymmetric(b.number.components, chosen.components);
  }

  /**
   * Duplicates across tiers: an applicable build of a channel of a more
   * eager tier than the selected channel's is strictly outranked by the
   * selection, so an equal number is always taken from the most eager tier.
   */
  lemma MostEagerTierWins(current: BuildNumber, settings: UserUpdateSettings, channels: seq<Channel>, ch: Channel, b: Build)
    requires ch in channels && IsEligible(settings.selectedChannelStatus, ch.status) && b in ch.builds
    requires IsApplicable(current, settings.ignoredBuildNumbers, b)
    ensures var r := CheckForUpdates(current, settings, channels);
      r.updatedChannel.Some? && r.newBuild.Some? &&
      (Rank(ch.status) < Rank(r.updatedChannel.value.status) ==>
        Outranks(current, r.newBuild.value.number, b.number) && b.number != r.newBuild.value.number)
  {
    var s := OrderedChannels(settings.selectedChannelStatus, channels);
    var k, m := CheckForUpdatesSelects(current, settings, channels);
    var k', m' := ScannedIndex(current, settings, channels, ch, b);
    OrderedChannelsSpec(settings.selectedChannelStatus, channels);
    OutranksIrreflexive(current, b.number);
    if Rank(ch.status) < Rank(s[k].status) {
      assert k' < k;
    }
  }

  /**
   * Duplicates within a tier: the selected channel is listed in document
   * order among the channels of its tier, and every applicable build of an
   * earlier channel of that tier, or listed earlier in the same channel, is
   * strictly outranked by the selection.
   */
  lemma FirstListedWithinTierWins(current: BuildNumber, settings: UserUpdateSettings, channels: seq<Channel>)
    returns (q: nat, m: nat)
    requires CheckForUpdates(current, settings, channels).newBuild.Some?
    ensures var r := CheckForUpdates(current, settings, channels);
      var ch, b := r.updatedChannel.value, r.newBuild.value;
      var tier := OfTier(channels, ch.status);
      q < |tier| && tier[q] == ch && m < |ch.builds| && ch.builds[m] == b &&
      (forall p, m' ::
        (0 <= p < q && 0 <= m' < |tier[p].builds| &&
         IsApplicable(current, settings.ignoredBuildNumbers, tier[p].builds[m'])) ==>
        Outranks(current, b.number, tier[p].builds[m'].number)) &&
      (forall m' :: 0 <= m' < m && IsApplicable(current, settings.ignoredBuildNumbers, ch.builds[m']) ==>
        Outranks(current, b.number, ch.builds[m'].number))
  {
    var s := OrderedChannels(settings.selectedChannelStatus, channels);
    var k, m0 := CheckForUpdatesSelects(current, settings, channels);
    m := m0;
    var e := EligibleChannels(settings.selectedChannelStatus, channels);
    var off;
    q, off := TierIndex(e, k);
    ScannedTierIsEligible(settings.selectedChannelStatus, channels, k);
    var tier := OfTier(channels, s[k].status);
    forall p, m' | 0 <= p < q && 0 <= m' < |tier[p].builds| &&
      IsApplicable(current, settings.ignoredBuildNumbers, tier[p].builds[m'])
      ensures Outranks(current, s[k].builds[m].number, tier[p].builds[m'].number)
    {
      assert s[off + p] == tier[p] && off + p < k;
    }
  }

  /** The tier of a scanned channel is eligible, so the eligible filter keeps that tier whole. */
  lemma ScannedTierIsEligible(selected: ChannelStatus, channels: seq<Channel>, k: nat)
    requires k < |OrderedChannels(selected, channels)|
    ensures var t := OrderedChannels(selected, channels)[k].status;
      OfTier(channels, t) == OfTier(EligibleChannels(selected, channels), t)
  {
    var e := EligibleChannels(selected, channels);
    var s := OrderByStatus(e);
    OrderByStatusMembers(e);
    EligibleMembers(selected, channels);
    assert s[k] in s;
    OfTierOfEligible(selected, channels, s[k].status);
  }

  /** The build numbers that eligible channels offer to the running build. */
  ghost function OfferedNumbers(current: BuildNumber, settings: UserUpdateSettings, channels: seq<Channel>): set<BuildNumber> {
    set ch, b | ch in channels && b in ch.builds && IsEligible(settings.selectedChannelStatus, ch.status) &&
      IsApplicable(current, settings.ignoredBuildNumbers, b) :: b.number
  }

  lemma OfferedWitness(current: BuildNumber, settings: UserUpdateSettings, channels: seq<Channel>, n: BuildNumber)
    returns (ch: Channel, b: Build)
    requires n in OfferedNumbers(current, settings, channels)
    ensures ch in channels && b in ch.builds && IsEligible(settings.selectedChannelStatus, ch.status)
    ensures IsApplicable(current, settings.ignoredBuildNumbers, b) && b.number == n
  {
    ch, b :| ch in channels && b in ch.builds && IsEligible(settings.selectedChannelStatus, ch.status) &&
      IsApplicable(current, settings.ignoredBuildNumbers, b) && b.number == n;
  }

  /**
   * Which build number is selected depends only on which numbers are on
   * offer: reordering builds within a channel, or channels within the
   * catalog, never changes it (document order only picks among equal numbers).
   */
  lemma SelectedNumberDependsOnlyOnOffers(current: BuildNumber, settings1: UserUpdateSettings, channels1: seq<Channel>,
                                          settings2: UserUpdateSettings, channels2: seq<Channel>)
    requires forall ch, b :: ch in channels1 && b in ch.builds ==> Concrete(b.number)
    requires OfferedNumbers(current, settings1, channels1) == OfferedNumbers(current, settings2, channels2)
    ensures var r1, r2 := CheckForUpdates(current, settings1, channels1), CheckForUpdates(current, settings2, channels2);
      r1.newBuild.None? == r2.newBuild.None? &&
      (r1.newBuild.Some? ==> r1.newBuild.value.number == r2.newBuild.value.number)
  {
    var r1, r2 := CheckForUpdates(current, settings1, channels1), CheckForUpdates(current, settings2, channels2);
    var offered := OfferedNumbers(current, settings1, channels1);
    NoUpdateIffNothingApplicable(current, settings1, channels1);
    NoUpdateIffNothingApplicable(current, settings2, channels2);
    SelectedUpdateIsSafe(current, settings1, channels1);
    SelectedUpdateIsSafe(current, settings2, channels2);
    if r1.newBuild.Some? {
      var b1 := r1.newBuild.value;
      var ch2, b2 := OfferedWitness(current, settings2, channels2, b1.number);
      SelectedUpdateIsBest(current, settings2, channels2, ch2, b2);
      var n2 := r2.newBuild.value.number;
      var ch1, b1' := OfferedWitness(current, settings1, channels1, n2);
      SelectedUpdateIsBest(current, settings1, channels1, ch1, b1');
      OutranksTotal(current, b1.number, n2);
    } else if r2.newBuild.Some? {
      var ch1, b1 := OfferedWitness(current, settings1, channels1, r2.newBuild.value.number);
    }
  }

  /**
   * An applicable offer of an eligible channel that no applicable offer
   * outranks fixes the selected number: the selection is that number.
   */
  lemma SelectedNumberIsTheBest(current: BuildNumber, settings: UserUpdateSettings, channels: seq<Channel>, ch: Channel, b: Build)
    requires ch in channels && IsEligible(settings.selectedChannelStatus, ch.status) && b in ch.builds
    requires IsApplicable(current, settings.ignoredBuildNumbers, b) && Concrete(b.number)
    requires forall ch', b' ::
      (ch' in channels && IsEligible(settings.selectedChannelStatus, ch'.status) && b' in ch'.builds &&
       IsApplicable(current, settings.ignoredBuildNumbers, b')) ==> !Outranks(current, b'.number, b.number)
    ensures CheckForUpdates(current, settings, channels).newBuild.Some?
    ensures CheckForUpdates(current, settings, channels).newBuild.value.number == b.number
  {
    SelectedUpdateIsBest(current, settings, channels, ch, b);
    SelectedUpdateIsSafe(current, settings, channels);
    OutranksTotal(current, b.number, CheckForUpdates(current, settings, channels).newBuild.value.number);
  }

  /**
   * Among offers of one and the same number, the selected channel is of the
   * most eager tier offering it, and the first channel of that tier in
   * document order that offers it.  The returned q is that channel's
   * position within its tier.  The second ensures, the case where the
   * tier's first channel offers b itself, is a special case of the third:
   * there q must be 0.
   */
  lemma DuplicateSelectsFirstOfMostEagerTier(current: BuildNumber, settings: UserUpdateSettings, channels: seq<Channel>, ch: Channel, b: Build)
    returns (q: nat)
    requires ch in channels && IsEligible(settings.selectedChannelStatus, ch.status) && b in ch.builds
    requires IsApplicable(current, settings.ignoredBuildNumbers, b)
    requires CheckForUpdates(current, settings, channels).newBuild.Some?
    requires CheckForUpdates(current, settings, channels).newBuild.value.number == b.number
    ensures Rank(CheckForUpdates(current, settings, channels).updatedChannel.value.status) <= Rank(ch.status)
    ensures var tier := OfTier(channels, ch.status);
      CheckForUpdates(current, settings, channels).updatedChannel.value.status == ch.status && |tier| > 0 && b in tier[0].builds ==>
      CheckForUpdates(current, settings, channels).updatedChannel.value == tier[0]
    ensures var r := CheckForUpdates(current, settings, channels);
      var tier := OfTier(channels, r.updatedChannel.value.status);
      q < |tier| && tier[q] == r.updatedChannel.value &&
      forall p, m' ::
        (0 <= p < q && 0 <= m' < |tier[p].builds| &&
         IsApplicable(current, settings.ignoredBuildNumbers, tier[p].builds[m'])) ==>
        tier[p].builds[m'].number != b.number
  {
    MostEagerTierWins(current, settings, channels, ch, b);
    var m;
    q, m := FirstListedWithinTierWins(current, settings, channels);
    OutranksIrreflexive(current, b.number);
  }

  /** When no eligible channel has an applicable build, nothing is selected. */
  lemma NothingApplicableMeansNoUpdate(current: BuildNumber, settings: UserUpdateSettings, channels: seq<Channel>)
    requires forall ch, b :: ch in channels && b in ch.builds ==>
      !(IsEligible(settings.selectedChannelStatus, ch.status) && IsApplicable(current, settings.ignoredBuildNumbers, b))
    ensures CheckForUpdates(current, settings, channels).newBuild == None
  {
    NoUpdateIffNothingApplicable(current, settings, channels);
  }

  /** When an eligible channel has exactly one applicable build, that build and channel are selected. */
  lemma OnlyOfferIsSelected(current: BuildNumber, settings: UserUpdateSettings, channels: seq<Channel>, ch: Channel, b: Build)
    requires ch in channels && IsEligible(settings.selectedChannelStatus, ch.status) && b in ch.builds
    requires IsApplicable(current, settings.ignoredBuildNumbers, b)
    requires forall ch', b' ::
      (ch' in channels && IsEligible(settings.selectedChannelStatus, ch'.status) && b' in ch'.builds &&
       IsApplicable(current, settings.ignoredBuildNumbers, b')) ==> ch' == ch && b' == b
    ensures CheckForUpdates(current, settings, channels).newBuild == Some(b)
    ensures CheckForUpdates(current, settings, channels).updatedChannel == Some(ch)
  {
    NoUpdateIffNothingApplicable(current, settings, channels);
    SelectedUpdateIsSafe(current, settings, channels);
    var r := CheckForUpdates(current, settings, channels);
    assert r.newBuild.Some?;
    var ch', b' := r.updatedChannel.value, r.newBuild.value;
    assert ch' in channels && IsEligible(settings.selectedChannelStatus, ch'.status) && b' in ch'.builds &&
      IsApplicable(current, settings.ignoredBuildNumbers, b');
  }
}
