/**
 * The behavioural scenarios of the update strategy, each stated over the
 * update check as the catalog reader would hand the catalog over.  The
 * running product is IntelliJ IDEA ("IU"); only its channels are given.
 */
module UpdateStrategyScenarios {
  import opened Optional
  import opened BuildNumbers
  import opened UpdatesInfo
  import opened UpdateStrategy
  import opened ChannelPolicy
  import opened SelectionProperties

  function N2(a: nat, b: nat): BuildNumber { BuildNumber([Num(a), Num(b)]) }
  function N3(a: nat, b: nat, c: nat): BuildNumber { BuildNumber([Num(a), Num(b), Num(c)]) }
  /** The upper bound `a.*`. */
  function Upto(a: nat): BuildNumber { BuildNumber([Num(a), Wildcard]) }

  function Plain(n: BuildNumber, version: string): Build { Build(n, version, None, None, None, []) }
  function Ch(id: string, status: ChannelStatus, licensing: string, builds: seq<Build>): Channel {
    Channel(id, status, licensing, None, builds)
  }

  function Check(current: BuildNumber, tier: ChannelStatus, channels: seq<Channel>, ignored: seq<BuildNumber>): CheckForUpdateResult {
    CheckForUpdates(current, UserUpdateSettings(tier, ignored), channels)
  }

  function NumberOf(r: CheckForUpdateResult): Option<BuildNumber> {
    match r.newBuild
    case None => None
    case Some(b) => Some(b.number)
  }

  lemma ChannelContainsNoBuilds()
    ensures Check(N2(145, 258), Release, [Ch("IDEA_Release", Release, "release", [])], []).newBuild == None
  {
    NothingApplicableMeansNoUpdate(N2(145, 258), UserUpdateSettings(Release, []), [Ch("IDEA_Release", Release, "release", [])]);
  }

  lemma AlreadyOnTheLatestBuild()
    ensures Check(N2(145, 258), Release, [
      Ch("IDEA15_Release", Release, "release", [Plain(N2(143, 2332), "15.0.5")]),
      Ch("IDEA_Release", Release, "release", [Plain(N2(145, 258), "2016.1")])], []).newBuild == None
  {
    var channels := [
      Ch("IDEA15_Release", Release, "release", [Plain(N2(143, 2332), "15.0.5")]),
      Ch("IDEA_Release", Release, "release", [Plain(N2(145, 258), "2016.1")])];
    assert !Newer(N2(143, 2332), N2(145, 258)) && !Newer(N2(145, 258), N2(145, 258));
    NothingApplicableMeansNoUpdate(N2(145, 258), UserUpdateSettings(Release, []), channels);
  }

  lemma OrderOfBuildsDoesNotMatter()
    ensures NumberOf(Check(N2(143, 2332), Release, [
      Ch("IDEA_Release", Release, "release", [Plain(N2(145, 597), "2016.1.1"), Plain(N2(145, 258), "2016.1")])], [])) == Some(N2(145, 597))
    ensures NumberOf(Check(N2(143, 2332), Release, [
      Ch("IDEA_Release", Release, "release", [Plain(N2(145, 258), "2016.1"), Plain(N2(145, 597), "2016.1.1")])], [])) == Some(N2(145, 597))
  {
    var b := Plain(N2(145, 597), "2016.1.1");
    var desc := Ch("IDEA_Release", Release, "release", [b, Plain(N2(145, 258), "2016.1")]);
    var asc := Ch("IDEA_Release", Release, "release", [Plain(N2(145, 258), "2016.1"), b]);
    SelectedNumberIsTheBest(N2(143, 2332), UserUpdateSettings(Release, []), [desc], desc, b);
    SelectedNumberIsTheBest(N2(143, 2332), UserUpdateSettings(Release, []), [asc], asc, b);
  }

  function PatchedBuild(): Build {
    Build(N2(145, 597), "2016.1.1", None, None, None, [Patch(N2(145, 596), []), Patch(N2(145, 258), [Windows, Mac, Unix])])
  }

  lemma PatchedBuildIsSelected()
    ensures Check(N2(145, 258), Release, [Ch("IDEA_Release", Release, "release", [PatchedBuild()])], []).newBuild == Some(PatchedBuild())
  {
    var b := PatchedBuild();
    var ch := Ch("IDEA_Release", Release, "release", [b]);
    var settings := UserUpdateSettings(Release, []);
    OnlyOfferIsSelected(N2(145, 258), settings, [ch], ch, b);
  }

  /** Whatever check selected the patched build, the patch lookups of lines 52-53 come out as expected. */
  lemma PatchesOfSelected(r: CheckForUpdateResult, host: Platform)
    requires r.newBuild == Some(PatchedBuild())
    ensures FindPatchForBuild(r, N2(145, 596), host).Some?
    ensures FindPatchForBuild(r, N2(145, 258), host).None?
  {
    var b := PatchedBuild();
    assert PatchMatches(b.patches[0], N2(145, 596), host);
    PatchExcludedEverywhere(b.patches[1], N2(145, 258), host);
    assert b.patches == [b.patches[0], b.patches[1]];
  }

  lemma PatchExclusions(host: Platform)
    ensures var r := Check(N2(145, 258), Release, [Ch("IDEA_Release", Release, "release", [PatchedBuild()])], []);
      FindPatchForBuild(r, N2(145, 596), host).Some? && FindPatchForBuild(r, N2(145, 258), host).None?
  {
    PatchedBuildIsSelected();
    PatchesOfSelected(Check(N2(145, 258), Release, [Ch("IDEA_Release", Release, "release", [PatchedBuild()])], []), host);
  }

  lemma NewerUpdatesArePreferred()
    ensures NumberOf(Check(N2(145, 258), Eap, [
      Ch("IDEA_EAP", Eap, "eap", [Plain(N2(145, 596), "2016.1.1 EAP")]),
      Ch("IDEA_Release", Release, "release", [Plain(N2(145, 597), "2016.1.1")])], [])) == Some(N2(145, 597))
  {
    var release := Ch("IDEA_Release", Release, "release", [Plain(N2(145, 597), "2016.1.1")]);
    var channels := [Ch("IDEA_EAP", Eap, "eap", [Plain(N2(145, 596), "2016.1.1 EAP")]), release];
    SelectedNumberIsTheBest(N2(145, 258), UserUpdateSettings(Eap, []), channels, release, release.builds[0]);
  }

  lemma NewerUpdatesArePreferredOverMoreStableOnes()
    ensures NumberOf(Check(N2(145, 257), Eap, [
      Ch("IDEA_EAP", Eap, "eap", [Plain(N2(145, 596), "2016.1.1 EAP")]),
      Ch("IDEA_Beta", Beta, "release", [Plain(N2(145, 257), "2016.1 RC2")]),
      Ch("IDEA_Release", Release, "release", [Plain(N2(145, 258), "2016.1")])], [])) == Some(N2(145, 596))
  {
    var eap := Ch("IDEA_EAP", Eap, "eap", [Plain(N2(145, 596), "2016.1.1 EAP")]);
    var channels := [eap,
      Ch("IDEA_Beta", Beta, "release", [Plain(N2(145, 257), "2016.1 RC2")]),
      Ch("IDEA_Release", Release, "release", [Plain(N2(145, 258), "2016.1")])];
    SelectedNumberIsTheBest(N2(145, 257), UserUpdateSettings(Eap, []), channels, eap, eap.builds[0]);
  }

  function MixedTiers(): seq<Channel> {
    [Ch("IDEA_EAP", Eap, "eap", [Plain(N2(145, 596), "2016.1.1 EAP")]),
     Ch("IDEA_Beta", Beta, "release", [Plain(N2(145, 257), "2016.1 RC2")]),
     Ch("IDEA_Release", Release, "release", [Plain(N2(145, 258), "2016.1")])]
  }

  lemma ReleaseSubscriberGetsRelease()
    ensures NumberOf(Check(N2(145, 256), Release, MixedTiers(), [])) == Some(N2(145, 258))
  {
    var release := MixedTiers()[2];
    SelectedNumberIsTheBest(N2(145, 256), UserUpdateSettings(Release, []), MixedTiers(), release, release.builds[0]);
  }

  lemma ReleaseSubscriberIgnoresEapAndBeta()
    ensures Check(N2(145, 258), Release, MixedTiers(), []).newBuild == None
  {
    NothingApplicableMeansNoUpdate(N2(145, 258), UserUpdateSettings(Release, []), MixedTiers());
  }

  lemma NewerUpdatesFromNonAllowedChannelsAreIgnored()
    ensures NumberOf(Check(N2(145, 256), Release, MixedTiers(), [])) == Some(N2(145, 258))
    ensures Check(N2(145, 258), Release, MixedTiers(), []).newBuild == None
  {
    ReleaseSubscriberGetsRelease();
    ReleaseSubscriberIgnoresEapAndBeta();
  }

  lemma IgnoredUpdatesAreExcluded()
    ensures NumberOf(Check(N2(145, 258), Eap, [
      Ch("IDEA_EAP", Eap, "eap", [Plain(N2(145, 596), "2016.1.1 EAP"), Plain(N2(145, 595), "2016.1.1 EAP")])], [N2(145, 596)]))
      == Some(N2(145, 595))
  {
    var eap := Ch("IDEA_EAP", Eap, "eap", [Plain(N2(145, 596), "2016.1.1 EAP"), Plain(N2(145, 595), "2016.1.1 EAP")]);
    SelectedNumberIsTheBest(N2(145, 258), UserUpdateSettings(Eap, [N2(145, 596)]), [eap], eap, eap.builds[1]);
  }

  function TargetedDifferent(): seq<Channel> {
    [Ch("IDEA_EAP", Eap, "eap", [
      Build(N2(145, 596), "2016.1.1 EAP", None, Some(N2(145, 595)), Some(Upto(145)), []),
      Plain(N2(145, 595), "2016.1.1 EAP")])]
  }

  /** `145.595 <= 145.*` and `163.50 <= 163.*`: the wildcard bound admits every further component. */
  lemma WithinWildcardBounds()
    ensures AtMost(N2(145, 595), Upto(145)) && AtMost(N2(163, 50), Upto(163))
  {
    WildcardCoversExtensions([Num(145)], [Num(595)]);
    assert [Num(145)] + [Num(595)] == N2(145, 595).components;
    WildcardCoversExtensions([Num(163)], [Num(50)]);
    assert [Num(163)] + [Num(50)] == N2(163, 50).components;
  }

  lemma TargetedDifferentOutsideRange()
    ensures NumberOf(Check(N2(145, 258), Eap, TargetedDifferent(), [])) == Some(N2(145, 595))
  {
    var channels := TargetedDifferent();
    var eap := channels[0];
    assert !AtMost(N2(145, 595), N2(145, 258));
    SelectedNumberIsTheBest(N2(145, 258), UserUpdateSettings(Eap, []), channels, eap, eap.builds[1]);
  }

  lemma TargetedDifferentInsideRange()
    ensures NumberOf(Check(N2(145, 595), Eap, TargetedDifferent(), [])) == Some(N2(145, 596))
  {
    var channels := TargetedDifferent();
    var eap := channels[0];
    WithinWildcardBounds();
    CompareReflexive(N2(145, 595).components);
    assert IsApplicable(N2(145, 595), [], eap.builds[0]);
    assert !Newer(N2(145, 595), N2(145, 595));
    SelectedNumberIsTheBest(N2(145, 595), UserUpdateSettings(Eap, []), channels, eap, eap.builds[0]);
  }

  lemma UpdatesCanBeTargetedForSpecificBuildsDifferentBuilds()
    ensures NumberOf(Check(N2(145, 258), Eap, TargetedDifferent(), [])) == Some(N2(145, 595))
    ensures NumberOf(Check(N2(145, 595), Eap, TargetedDifferent(), [])) == Some(N2(145, 596))
  {
    TargetedDifferentOutsideRange();
    TargetedDifferentInsideRange();
  }

  function TargetedSame(): seq<Channel> {
    [Ch("IDEA_EAP", Release, "release", [
      Build(N2(163, 101), "2016.3.1", Some("bug fix"), Some(N2(163, 0)), Some(Upto(163)), []),
      Build(N2(163, 101), "2016.3.1", Some("new release"), None, None, [])])]
  }

  lemma TargetedSameOutsideRange()
    ensures Check(N2(145, 258), Release, TargetedSame(), []).newBuild == Some(TargetedSame()[0].builds[1])
  {
    var channels := TargetedSame();
    var ch := channels[0];
    var settings := UserUpdateSettings(Release, []);
    assert !AtMost(N2(163, 0), N2(145, 258));
    assert !IsApplicable(N2(145, 258), [], ch.builds[0]);
    OnlyOfferIsSelected(N2(145, 258), settings, channels, ch, ch.builds[1]);
  }

  lemma TargetedSameInsideRange()
    ensures Check(N2(163, 50), Release, TargetedSame(), []).newBuild == Some(TargetedSame()[0].builds[0])
  {
    var channels := TargetedSame();
    var ch := channels[0];
    var settings := UserUpdateSettings(Release, []);
    WithinWildcardBounds();
    assert AtMost(N2(163, 0), N2(163, 50));
    assert IsApplicable(N2(163, 50), [], ch.builds[0]);
    assert IsApplicable(N2(163, 50), [], ch.builds[1]);
    OutranksIrreflexive(N2(163, 50), N2(163, 101));
    SelectedNumberIsTheBest(N2(163, 50), settings, channels, ch, ch.builds[1]);
    var q, m := FirstListedWithinTierWins(N2(163, 50), settings, channels);
    SelectedUpdateIsSafe(N2(163, 50), settings, channels);
    var r := CheckForUpdates(N2(163, 50), settings, channels);
    assert r.updatedChannel.value == ch;
    assert !Outranks(N2(163, 50), r.newBuild.value.number, ch.builds[0].number);
    assert m == 0;
  }

  lemma UpdatesCanBeTargetedForSpecificBuildsSameBuild()
    ensures Check(N2(145, 258), Release, TargetedSame(), []).newBuild.Some?
    ensures Check(N2(145, 258), Release, TargetedSame(), []).newBuild.value.message == Some("new release")
    ensures Check(N2(163, 50), Release, TargetedSame(), []).newBuild.Some?
    ensures Check(N2(163, 50), Release, TargetedSame(), []).newBuild.value.message == Some("bug fix")
  {
    TargetedSameOutsideRange();
    TargetedSameInsideRange();
  }

  lemma UpdatesFromTheSameBaselineArePreferredUnifiedChannels()
    ensures NumberOf(Check(N2(143, 2287), Eap, [
      Ch("IDEA_EAP", Eap, "eap", [Plain(N2(143, 2330), "15.0.5 EAP"), Plain(N2(145, 600), "2016.1.2 EAP")]),
      Ch("IDEA_Release", Release, "release", [Plain(N2(143, 2332), "15.0.5"), Plain(N2(145, 597), "2016.1.1")])], []))
      == Some(N2(143, 2332))
  {
    var release := Ch("IDEA_Release", Release, "release", [Plain(N2(143, 2332), "15.0.5"), Plain(N2(145, 597), "2016.1.1")]);
    var channels := [Ch("IDEA_EAP", Eap, "eap", [Plain(N2(143, 2330), "15.0.5 EAP"), Plain(N2(145, 600), "2016.1.2 EAP")]), release];
    SelectedNumberIsTheBest(N2(143, 2287), UserUpdateSettings(Eap, []), channels, release, release.builds[0]);
  }

  lemma UpdatesFromTheSameBaselineArePreferredPerReleaseChannels()
    ensures NumberOf(Check(N2(143, 2287), Eap, [
      Ch("IDEA_143_EAP", Eap, "eap", [Plain(N2(143, 2330), "15.0.5 EAP")]),
      Ch("IDEA_143_Release", Release, "release", [Plain(N2(143, 2332), "15.0.5")]),
      Ch("IDEA_145_EAP", Eap, "eap", [Plain(N2(145, 600), "2016.1.2 EAP")]),
      Ch("IDEA_Release_145", Release, "release", [Plain(N2(145, 597), "2016.1.1")])], []))
      == Some(N2(143, 2332))
  {
    var release143 := Ch("IDEA_143_Release", Release, "release", [Plain(N2(143, 2332), "15.0.5")]);
    var channels := [
      Ch("IDEA_143_EAP", Eap, "eap", [Plain(N2(143, 2330), "15.0.5 EAP")]),
      release143,
      Ch("IDEA_145_EAP", Eap, "eap", [Plain(N2(145, 600), "2016.1.2 EAP")]),
      Ch("IDEA_Release_145", Release, "release", [Plain(N2(145, 597), "2016.1.1")])];
    SelectedNumberIsTheBest(N2(143, 2287), UserUpdateSettings(Eap, []), channels, release143, release143.builds[0]);
  }

  lemma CrossBaselineUpdatesArePerfectlyLegal()
    ensures NumberOf(Check(N2(143, 2332), Eap, [
      Ch("IDEA_Release", Release, "release", [Plain(N2(143, 2332), "15.0.5"), Plain(N2(145, 597), "2016.1.1")])], []))
      == Some(N2(145, 597))
  {
    var release := Ch("IDEA_Release", Release, "release", [Plain(N2(143, 2332), "15.0.5"), Plain(N2(145, 597), "2016.1.1")]);
    SelectedNumberIsTheBest(N2(143, 2332), UserUpdateSettings(Eap, []), [release], release, release.builds[1]);
  }

  /** Component-wise numeric order on numbers of different lengths. */
  lemma VariableLengthOrdering()
    ensures Newer(N3(162, 11, 10), N3(162, 7, 23)) && Newer(N3(162, 11, 11), N3(162, 11, 10))
    ensures Newer(N2(162, 48), N3(162, 11, 10)) && Newer(N3(162, 11, 10), N2(145, 597))
  {
  }

  function Release162(): seq<Channel> {
    [Ch("IDEA_Release", Release, "release", [Plain(N3(162, 11, 10), "2016.2")])]
  }

  lemma VariableLengthFromOlderBaseline()
    ensures NumberOf(Check(N2(145, 597), Release, Release162(), [])) == Some(N3(162, 11, 10))
  {
    var ch := Release162()[0];
    SelectedNumberIsTheBest(N2(145, 597), UserUpdateSettings(Release, []), [ch], ch, ch.builds[0]);
  }

  lemma VariableLengthSameBaseline()
    ensures NumberOf(Check(N3(162, 7, 23), Release, Release162(), [])) == Some(N3(162, 11, 10))
  {
    var ch := Release162()[0];
    SelectedNumberIsTheBest(N3(162, 7, 23), UserUpdateSettings(Release, []), [ch], ch, ch.builds[0]);
  }

  lemma VariableLengthAlreadyNewer()
    ensures Check(N3(162, 11, 11), Release, Release162(), []).newBuild == None
  {
    var ch := Release162()[0];
    assert !Newer(N3(162, 11, 10), N3(162, 11, 11));
    NothingApplicableMeansNoUpdate(N3(162, 11, 11), UserUpdateSettings(Release, []), [ch]);
  }

  lemma VariableLengthShorterIsNewer()
    ensures NumberOf(Check(N3(162, 11, 10), Release, [Ch("IDEA_Release", Release, "release", [Plain(N2(162, 48), "2016.2.1 EAP")])], []))
      == Some(N2(162, 48))
  {
    var ch48 := Ch("IDEA_Release", Release, "release", [Plain(N2(162, 48), "2016.2.1 EAP")]);
    SelectedNumberIsTheBest(N3(162, 11, 10), UserUpdateSettings(Release, []), [ch48], ch48, ch48.builds[0]);
  }

  lemma VariableLengthBuildNumbersAreSupported()
    ensures NumberOf(Check(N2(145, 597), Release, Release162(), [])) == Some(N3(162, 11, 10))
    ensures NumberOf(Check(N3(162, 7, 23), Release, Release162(), [])) == Some(N3(162, 11, 10))
    ensures Check(N3(162, 11, 11), Release, Release162(), []).newBuild == None
    ensures NumberOf(Check(N3(162, 11, 10), Release, [Ch("IDEA_Release", Release, "release", [Plain(N2(162, 48), "2016.2.1 EAP")])], []))
      == Some(N2(162, 48))
  {
    VariableLengthFromOlderBaseline();
    VariableLengthSameBaseline();
    VariableLengthAlreadyNewer();
    VariableLengthShorterIsNewer();
  }

  // ----- one build number published in six channels across the three tiers -----

  function Dup(): Build { Plain(N2(163, 9166), "2016.3.1") }
  function Eap15(): Channel { Channel("IDEA15_EAP", Eap, "eap", Some("15"), [Dup()]) }
  function Eap16(): Channel { Channel("IDEA_EAP", Eap, "eap", Some("2016"), [Dup()]) }
  function Beta15(): Channel { Channel("IDEA15_Beta", Beta, "release", Some("15"), [Dup()]) }
  function Beta16(): Channel { Channel("IDEA_Beta", Beta, "release", Some("2016"), [Dup()]) }
  function Release15(): Channel { Channel("IDEA15_Release", Release, "release", Some("15"), [Dup()]) }
  function Release16(): Channel { Channel("IDEA_Release", Release, "release", Some("2016"), [Dup()]) }

  /**
   * Every channel offers the same build, newer than the running one: the
   * channel selected is the first, in document order, of the subscribed tier.
   */
  lemma DuplicateGoesToFirstOfSubscribedTier(current: BuildNumber, selected: ChannelStatus, channels: seq<Channel>, expected: Channel)
    requires Newer(Dup().number, current)
    requires forall c :: c in channels ==> c.builds == [Dup()]
    requires expected in channels && expected.status == selected
    requires |OfTier(channels, selected)| > 0 && OfTier(channels, selected)[0] == expected
    ensures Check(current, selected, channels, []).updatedChannel == Some(expected)
  {
    var settings, b := UserUpdateSettings(selected, []), Dup();
    assert b in expected.builds && IsApplicable(current, [], b);
    OutranksIrreflexive(current, b.number);
    SelectedNumberIsTheBest(current, settings, channels, expected, b);
    SelectedUpdateIsSafe(current, settings, channels);
    var q := DuplicateSelectsFirstOfMostEagerTier(current, settings, channels, expected, b);
  }

  function TiersInOrder(): seq<Channel> { [Eap15(), Eap16(), Beta15(), Beta16(), Release15(), Release16()] }
  function TiersInOrderSwapped(): seq<Channel> { [Eap16(), Eap15(), Beta16(), Beta15(), Release16(), Release15()] }
  function TiersReversed(): seq<Channel> { [Release15(), Release16(), Beta15(), Beta16(), Eap15(), Eap16()] }
  function TiersReversedSwapped(): seq<Channel> { [Release16(), Release15(), Beta16(), Beta15(), Eap16(), Eap15()] }

  lemma DuplicateInOrderEap(current: BuildNumber)
    requires Newer(Dup().number, current)
    ensures Check(current, Eap, TiersInOrder(), []).updatedChannel == Some(Eap15())
  {
    assert OfTier(TiersInOrder(), Eap)[0] == Eap15();
    DuplicateGoesToFirstOfSubscribedTier(current, Eap, TiersInOrder(), Eap15());
  }

  lemma DuplicateInOrderRelease(current: BuildNumber)
    requires Newer(Dup().number, current)
    ensures Check(current, Release, TiersInOrder(), []).updatedChannel == Some(Release15())
  {
    assert OfTier(TiersInOrder(), Release)[0] == Release15();
    DuplicateGoesToFirstOfSubscribedTier(current, Release, TiersInOrder(), Release15());
  }

  lemma DuplicateInOrderSwappedEap(current: BuildNumber)
    requires Newer(Dup().number, current)
    ensures Check(current, Eap, TiersInOrderSwapped(), []).updatedChannel == Some(Eap16())
  {
    assert OfTier(TiersInOrderSwapped(), Eap)[0] == Eap16();
    DuplicateGoesToFirstOfSubscribedTier(current, Eap, TiersInOrderSwapped(), Eap16());
  }

  lemma DuplicateInOrderSwappedRelease(current: BuildNumber)
    requires Newer(Dup().number, current)
    ensures Check(current, Release, TiersInOrderSwapped(), []).updatedChannel == Some(Release16())
  {
    assert OfTier(TiersInOrderSwapped(), Release)[0] == Release16();
    DuplicateGoesToFirstOfSubscribedTier(current, Release, TiersInOrderSwapped(), Release16());
  }

  lemma DuplicateReversedEap(current: BuildNumber)
    requires Newer(Dup().number, current)
    ensures Check(current, Eap, TiersReversed(), []).updatedChannel == Some(Eap15())
  {
    assert OfTier(TiersReversed(), Eap)[0] == Eap15();
    DuplicateGoesToFirstOfSubscribedTier(current, Eap, TiersReversed(), Eap15());
  }

  lemma DuplicateReversedBeta(current: BuildNumber)
    requires Newer(Dup().number, current)
    ensures Check(current, Beta, TiersReversed(), []).updatedChannel == Some(Beta15())
  {
    assert OfTier(TiersReversed(), Beta)[0] == Beta15();
    DuplicateGoesToFirstOfSubscribedTier(current, Beta, TiersReversed(), Beta15());
  }

  lemma DuplicateReversedRelease(current: BuildNumber)
    requires Newer(Dup().number, current)
    ensures Check(current, Release, TiersReversed(), []).updatedChannel == Some(Release15())
  {
    assert OfTier(TiersReversed(), Release)[0] == Release15();
    DuplicateGoesToFirstOfSubscribedTier(current, Release, TiersReversed(), Release15());
  }

  lemma DuplicateReversedSwappedEap(current: BuildNumber)
    requires Newer(Dup().number, current)
    ensures Check(current, Eap, TiersReversedSwapped(), []).updatedChannel == Some(Eap16())
  {
    assert OfTier(TiersReversedSwapped(), Eap)[0] == Eap16();
    DuplicateGoesToFirstOfSubscribedTier(current, Eap, TiersReversedSwapped(), Eap16());
  }

  lemma DuplicateReversedSwappedBeta(current: BuildNumber)
    requires Newer(Dup().number, current)
    ensures Check(current, Beta, TiersReversedSwapped(), []).updatedChannel == Some(Beta16())
  {
    assert OfTier(TiersReversedSwapped(), Beta)[0] == Beta16();
    DuplicateGoesToFirstOfSubscribedTier(current, Beta, TiersReversedSwapped(), Beta16());
  }

  lemma DuplicateReversedSwappedRelease(current: BuildNumber)
    requires Newer(Dup().number, current)
    ensures Check(current, Release, TiersReversedSwapped(), []).updatedChannel == Some(Release16())
  {
    assert OfTier(TiersReversedSwapped(), Release)[0] == Release16();
    DuplicateGoesToFirstOfSubscribedTier(current, Release, TiersReversedSwapped(), Release16());
  }

  /** The scenario for any running build older than the duplicated one (the scenario's own is 163.1). */
  lemma ForDuplicateBuildsFirstMatchingChannelIsPreferred(current: BuildNumber)
    requires Newer(Dup().number, current)
    ensures Check(current, Eap, TiersInOrder(), []).updatedChannel == Some(Eap15())
    ensures Check(current, Eap, TiersInOrderSwapped(), []).updatedChannel == Some(Eap16())
    ensures Check(current, Eap, TiersReversed(), []).updatedChannel == Some(Eap15())
    ensures Check(current, Eap, TiersReversedSwapped(), []).updatedChannel == Some(Eap16())
    ensures Check(current, Beta, TiersReversed(), []).updatedChannel == Some(Beta15())
    ensures Check(current, Beta, TiersReversedSwapped(), []).updatedChannel == Some(Beta16())
    ensures Check(current, Release, TiersInOrder(), []).updatedChannel == Some(Release15())
    ensures Check(current, Release, TiersInOrderSwapped(), []).updatedChannel == Some(Release16())
    ensures Check(current, Release, TiersReversed(), []).updatedChannel == Some(Release15())
    ensures Check(current, Release, TiersReversedSwapped(), []).updatedChannel == Some(Release16())
  {
    DuplicateInOrderEap(current);
    DuplicateInOrderRelease(current);
    DuplicateInOrderSwappedEap(current);
    DuplicateInOrderSwappedRelease(current);
    DuplicateReversedEap(current);
    DuplicateReversedBeta(current);
    DuplicateReversedRelease(current);
    DuplicateReversedSwappedEap(current);
    DuplicateReversedSwappedBeta(current);
    DuplicateReversedSwappedRelease(current);
  }
}
