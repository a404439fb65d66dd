# Update resolution strategy

A model of the IDE's update check. It takes:

- the running build number;
- the user's update settings: the subscribed channel tier and the ignored build numbers;
- the product's channels in document order.

It decides which newer build to offer and which channel offers it. It also finds a patch of the chosen build for a given starting build and host platform.

The model specifies the update decision that the fifteen scenarios of `UpdateStrategyTest.kt` pin down. The classes `UpdateStrategy`, `BuildNumber`, `UpdatesInfo` and `CheckForUpdateResult` are specified through those scenarios.

The model is pure: datatypes, functions and lemmas, in seven modules.

- `Optional` (`optional.dfy`): the `Option` type.
- `BuildNumbers` (`build_number.dfy`): build numbers as sequences of components `Num(n)` or `Wildcard`; the comparison; the baseline (first component). The order is component-wise and numeric. A wildcard-free proper prefix is smaller. A wildcard is greater than any concrete value, so `145.*` bounds every `145.x.y`.
- `UpdatesInfo` (`updates_info.dfy`): the catalog values `Channel`, `Build` and `Patch`, and the tiers `Eap`, `Beta` and `Release`.
- `ChannelPolicy` (`channel_policy.dfy`): eligibility, meaning a subscription sees its own tier and every more stable one. It also holds the stable reorder of the eligible channels, most eager tier first.
- `UpdateStrategy` (`update_strategy.dfy`): the check itself.
  1. Scan the reordered channels, each channel's builds in document order.
  2. Keep the builds that are strictly newer than the running build, not ignored, and inside their target range, if they have one. Both ends of the range are inclusive.
  3. Fold the candidates left to right. A candidate replaces the best so far only when it *outranks* it. Sharing the running build's baseline beats not sharing it; between equals in that respect, the larger number wins. The first candidate seen therefore wins every tie.
  4. Return a result in state `Loaded`.

  This module also holds the patch lookup.
- `SelectionProperties` (`selection_properties.dfy`): what the check guarantees, stated over the product's channels and builds. A selection is safe and is the best offer. An equal number goes to the most eager tier, and then to the first channel of that tier in document order. Nothing is offered exactly when nothing is applicable.
- `UpdateStrategyScenarios` (`scenarios.dfy`): each test scenario as a lemma over the model. Most scenarios with several checks have one lemma per check and one lemma gathering them; `OrderOfBuildsDoesNotMatter` and `PatchExclusions` state their checks in a single lemma.

The duplicate-build scenario (test lines 197-219) expects `IDEA15_Beta` when the release channels are listed before the beta ones (line 212). That rules out plain document order as the tie-break between equal numbers. Ties go to the first channel, in document order, of the most eager eligible tier that offers the number. The model gets this by scanning the eligible channels reordered by tier. Scanning the channels in plain catalog order would contradict lines 209 and 212; the model follows the tests.

## Model

| member | source | states |
|---|---|---|
| BuildNumbers.SameBaseline | platform/platform-tests/testSrc/com/intellij/ide/updates/UpdateStrategyTest.kt:141-179 | definition: two numbers share a baseline when both have a first component and it is the same one |
| BuildNumbers.Compare | platform/platform-tests/testSrc/com/intellij/ide/updates/UpdateStrategyTest.kt:181-195 | definition: build numbers are ordered by their component sequences, component by component |
| BuildNumbers.Newer | platform/platform-tests/testSrc/com/intellij/ide/updates/UpdateStrategyTest.kt:141-195 | definition: one number is newer than another when it compares strictly above it |
| BuildNumbers.AtMost | platform/platform-tests/testSrc/com/intellij/ide/updates/UpdateStrategyTest.kt:121-139 | definition: one number is at most another when it compares below or equal to it; the second may end in a wildcard |
| BuildNumbers.CompareComponents | platform/platform-tests/testSrc/com/intellij/ide/updates/UpdateStrategyTest.kt:181-195 | comparison of two component sequences is always -1, 0 or 1; the empty sequence is below every non-empty one and equal only to itself |
| BuildNumbers.PrefixIsSmaller | platform/platform-tests/testSrc/com/intellij/ide/updates/UpdateStrategyTest.kt:190-194 | a wildcard-free number is strictly below each of its proper extensions (162.11 < 162.11.10) |
| BuildNumbers.CompareAntisymmetric | platform/platform-tests/testSrc/com/intellij/ide/updates/UpdateStrategyTest.kt:181-195 | swapping the operands negates the comparison |
| BuildNumbers.CompareReflexive | platform/platform-tests/testSrc/com/intellij/ide/updates/UpdateStrategyTest.kt:33-42 | every number compares equal to itself, so being on the latest build offers nothing |
| BuildNumbers.CompareZeroIsEquality | platform/platform-tests/testSrc/com/intellij/ide/updates/UpdateStrategyTest.kt:131-139 | for wildcard-free numbers comparing equal is equality (two builds with the same number are the same number) |
| BuildNumbers.CompareTransitive | platform/platform-tests/testSrc/com/intellij/ide/updates/UpdateStrategyTest.kt:181-195 | the order is transitive, and strictly so when either step is strict |
| BuildNumbers.WildcardBound | platform/platform-tests/testSrc/com/intellij/ide/updates/UpdateStrategyTest.kt:124 | a concrete number is at most the bound `p.*` exactly when its first |p| components are at most `p` |
| BuildNumbers.WildcardCoversExtensions | platform/platform-tests/testSrc/com/intellij/ide/updates/UpdateStrategyTest.kt:124-128 | `p` and every concrete extension of `p` lie strictly below `p.*` |
| ChannelPolicy.IsEligible | platform/platform-tests/testSrc/com/intellij/ide/updates/UpdateStrategyTest.kt:97-110 | definition: a subscription sees a tier exactly when that tier is at least as stable as the subscribed one |
| ChannelPolicy.EligibilityTable | platform/platform-tests/testSrc/com/intellij/ide/updates/UpdateStrategyTest.kt:97-110 | release sees only release; beta sees beta and release; EAP sees every tier |
| ChannelPolicy.EligibilityMonotone | platform/platform-tests/testSrc/com/intellij/ide/updates/UpdateStrategyTest.kt:207-218 | a more eager subscription sees every tier a more stable one sees |
| ChannelPolicy.OrderByStatus | platform/platform-tests/testSrc/com/intellij/ide/updates/UpdateStrategyTest.kt:207-218 | definition: the channels regrouped by tier, EAP then beta then release, each tier keeping document order |
| ChannelPolicy.OrderedChannels | platform/platform-tests/testSrc/com/intellij/ide/updates/UpdateStrategyTest.kt:207-218 | definition: the channels scanned for a subscription are its eligible channels, regrouped by tier |
| ChannelPolicy.OfTierConcat | platform/platform-tests/testSrc/com/intellij/ide/updates/UpdateStrategyTest.kt:197-219 | filtering by tier distributes over concatenation |
| ChannelPolicy.OfTierMembers | platform/platform-tests/testSrc/com/intellij/ide/updates/UpdateStrategyTest.kt:197-219 | the channels of a tier are exactly the channels with that status |
| ChannelPolicy.EligibleMembers | platform/platform-tests/testSrc/com/intellij/ide/updates/UpdateStrategyTest.kt:97-110 | the eligible channels are exactly the channels whose tier the subscription sees |
| ChannelPolicy.OfTierOfEligible | platform/platform-tests/testSrc/com/intellij/ide/updates/UpdateStrategyTest.kt:207-218 | within an eligible tier the eligibility filter keeps every channel in document order; an ineligible tier is dropped whole |
| ChannelPolicy.OrderByStatusStable | platform/platform-tests/testSrc/com/intellij/ide/updates/UpdateStrategyTest.kt:207-210 | the tier reorder keeps document order within every tier |
| ChannelPolicy.OrderByStatusSorted | platform/platform-tests/testSrc/com/intellij/ide/updates/UpdateStrategyTest.kt:209-212 | after the reorder, channels of more eager tiers come first |
| ChannelPolicy.OrderByStatusPermutation | platform/platform-tests/testSrc/com/intellij/ide/updates/UpdateStrategyTest.kt:207-218 | the reorder is a permutation: nothing added, dropped or duplicated |
| ChannelPolicy.OrderByStatusBlocks | platform/platform-tests/testSrc/com/intellij/ide/updates/UpdateStrategyTest.kt:209-217 | each tier occupies one contiguous block of the reordered sequence, holding that tier's channels in document order |
| ChannelPolicy.TierIndex | platform/platform-tests/testSrc/com/intellij/ide/updates/UpdateStrategyTest.kt:212-213 | the k-th reordered channel is the q-th channel of its tier, and the tier's earlier channels sit immediately before it |
| ChannelPolicy.OrderedChannelsSpec | platform/platform-tests/testSrc/com/intellij/ide/updates/UpdateStrategyTest.kt:97-110 | the scanned channels are exactly the eligible ones; each eligible tier keeps document order, an ineligible tier is absent; more eager tiers come first |
| UpdateStrategy.InTargetRange | platform/platform-tests/testSrc/com/intellij/ide/updates/UpdateStrategyTest.kt:121-139 | definition: a build with a target range applies only when the running build lies inside it, both ends included; the upper end may be a wildcard bound |
| UpdateStrategy.IsApplicable | platform/platform-tests/testSrc/com/intellij/ide/updates/UpdateStrategyTest.kt:33-129 | definition: a build is considered only when it is strictly newer than the running build, is not ignored and has the running build in its target range |
| UpdateStrategy.Outranks | platform/platform-tests/testSrc/com/intellij/ide/updates/UpdateStrategyTest.kt:141-179 | definition: one number is preferred over another when it shares the running build's baseline and the other does not, or when both agree on that and it is newer |
| UpdateStrategy.Offers | platform/platform-tests/testSrc/com/intellij/ide/updates/UpdateStrategyTest.kt:56-70 | definition: a channel offers its applicable builds in declared order |
| UpdateStrategy.Candidates | platform/platform-tests/testSrc/com/intellij/ide/updates/UpdateStrategyTest.kt:56-70 | definition: the candidates are the offers of each scanned channel, channel after channel |
| UpdateStrategy.Pick | platform/platform-tests/testSrc/com/intellij/ide/updates/UpdateStrategyTest.kt:56-95 | the first-wins fold finds nothing exactly when there are no candidates, and otherwise returns one of them |
| UpdateStrategy.CheckForUpdates | platform/platform-tests/testSrc/com/intellij/ide/updates/UpdateStrategyTest.kt:236-237 | every check ends in state LOADED, and a build is returned exactly when a channel is |
| UpdateStrategy.FindPatch | platform/platform-tests/testSrc/com/intellij/ide/updates/UpdateStrategyTest.kt:44-54 | a patch found is one of the build's patches, upgrades from the given build and is not excluded on the host; none is found exactly when no patch does both |
| UpdateStrategy.FindPatchForBuild | platform/platform-tests/testSrc/com/intellij/ide/updates/UpdateStrategyTest.kt:52-53 | a patch is found only for a selected build, upgrades from the given build, is not excluded on the host; none is found exactly when nothing was selected or no patch of the selection matches |
| UpdateStrategy.FindPatchIsFirst | platform/platform-tests/testSrc/com/intellij/ide/updates/UpdateStrategyTest.kt:44-54 | the patch found is the first matching one in document order |
| UpdateStrategy.PatchExcludedEverywhere | platform/platform-tests/testSrc/com/intellij/ide/updates/UpdateStrategyTest.kt:49 | a patch excluded on win, mac and unix matches on no host |
| UpdateStrategy.OutranksIrreflexive | platform/platform-tests/testSrc/com/intellij/ide/updates/UpdateStrategyTest.kt:197-219 | no number outranks itself, so an equal number never displaces the first one seen |
| UpdateStrategy.OutranksTransitive | platform/platform-tests/testSrc/com/intellij/ide/updates/UpdateStrategyTest.kt:141-170 | the preference (same baseline first, then newer) is transitive |
| UpdateStrategy.OutranksSplits | platform/platform-tests/testSrc/com/intellij/ide/updates/UpdateStrategyTest.kt:141-170 | if x outranks z then any y is outranked by x or outranks z |
| UpdateStrategy.OutranksTotal | platform/platform-tests/testSrc/com/intellij/ide/updates/UpdateStrategyTest.kt:141-179 | for wildcard-free build numbers (the numbers of actual builds), two numbers neither of which outranks the other are the same number |
| UpdateStrategy.OutrankingTheBest | platform/platform-tests/testSrc/com/intellij/ide/updates/UpdateStrategyTest.kt:56-95 | a number that outranks a candidate no candidate outranks outranks every candidate and is outranked by none |
| UpdateStrategy.PickSpec | platform/platform-tests/testSrc/com/intellij/ide/updates/UpdateStrategyTest.kt:56-95 | the fold returns the first candidate that no candidate outranks: it outranks every earlier candidate and is outranked by none |
| SelectionProperties.OffersInverse | platform/platform-tests/testSrc/com/intellij/ide/updates/UpdateStrategyTest.kt:56-70 | every offer of a channel comes from an applicable build of it, at the matching offer position |
| SelectionProperties.PositionAt | platform/platform-tests/testSrc/com/intellij/ide/updates/UpdateStrategyTest.kt:56-70 | each applicable build of a scanned channel appears in the candidate list at its scan position |
| SelectionProperties.PositionBefore | platform/platform-tests/testSrc/com/intellij/ide/updates/UpdateStrategyTest.kt:197-219 | a build scanned earlier has an earlier candidate position |
| SelectionProperties.CandidatesInverse | platform/platform-tests/testSrc/com/intellij/ide/updates/UpdateStrategyTest.kt:56-70 | every candidate is an applicable build of a scanned channel at that scan position |
| SelectionProperties.CheckForUpdatesSelects | platform/platform-tests/testSrc/com/intellij/ide/updates/UpdateStrategyTest.kt:221-239 | nothing is returned exactly when no scanned channel offers an applicable build; otherwise the result is the best offer of the scan (outranked by no offer, outranking every earlier offer) and the channel it came from |
| SelectionProperties.ScannedIndex | platform/platform-tests/testSrc/com/intellij/ide/updates/UpdateStrategyTest.kt:97-110 | every build of an eligible channel is reached by the scan |
| SelectionProperties.SelectedUpdateIsSafe | platform/platform-tests/testSrc/com/intellij/ide/updates/UpdateStrategyTest.kt:97-119 | a returned build belongs to the returned channel, which is an eligible channel of the product; it is strictly newer than the running build, not ignored, and within its target range |
| SelectionProperties.NoUpdateIffNothingApplicable | platform/platform-tests/testSrc/com/intellij/ide/updates/UpdateStrategyTest.kt:28-42 | nothing is returned exactly when no eligible channel has an applicable build |
| SelectionProperties.SelectedUpdateIsBest | platform/platform-tests/testSrc/com/intellij/ide/updates/UpdateStrategyTest.kt:141-179 | against every applicable build of an eligible channel the selection keeps the baseline whenever that build does, and is at least as new when both agree on the baseline |
| SelectionProperties.MostEagerTierWins | platform/platform-tests/testSrc/com/intellij/ide/updates/UpdateStrategyTest.kt:207-218 | an applicable build of a more eager tier than the returned channel's is strictly outranked by the selection, so equal numbers are taken from the most eager tier |
| SelectionProperties.FirstListedWithinTierWins | platform/platform-tests/testSrc/com/intellij/ide/updates/UpdateStrategyTest.kt:131-139 | the returned channel is the q-th of its tier in document order, and applicable builds of earlier channels of that tier, or earlier in the same channel, are strictly outranked |
| SelectionProperties.ScannedTierIsEligible | platform/platform-tests/testSrc/com/intellij/ide/updates/UpdateStrategyTest.kt:97-110 | the tier of a scanned channel passes the eligibility filter whole |
| SelectionProperties.OfferedWitness | platform/platform-tests/testSrc/com/intellij/ide/updates/UpdateStrategyTest.kt:56-70 | every offered number comes from an applicable build of an eligible channel |
| SelectionProperties.SelectedNumberDependsOnlyOnOffers | platform/platform-tests/testSrc/com/intellij/ide/updates/UpdateStrategyTest.kt:56-70 | for wildcard-free build numbers (the numbers of actual builds), two catalogs offering the same set of numbers select the same number, whatever the order of builds and channels |
| SelectionProperties.SelectedNumberIsTheBest | platform/platform-tests/testSrc/com/intellij/ide/updates/UpdateStrategyTest.kt:72-95 | for wildcard-free build numbers (the numbers of actual builds), an applicable offer that no applicable offer outranks is the number selected |
| SelectionProperties.DuplicateSelectsFirstOfMostEagerTier | platform/platform-tests/testSrc/com/intellij/ide/updates/UpdateStrategyTest.kt:197-219 | for a duplicated number the returned channel is of the most eager tier offering it; it is the q-th channel of its tier, and no earlier channel of that tier has an applicable build with that number |
| SelectionProperties.NothingApplicableMeansNoUpdate | platform/platform-tests/testSrc/com/intellij/ide/updates/UpdateStrategyTest.kt:28-31 | with no applicable build in any eligible channel nothing is returned |
| SelectionProperties.OnlyOfferIsSelected | platform/platform-tests/testSrc/com/intellij/ide/updates/UpdateStrategyTest.kt:44-51 | when exactly one applicable (channel, build) pair exists, that build and channel are returned |
| UpdateStrategyScenarios.ChannelContainsNoBuilds | platform/platform-tests/testSrc/com/intellij/ide/updates/UpdateStrategyTest.kt:28-31 | a release channel with no builds offers nothing |
| UpdateStrategyScenarios.AlreadyOnTheLatestBuild | platform/platform-tests/testSrc/com/intellij/ide/updates/UpdateStrategyTest.kt:33-42 | running 145.258 with 143.2332 and 145.258 published offers nothing |
| UpdateStrategyScenarios.PatchedBuildIsSelected | platform/platform-tests/testSrc/com/intellij/ide/updates/UpdateStrategyTest.kt:44-51 | the only newer build, 145.597, is selected |
| UpdateStrategyScenarios.PatchesOfSelected | platform/platform-tests/testSrc/com/intellij/ide/updates/UpdateStrategyTest.kt:52-53 | whenever the patched build 145.597 is the selection, on every host a patch from 145.596 is found and none from 145.258 |
| UpdateStrategyScenarios.PatchExclusions | platform/platform-tests/testSrc/com/intellij/ide/updates/UpdateStrategyTest.kt:44-54 | on every host a patch from 145.596 is found and none from 145.258 |
| UpdateStrategyScenarios.OrderOfBuildsDoesNotMatter | platform/platform-tests/testSrc/com/intellij/ide/updates/UpdateStrategyTest.kt:56-70 | 145.597 is selected whether listed before or after 145.258 |
| UpdateStrategyScenarios.NewerUpdatesArePreferred | platform/platform-tests/testSrc/com/intellij/ide/updates/UpdateStrategyTest.kt:72-81 | the release 145.597 beats the EAP 145.596 for an EAP subscriber |
| UpdateStrategyScenarios.NewerUpdatesArePreferredOverMoreStableOnes | platform/platform-tests/testSrc/com/intellij/ide/updates/UpdateStrategyTest.kt:83-95 | the EAP 145.596 beats the beta and release builds |
| UpdateStrategyScenarios.ReleaseSubscriberGetsRelease | platform/platform-tests/testSrc/com/intellij/ide/updates/UpdateStrategyTest.kt:108 | a release subscriber on 145.256 gets 145.258, not the newer EAP or beta builds |
| UpdateStrategyScenarios.ReleaseSubscriberIgnoresEapAndBeta | platform/platform-tests/testSrc/com/intellij/ide/updates/UpdateStrategyTest.kt:109 | a release subscriber on 145.258 gets nothing although EAP 145.596 exists |
| UpdateStrategyScenarios.NewerUpdatesFromNonAllowedChannelsAreIgnored | platform/platform-tests/testSrc/com/intellij/ide/updates/UpdateStrategyTest.kt:97-110 | both checks of the scenario |
| UpdateStrategyScenarios.IgnoredUpdatesAreExcluded | platform/platform-tests/testSrc/com/intellij/ide/updates/UpdateStrategyTest.kt:112-119 | with 145.596 ignored the next best, 145.595, is selected |
| UpdateStrategyScenarios.WithinWildcardBounds | platform/platform-tests/testSrc/com/intellij/ide/updates/UpdateStrategyTest.kt:124-138 | 145.595 is at most 145.* and 163.50 is at most 163.* |
| UpdateStrategyScenarios.TargetedDifferentOutsideRange | platform/platform-tests/testSrc/com/intellij/ide/updates/UpdateStrategyTest.kt:127 | running 145.258, outside the range of 145.596, gets 145.595 |
| UpdateStrategyScenarios.TargetedDifferentInsideRange | platform/platform-tests/testSrc/com/intellij/ide/updates/UpdateStrategyTest.kt:128 | running 145.595, inside the range, gets the targeted 145.596 |
| UpdateStrategyScenarios.UpdatesCanBeTargetedForSpecificBuildsDifferentBuilds | platform/platform-tests/testSrc/com/intellij/ide/updates/UpdateStrategyTest.kt:121-129 | both checks of the scenario |
| UpdateStrategyScenarios.TargetedSameOutsideRange | platform/platform-tests/testSrc/com/intellij/ide/updates/UpdateStrategyTest.kt:137 | running 145.258 gets the untargeted 163.101 entry |
| UpdateStrategyScenarios.TargetedSameInsideRange | platform/platform-tests/testSrc/com/intellij/ide/updates/UpdateStrategyTest.kt:138 | running 163.50 gets the first-listed, targeted 163.101 entry |
| UpdateStrategyScenarios.UpdatesCanBeTargetedForSpecificBuildsSameBuild | platform/platform-tests/testSrc/com/intellij/ide/updates/UpdateStrategyTest.kt:131-139 | the two checks return the entries with messages "new release" and "bug fix" |
| UpdateStrategyScenarios.UpdatesFromTheSameBaselineArePreferredUnifiedChannels | platform/platform-tests/testSrc/com/intellij/ide/updates/UpdateStrategyTest.kt:141-152 | running 143.2287, 143.2332 beats the newer 145.x builds |
| UpdateStrategyScenarios.UpdatesFromTheSameBaselineArePreferredPerReleaseChannels | platform/platform-tests/testSrc/com/intellij/ide/updates/UpdateStrategyTest.kt:155-170 | the same with one channel per release line |
| UpdateStrategyScenarios.CrossBaselineUpdatesArePerfectlyLegal | platform/platform-tests/testSrc/com/intellij/ide/updates/UpdateStrategyTest.kt:172-179 | running 143.2332 with nothing newer on its baseline, 145.597 is selected |
| UpdateStrategyScenarios.VariableLengthOrdering | platform/platform-tests/testSrc/com/intellij/ide/updates/UpdateStrategyTest.kt:181-195 | 162.7.23 < 162.11.10 < 162.11.11, 162.11.10 < 162.48, 145.597 < 162.11.10 |
| UpdateStrategyScenarios.VariableLengthFromOlderBaseline | platform/platform-tests/testSrc/com/intellij/ide/updates/UpdateStrategyTest.kt:186 | running 145.597 gets 162.11.10 |
| UpdateStrategyScenarios.VariableLengthSameBaseline | platform/platform-tests/testSrc/com/intellij/ide/updates/UpdateStrategyTest.kt:187 | running 162.7.23 gets 162.11.10 |
| UpdateStrategyScenarios.VariableLengthAlreadyNewer | platform/platform-tests/testSrc/com/intellij/ide/updates/UpdateStrategyTest.kt:188 | running 162.11.11 gets nothing |
| UpdateStrategyScenarios.VariableLengthShorterIsNewer | platform/platform-tests/testSrc/com/intellij/ide/updates/UpdateStrategyTest.kt:190-194 | running 162.11.10 gets 162.48 |
| UpdateStrategyScenarios.VariableLengthBuildNumbersAreSupported | platform/platform-tests/testSrc/com/intellij/ide/updates/UpdateStrategyTest.kt:181-195 | all four checks of the scenario |
| UpdateStrategyScenarios.DuplicateGoesToFirstOfSubscribedTier | platform/platform-tests/testSrc/com/intellij/ide/updates/UpdateStrategyTest.kt:197-219 | when every channel offers the same newer build, the channel returned is the first of the subscribed tier in document order |
| UpdateStrategyScenarios.DuplicateInOrderEap | platform/platform-tests/testSrc/com/intellij/ide/updates/UpdateStrategyTest.kt:207 | EAP subscriber, tiers in order: IDEA15_EAP |
| UpdateStrategyScenarios.DuplicateInOrderSwappedEap | platform/platform-tests/testSrc/com/intellij/ide/updates/UpdateStrategyTest.kt:208 | EAP subscriber, tiers in order, pairs swapped: IDEA_EAP |
| UpdateStrategyScenarios.DuplicateReversedEap | platform/platform-tests/testSrc/com/intellij/ide/updates/UpdateStrategyTest.kt:209 | EAP subscriber, release channels first: IDEA15_EAP |
| UpdateStrategyScenarios.DuplicateReversedSwappedEap | platform/platform-tests/testSrc/com/intellij/ide/updates/UpdateStrategyTest.kt:210 | EAP subscriber, release first, pairs swapped: IDEA_EAP |
| UpdateStrategyScenarios.DuplicateReversedBeta | platform/platform-tests/testSrc/com/intellij/ide/updates/UpdateStrategyTest.kt:212 | beta subscriber, release first: IDEA15_Beta |
| UpdateStrategyScenarios.DuplicateReversedSwappedBeta | platform/platform-tests/testSrc/com/intellij/ide/updates/UpdateStrategyTest.kt:213 | beta subscriber, release first, pairs swapped: IDEA_Beta |
| UpdateStrategyScenarios.DuplicateInOrderRelease | platform/platform-tests/testSrc/com/intellij/ide/updates/UpdateStrategyTest.kt:215 | release subscriber, tiers in order: IDEA15_Release |
| UpdateStrategyScenarios.DuplicateInOrderSwappedRelease | platform/platform-tests/testSrc/com/intellij/ide/updates/UpdateStrategyTest.kt:216 | release subscriber, pairs swapped: IDEA_Release |
| UpdateStrategyScenarios.DuplicateReversedRelease | platform/platform-tests/testSrc/com/intellij/ide/updates/UpdateStrategyTest.kt:217 | release subscriber, release first: IDEA15_Release |
| UpdateStrategyScenarios.DuplicateReversedSwappedRelease | platform/platform-tests/testSrc/com/intellij/ide/updates/UpdateStrategyTest.kt:218 | release subscriber, release first, pairs swapped: IDEA_Release |
| UpdateStrategyScenarios.ForDuplicateBuildsFirstMatchingChannelIsPreferred | platform/platform-tests/testSrc/com/intellij/ide/updates/UpdateStrategyTest.kt:197-219 | all ten checks of the scenario, for any running build older than 163.9166 (the scenario runs 163.1) |

## Left out

- XML ingestion (`loadElement`, `UpdatesInfo(...)`, test lines 225-231): the model takes the product's channels, builds and patches as already-built values in document order.
- Product lookup by product code, and its not-found failure: the model is given the channels of the running product. The product-code prefix (`IU-`) of a build number plays no part in comparison and is not represented.
- Build-number parsing (`BuildNumber.fromString`) and malformed-number failures: build numbers are given as component sequences. No contract is stated for malformed input.
- Fixed-width components: components are unbounded naturals. The source's machine-integer width and any special component values other than the wildcard are not modelled.
- A wildcard used as a lower bound (`targetSince`): it is compared by the same rule, but no contract is stated for it.
- Ignored builds are compared as build numbers; the source keeps them as strings. An ignored entry matches a build exactly when the two numbers are equal.
- The `UserUpdateSettings` interface is modelled as a plain record of the tier and the ignored list.
- Host-platform detection: the platform is a parameter of the patch lookup.
- `licensing`, `majorVersion`, `version` and `message` are carried as payload and take no part in the decision.
- Check states other than `Loaded` (a failed check) are not modelled, since no scenario produces one.
- `UpdateStrategyScenarios.ForDuplicateBuildsFirstMatchingChannelIsPreferred` and the `Duplicate...` lemmas are stated for every running build older than 163.9166. The scenario's own build, 163.1, is one of these.
- `platform/lang-impl/src/com/intellij/openapi/roots/impl/OrderEntryBaseImpl.java` is not part of this model. It is root-model glue (identity equality, a class check, a static hash counter, a logger assertion) unrelated to update resolution.
