/**
 * The update decision: given the running build, the user's settings and the
 * product's channels, pick the build to offer and the channel it came from.
 *
 * The eligible channels are scanned most eager tier first (document order
 * within a tier), each channel's builds in document order.  A build is a
 * candidate when it is strictly newer than the running build, not ignored,
 * and its target range (if any) contains the running build.  The candidates
 * are folded left to right: a candidate replaces the best so far only when
 * it outranks it (same baseline as the running build first, then the larger
 * number), so the first one seen wins every tie.
 */
module UpdateStrategy {
  import opened Optional
  import opened BuildNumbers
  import opened UpdatesInfo
  import opened ChannelPolicy

  /** The user's choices: the subscribed tier and the build numbers they chose to skip. */
  datatype UserUpdateSettings = UserUpdateSettings(selectedChannelStatus: ChannelStatus, ignoredBuildNumbers: seq<BuildNumber>)

  /**
   * Lifecycle state of a check.  Only the loaded state is modelled, so the
   * promise that every check ends loaded holds by construction.
   */
  datatype State = Loaded

  datatype CheckForUpdateResult = CheckForUpdateResult(state: State, newBuild: Option<Build>, updatedChannel: Option<Channel>)

  /** A build paired with the channel that offers it. */
  datatype Candidate = Candidate(build: Build, channel: Channel)

  /** The build's target range, when it has one, contains `current` (both ends inclusive). */
  predicate InTargetRange(current: BuildNumber, b: Build) {
    (b.targetSince.None? || AtMost(b.targetSince.value, current)) &&
    (b.targetUntil.None? || AtMost(current, b.targetUntil.value))
  }

  /** The build may be offered to an installation running `current`. */
  predicate IsApplicable(current: BuildNumber, ignored: seq<BuildNumber>, b: Build) {
    Newer(b.number, current) && b.number !in ignored && InTargetRange(current, b)
  }

  /**
   * `x` is preferred over `y`: sharing the baseline of `current` beats not
   * sharing it, and between equals in that respect the newer number wins.
   */
  predicate Outranks(current: BuildNumber, x: BuildNumber, y: BuildNumber) {
    var sx, sy := SameBaseline(x, current), SameBaseline(y, current);
    (sx && !sy) || (sx == sy && Newer(x, y))
  }

  /** The applicable builds among `builds`, in order, each paired with `ch`. */
  function Offers(current: BuildNumber, ignored: seq<BuildNumber>, ch: Channel, builds: seq<Build>): seq<Candidate>
    decreases |builds|
  {
    if builds == [] then []
    else
      var last := builds[|builds| - 1];
      Offers(current, ignored, ch, builds[..|builds| - 1]) +
        (if IsApplicable(current, ignored, last) then [Candidate(last, ch)] else [])
  }

  /** The applicable builds of all of `chs`, channel after channel. */
  function Candidates(current: BuildNumber, ignored: seq<BuildNumber>, chs: seq<Channel>): seq<Candidate>
    decreases |chs|
  {
    if chs == [] then []
    else
      var last := chs[|chs| - 1];
      Candidates(current, ignored, chs[..|chs| - 1]) + Offers(current, ignored, last, last.builds)
  }

  /** Left fold keeping the best candidate so far; a later one replaces it only if it outranks it. */
  function Pick(current: BuildNumber, cands: seq<Candidate>): (r: Option<Candidate>)
    ensures r.None? <==> cands == []
    ensures r.Some? ==> r.value in cands
    decreases |cands|
  {
    if cands == [] then None
    else
      var best := Pick(current, cands[..|cands| - 1]);
      var c := cands[|cands| - 1];
      if best.None? || Outranks(current, c.build.number, best.value.build.number) then Some(c)
      else
        assert best.value in cands[..|cands| - 1];
        best
  }

  /** The update check for the product whose channels are `channels`. */
  function CheckForUpdates(current: BuildNumber, settings: UserUpdateSettings, channels: seq<Channel>): (r: CheckForUpdateResult)
    ensures r.state == Loaded
    ensures r.newBuild.Some? <==> r.updatedChannel.Some?
  {
    var scanned := OrderedChannels(settings.selectedChannelStatus, channels);
    match Pick(current, Candidates(current, settings.ignoredBuildNumbers, scanned))
    case None => CheckForUpdateResult(Loaded, None, None)
    case Some(c) => CheckForUpdateResult(Loaded, Some(c.build), Some(c.channel))
  }

  /** The patch upgrades from `from` and is not excluded on `host`. */
  predicate PatchMatches(p: Patch, from: BuildNumber, host: Platform) {
    p.from == from && host !in p.exclusions
  }

  /** The first patch in `patches` that upgrades from `from` on `host`. */
  function FindPatch(patches: seq<Patch>, from: BuildNumber, host: Platform): (r: Option<Patch>)
    ensures r.Some? ==> r.value in patches && PatchMatches(r.value, from, host)
    ensures r.None? <==> forall i :: 0 <= i < |patches| ==> !PatchMatches(patches[i], from, host)
  {
    if patches == [] then None
    else if PatchMatches(patches[0], from, host) then Some(patches[0])
    else FindPatch(patches[1..], from, host)
  }

  /** A patch of the selected build from `from`, usable on `host`; none when nothing was selected. */
  function FindPatchForBuild(result: CheckForUpdateResult, from: BuildNumber, host: Platform): (r: Option<Patch>)
    ensures r.Some? ==> result.newBuild.Some? && r.value in result.newBuild.value.patches
    ensures r.Some? ==> r.value.from == from && host !in r.value.exclusions
    ensures r.None? <==>
      (result.newBuild.None? || forall p :: p in result.newBuild.value.patches ==> !PatchMatches(p, from, host))
  {
    match result.newBuild
    case None => None
    case Some(b) => FindPatch(b.patches, from, host)
  }

  /** The patch found is the first matching one in document order. */
  lemma {:induction false} FindPatchIsFirst(patches: seq<Patch>, from: BuildNumber, host: Platform) returns (i: nat)
    requires FindPatch(patches, from, host).Some?
    ensures i < |patches| && FindPatch(patches, from, host) == Some(patches[i])
    ensures forall j :: 0 <= j < i ==> !PatchMatches(patches[j], from, host)
  {
    if PatchMatches(patches[0], from, host) {
      i := 0;
    } else {
      var i' := FindPatchIsFirst(patches[1..], from, host);
      i := i' + 1;
    }
  }

  /** A patch excluded on every platform is never offered. */
  lemma PatchExcludedEverywhere(p: Patch, from: BuildNumber, host: Platform)
    requires Windows in p.exclusions && Mac in p.exclusions && Unix in p.exclusions
    ensures !PatchMatches(p, from, host)
  {
  }

  lemma OutranksIrreflexive(current: BuildNumber, x: BuildNumber)
    ensures !Outranks(current, x, x)
  {
    CompareReflexive(x.components);
  }

  lemma OutranksTransitive(current: BuildNumber, x: BuildNumber, y: BuildNumber, z: BuildNumber)
    ensures Outranks(current, x, y) && Outranks(current, y, z) ==> Outranks(current, x, z)
  {
    CompareAntisymmetric(x.components, y.components);
    CompareAntisymmetric(y.components, z.components);
    CompareAntisymmetric(x.components, z.components);
    if Compare(z, y) <= 0 && Compare(y, x) <= 0 {
      CompareTransitive(z.components, y.components, x.components);
    }
  }

  /** If `x` outranks `z`, then every `y` is outranked by `x` or outranks `z`. */
  lemma OutranksSplits(current: BuildNumber, x: BuildNumber, y: BuildNumber, z: BuildNumber)
    ensures Outranks(current, x, z) ==> Outranks(current, x, y) || Outranks(current, y, z)
  {
    CompareAntisymmetric(x.components, y.components);
    CompareAntisymmetric(y.components, z.components);
    if Compare(x, y) <= 0 && Compare(y, z) <= 0 {
      CompareTransitive(x.components, y.components, z.components);
    }
  }

  /** Two build numbers of actual builds that neither outranks are the same number. */
  lemma OutranksTotal(current: BuildNumber, x: BuildNumber, y: BuildNumber)
    requires Concrete(x)
    ensures !Outranks(current, x, y) && !Outranks(current, y, x) ==> x == y
  {
    CompareAntisymmetric(x.components, y.components);
    CompareZeroIsEquality(x.components, y.components);
  }

  /** A number that outranks one no candidate outranks is itself outranked by none and outranks them all. */
  lemma OutrankingTheBest(current: BuildNumber, cands: seq<Candidate>, best: BuildNumber, c: BuildNumber)
    requires forall j :: 0 <= j < |cands| ==> !Outranks(current, cands[j].build.number, best)
    requires Outranks(current, c, best)
    ensures forall j :: 0 <= j < |cands| ==> !Outranks(current, cands[j].build.number, c)
    ensures forall j :: 0 <= j < |cands| ==> Outranks(current, c, cands[j].build.number)
  {
    forall j | 0 <= j < |cands| ensures !Outranks(current, cands[j].build.number, c) {
      OutranksTransitive(current, cands[j].build.number, c, best);
    }
    forall j | 0 <= j < |cands| ensures Outranks(current, c, cands[j].build.number) {
      OutranksSplits(current, c, cands[j].build.number, best);
    }
  }

  /**
   * The fold returns the first candidate that no candidate outranks: it
   * outranks every candidate before it and is outranked by none.
   */
  lemma {:induction false} PickSpec(current: BuildNumber, cands: seq<Candidate>) returns (i: nat)
    requires cands != []
    ensures i < |cands| && Pick(current, cands) == Some(cands[i])
    ensures forall j :: 0 <= j < |cands| ==> !Outranks(current, cands[j].build.number, cands[i].build.number)
    ensures forall j :: 0 <= j < i ==> Outranks(current, cands[i].build.number, cands[j].build.number)
    decreases |cands|
  {
    var n := |cands|;
    var init := cands[..n - 1];
    var c := cands[n - 1].build.number;
    OutranksIrreflexive(current, c);
    if init == [] {
      i := 0;
    } else {
      var i' := PickSpec(current, init);
      assert init[i'] == cands[i'];
      var best := cands[i'].build.number;
      assert forall j :: 0 <= j < n - 1 ==> init[j] == cands[j];
      if Outranks(current, c, best) {
        i := n - 1;
        assert Pick(current, cands) == Some(cands[n - 1]);
        OutrankingTheBest(current, init, best, c);
      } else {
        i := i';
        assert Pick(current, cands) == Pick(current, init);
      }
    }
  }
}
