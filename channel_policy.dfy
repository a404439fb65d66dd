/**
 * Which channels a user sees, and in which order they are scanned.  A user
 * subscribed at a tier sees that tier and every more stable one; the
 * channels seen are then reordered, most eager tier first, by a stable
 * reorder that keeps document order within each tier.
 */
module ChannelPolicy {
  import opened UpdatesInfo

  /** Position of a tier from the most eager (EAP) to the most stable (release). */
  function Rank(s: ChannelStatus): nat {
    match s
    case Eap => 0
    case Beta => 1
    case Release => 2
  }

  /** A user subscribed at `selected` sees channels of tier `status`. */
  predicate IsEligible(selected: ChannelStatus, status: ChannelStatus) {
    Rank(status) >= Rank(selected)
  }

  lemma EligibilityTable(s: ChannelStatus)
    ensures IsEligible(Release, s) <==> s == Release
    ensures IsEligible(Beta, s) <==> s == Beta || s == Release
    ensures IsEligible(Eap, s)
  {
  }

  /** A more eager subscription sees everything a more stable one sees. */
  lemma EligibilityMonotone(s1: ChannelStatus, s2: ChannelStatus, status: ChannelStatus)
    requires Rank(s1) <= Rank(s2) && IsEligible(s2, status)
    ensures IsEligible(s1, status)
  {
  }

  /** The channels the subscription sees, in document order. */
  function EligibleChannels(selected: ChannelStatus, chs: seq<Channel>): seq<Channel> {
    if chs == [] then []
    else (if IsEligible(selected, chs[0].status) then [chs[0]] else []) + EligibleChannels(selected, chs[1..])
  }

  /** The channels of one tier, in document order. */
  function OfTier(chs: seq<Channel>, t: ChannelStatus): seq<Channel> {
    if chs == [] then []
    else (if chs[0].status == t then [chs[0]] else []) + OfTier(chs[1..], t)
  }

  /** Stable reorder by tier, most eager first. */
  function OrderByStatus(chs: seq<Channel>): seq<Channel> {
    OfTier(chs, Eap) + OfTier(chs, Beta) + OfTier(chs, Release)
  }

  /** The channels scanned for a subscription: the eligible ones, reordered by tier. */
  function OrderedChannels(selected: ChannelStatus, chs: seq<Channel>): seq<Channel> {
    OrderByStatus(EligibleChannels(selected, chs))
  }

  lemma {:induction false} OfTierConcat(a: seq<Channel>, b: seq<Channel>, t: ChannelStatus)
    ensures OfTier(a + b, t) == OfTier(a, t) + OfTier(b, t)
  {
    if a != [] {
      var head := if a[0].status == t then [a[0]] else [];
      assert (a + b)[0] == a[0];
      assert (a + b)[1..] == a[1..] + b;
      OfTierConcat(a[1..], b, t);
      calc {
        OfTier(a + b, t);
        head + OfTier(a[1..] + b, t);
        head + (OfTier(a[1..], t) + OfTier(b, t));
        (head + OfTier(a[1..], t)) + OfTier(b, t);
      }
    } else {
      assert a + b == b;
    }
  }

  lemma {:induction false} OfTierMembers(chs: seq<Channel>, t: ChannelStatus)
    ensures forall c :: c in OfTier(chs, t) <==> c in chs && c.status == t
  {
    if chs != [] {
      OfTierMembers(chs[1..], t);
      assert chs == [chs[0]] + chs[1..];
    }
  }

  lemma {:induction false} EligibleMembers(selected: ChannelStatus, chs: seq<Channel>)
    ensures forall c :: c in EligibleChannels(selected, chs) <==> c in chs && IsEligible(selected, c.status)
  {
    if chs != [] {
      EligibleMembers(selected, chs[1..]);
      assert chs == [chs[0]] + chs[1..];
    }
  }

  lemma {:induction false} OfTierOfTier(chs: seq<Channel>, t: ChannelStatus, u: ChannelStatus)
    ensures OfTier(OfTier(chs, t), u) == if t == u then OfTier(chs, t) else []
  {
    if chs != [] {
      var head := if chs[0].status == t then [chs[0]] else [];
      OfTierConcat(head, OfTier(chs[1..], t), u);
      OfTierOfTier(chs[1..], t, u);
    }
  }

  lemma {:induction false} OfTierOfEligible(selected: ChannelStatus, chs: seq<Channel>, t: ChannelStatus)
    ensures OfTier(EligibleChannels(selected, chs), t) == if IsEligible(selected, t) then OfTier(chs, t) else []
  {
    if chs != [] {
      var head := if IsEligible(selected, chs[0].status) then [chs[0]] else [];
      OfTierConcat(head, EligibleChannels(selected, chs[1..]), t);
      OfTierOfEligible(selected, chs[1..], t);
    }
  }

  /** The reorder keeps document order within every tier. */
  lemma OrderByStatusStable(chs: seq<Channel>, t: ChannelStatus)
    ensures OfTier(OrderByStatus(chs), t) == OfTier(chs, t)
  {
    OfTierConcat(OfTier(chs, Eap) + OfTier(chs, Beta), OfTier(chs, Release), t);
    OfTierConcat(OfTier(chs, Eap), OfTier(chs, Beta), t);
    OfTierOfTier(chs, Eap, t);
    OfTierOfTier(chs, Beta, t);
    OfTierOfTier(chs, Release, t);
  }

  /** The reorder puts more eager tiers first. */
  lemma OrderByStatusSorted(chs: seq<Channel>)
    ensures forall i, j :: 0 <= i < j < |OrderByStatus(chs)| ==>
      Rank(OrderByStatus(chs)[i].status) <= Rank(OrderByStatus(chs)[j].status)
  {
    var e, b, r := OfTier(chs, Eap), OfTier(chs, Beta), OfTier(chs, Release);
    var s := OrderByStatus(chs);
    OfTierMembers(chs, Eap);
    OfTierMembers(chs, Beta);
    OfTierMembers(chs, Release);
    forall i, j | 0 <= i < j < |s| ensures Rank(s[i].status) <= Rank(s[j].status) {
      assert s[i] in (if i < |e| then e else if i < |e| + |b| then b else r);
      assert s[j] in (if j < |e| then e else if j < |e| + |b| then b else r);
    }
  }

  lemma {:induction false} TiersPartition(chs: seq<Channel>)
    ensures multiset(OfTier(chs, Eap)) + multiset(OfTier(chs, Beta)) + multiset(OfTier(chs, Release)) == multiset(chs)
  {
    if chs != [] {
      var c, rest := chs[0], chs[1..];
      TiersPartition(rest);
      assert chs == [c] + rest;
      var e, b, r := multiset(OfTier(rest, Eap)), multiset(OfTier(rest, Beta)), multiset(OfTier(rest, Release));
      assert multiset(chs) == multiset{c} + (e + b + r);
      var e', b', r' := multiset(OfTier(chs, Eap)), multiset(OfTier(chs, Beta)), multiset(OfTier(chs, Release));
      match c.status
      case Eap =>
        assert e' == multiset{c} + e && b' == b && r' == r;
      case Beta =>
        assert e' == e && b' == multiset{c} + b && r' == r;
      case Release =>
        assert e' == e && b' == b && r' == multiset{c} + r;
    }
  }

  lemma OrderByStatusMembers(chs: seq<Channel>)
    ensures forall c :: c in OrderByStatus(chs) <==> c in chs
  {
    OfTierMembers(chs, Eap);
    OfTierMembers(chs, Beta);
    OfTierMembers(chs, Release);
  }

  /** Where the channels of tier `t` start in the reordered sequence. */
  function TierOffset(chs: seq<Channel>, t: ChannelStatus): nat {
    match t
    case Eap => 0
    case Beta => |OfTier(chs, Eap)|
    case Release => |OfTier(chs, Eap)| + |OfTier(chs, Beta)|
  }

  /** The channels of each tier form one contiguous block of the reordered sequence, in document order. */
  lemma OrderByStatusBlocks(chs: seq<Channel>, t: ChannelStatus)
    ensures TierOffset(chs, t) + |OfTier(chs, t)| <= |OrderByStatus(chs)|
    ensures forall p :: 0 <= p < |OfTier(chs, t)| ==> OrderByStatus(chs)[TierOffset(chs, t) + p] == OfTier(chs, t)[p]
    ensures forall k :: 0 <= k < |OrderByStatus(chs)| && OrderByStatus(chs)[k].status == t ==>
      TierOffset(chs, t) <= k < TierOffset(chs, t) + |OfTier(chs, t)|
  {
    forall p | 0 <= p < |OfTier(chs, t)| ensures OrderByStatus(chs)[TierOffset(chs, t) + p] == OfTier(chs, t)[p] {
      BlockElement(chs, t, p);
    }
    forall k | 0 <= k < |OrderByStatus(chs)| && OrderByStatus(chs)[k].status == t
      ensures TierOffset(chs, t) <= k < TierOffset(chs, t) + |OfTier(chs, t)|
    {
      BlockStatus(chs, k);
    }
  }

  /** The `p`-th channel of tier `t` sits `p` places into that tier's block. */
  lemma BlockElement(chs: seq<Channel>, t: ChannelStatus, p: nat)
    requires p < |OfTier(chs, t)|
    ensures TierOffset(chs, t) + p < |OrderByStatus(chs)|
    ensures OrderByStatus(chs)[TierOffset(chs, t) + p] == OfTier(chs, t)[p]
  {
    var e, b, r := OfTier(chs, Eap), OfTier(chs, Beta), OfTier(chs, Release);
    match t
    case Eap => ThreeBlocksIndex(e, b, r, p, 0);
    case Beta => ThreeBlocksIndex(e, b, r, p, 1);
    case Release => ThreeBlocksIndex(e, b, r, p, 2);
  }

  lemma ThreeBlocksIndex<T>(a: seq<T>, b: seq<T>, c: seq<T>, p: nat, block: nat)
    requires block <= 2
    requires p < |[a, b, c][block]|
    ensures block == 0 ==> (a + b + c)[p] == a[p]
    ensures block == 1 ==> (a + b + c)[|a| + p] == b[p]
    ensures block == 2 ==> (a + b + c)[|a| + |b| + p] == c[p]
  {
  }

  /** The status of a channel of the reordered sequence is that of the block it lies in. */
  lemma BlockStatus(chs: seq<Channel>, k: nat)
    requires k < |OrderByStatus(chs)|
    ensures OrderByStatus(chs)[k].status == (if k < TierOffset(chs, Beta) then Eap else if k < TierOffset(chs, Release) then Beta else Release)
    ensures var t := OrderByStatus(chs)[k].status; TierOffset(chs, t) <= k < TierOffset(chs, t) + |OfTier(chs, t)|
  {
    var e, b, r := OfTier(chs, Eap), OfTier(chs, Beta), OfTier(chs, Release);
    var s := OrderByStatus(chs);
    assert s == e + b + r;
    if k < |e| {
      OfTierMembers(chs, Eap);
      assert s[k] == e[k] && e[k] in e;
    } else if k < |e| + |b| {
      OfTierMembers(chs, Beta);
      assert s[k] == b[k - |e|] && b[k - |e|] in b;
    } else {
      OfTierMembers(chs, Release);
      assert s[k] == r[k - |e| - |b|] && r[k - |e| - |b|] in r;
    }
  }

  /**
   * Channel `k` of the reordered sequence is channel `q` of its tier in
   * document order, and the channels of the tier before it immediately precede it.
   */
  lemma TierIndex(chs: seq<Channel>, k: nat) returns (q: nat, off: nat)
    requires k < |OrderByStatus(chs)|
    ensures var s, t := OrderByStatus(chs), OrderByStatus(chs)[k].status;
      q < |OfTier(chs, t)| && OfTier(chs, t)[q] == s[k] && off + q == k &&
      forall p :: 0 <= p < q ==> s[off + p] == OfTier(chs, t)[p]
  {
    var t := OrderByStatus(chs)[k].status;
    BlockStatus(chs, k);
    off := TierOffset(chs, t);
    q := k - off;
    BlockElement(chs, t, q);
    forall p | 0 <= p < q ensures OrderByStatus(chs)[off + p] == OfTier(chs, t)[p] {
      BlockElement(chs, t, p);
    }
  }

  /** The reorder neither adds, drops nor duplicates a channel. */
  lemma OrderByStatusPermutation(chs: seq<Channel>)
    ensures multiset(OrderByStatus(chs)) == multiset(chs)
  {
    TiersPartition(chs);
  }

  /**
   * The channels scanned are exactly the eligible ones: every eligible tier
   * in document order, an ineligible tier not at all, more eager tiers first.
   */
  lemma OrderedChannelsSpec(selected: ChannelStatus, chs: seq<Channel>)
    ensures forall c :: c in OrderedChannels(selected, chs) <==> c in chs && IsEligible(selected, c.status)
    ensures forall t :: OfTier(OrderedChannels(selected, chs), t) == if IsEligible(selected, t) then OfTier(chs, t) else []
    ensures forall i, j :: 0 <= i < j < |OrderedChannels(selected, chs)| ==>
      Rank(OrderedChannels(selected, chs)[i].status) <= Rank(OrderedChannels(selected, chs)[j].status)
  {
    var e := EligibleChannels(selected, chs);
    EligibleMembers(selected, chs);
    OrderByStatusMembers(e);
    forall t ensures OfTier(OrderedChannels(selected, chs), t) == if IsEligible(selected, t) then OfTier(chs, t) else [] {
      OrderByStatusStable(e, t);
      OfTierOfEligible(selected, chs, t);
    }
    OrderByStatusSorted(e);
  }
}
