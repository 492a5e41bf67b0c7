/** Sending a file: every block of its map goes to the least loaded outgoing channel. */
module Dispatch {
  import opened Types

  datatype Slice<B> = Slice(file: int, block: B)

  type Sessions<B> = seq<seq<Slice<B>>>

  function Loads<B>(cs: Sessions<B>): (r: seq<nat>)
    ensures |r| == |cs| && forall i :: 0 <= i < |r| ==> r[i] == |cs[i]|
  {
    seq(|cs|, i requires 0 <= i < |cs| => |cs[i]|)
  }

  function MinOf(s: seq<nat>): (m: nat)
    requires s != []
    ensures m in s && forall i :: 0 <= i < |s| ==> m <= s[i]
  {
    if |s| == 1 then s[0] else
    var m := MinOf(s[1..]);
    assert forall i :: 1 <= i < |s| ==> s[i] == s[1..][i - 1];
    if s[0] < m then s[0] else m
  }

  function MaxOf(s: seq<nat>): (m: nat)
    requires s != []
    ensures m in s && forall i :: 0 <= i < |s| ==> s[i] <= m
  {
    if |s| == 1 then s[0] else
    var m := MaxOf(s[1..]);
    assert forall i :: 1 <= i < |s| ==> s[i] == s[1..][i - 1];
    if s[0] > m then s[0] else m
  }

  /** The first channel with the least load. */
  ghost predicate IsLeast(loads: seq<nat>, c: nat) {
    && c < |loads|
    && (forall i :: 0 <= i < |loads| ==> loads[c] <= loads[i])
    && (forall i :: 0 <= i < c ==> loads[c] < loads[i])
  }

  function Put<B>(cs: Sessions<B>, c: nat, s: Slice<B>): Sessions<B>
    requires c < |cs|
  {
    cs[c := cs[c] + [s]]
  }

  /** `placed[i]` is the channel slice `i` went to, the least loaded one at that time. */
  ghost predicate Greedy(loads: seq<nat>, placed: seq<nat>)
    decreases |placed|
  {
    placed == [] ||
    (IsLeast(loads, placed[0]) && Greedy(loads[placed[0] := loads[placed[0]] + 1], placed[1..]))
  }

  ghost predicate Assignment(n: nat, placed: seq<nat>) {
    forall i :: 0 <= i < |placed| ==> placed[i] < n
  }

  function PutAll<B>(cs: Sessions<B>, slices: seq<Slice<B>>, placed: seq<nat>): Sessions<B>
    requires |slices| == |placed| && Assignment(|cs|, placed)
    decreases |slices|
  {
    if slices == [] then cs else PutAll(Put(cs, placed[0], slices[0]), slices[1..], placed[1..])
  }

  /** The slices that went to channel `c`, in order. */
  function Share<B>(slices: seq<Slice<B>>, placed: seq<nat>, c: nat): seq<Slice<B>>
    requires |slices| == |placed|
    decreases |slices|
  {
    if slices == [] then [] else (if placed[0] == c then [slices[0]] else []) + Share(slices[1..], placed[1..], c)
  }

  /** Each channel's session grows by its share: every slice goes to exactly one channel, none is lost. */
  lemma {:induction false} SessionsGrow<B>(cs: Sessions<B>, slices: seq<Slice<B>>, placed: seq<nat>, c: nat)
    requires |slices| == |placed| && Assignment(|cs|, placed) && c < |cs|
    ensures |PutAll(cs, slices, placed)| == |cs|
    ensures PutAll(cs, slices, placed)[c] == cs[c] + Share(slices, placed, c)
    decreases |slices|
  {
    if slices != [] {
      SessionsGrow(Put(cs, placed[0], slices[0]), slices[1..], placed[1..], c);
      assert PutAll(cs, slices, placed) == PutAll(Put(cs, placed[0], slices[0]), slices[1..], placed[1..]);
      ShareOn(slices, placed, c);
      hide PutAll, Share;
      Assoc(cs[c], [slices[0]], Share(slices[1..], placed[1..], c));
    }
  }

  lemma ShareOn<B>(slices: seq<Slice<B>>, placed: seq<nat>, c: nat)
    requires |slices| == |placed| > 0
    ensures var rest := Share(slices[1..], placed[1..], c);
      Share(slices, placed, c) == if placed[0] == c then [slices[0]] + rest else rest
  {
    assert [] + Share(slices[1..], placed[1..], c) == Share(slices[1..], placed[1..], c);
  }

  /** The loads after placing one slice on each channel `placed` names. */
  function LoadsAfter(loads: seq<nat>, placed: seq<nat>): (r: seq<nat>)
    requires Assignment(|loads|, placed)
    ensures |r| == |loads|
    decreases |placed|
  {
    if placed == [] then loads else LoadsAfter(loads[placed[0] := loads[placed[0]] + 1], placed[1..])
  }

  lemma {:induction false} LoadsOfPutAll<B>(cs: Sessions<B>, slices: seq<Slice<B>>, placed: seq<nat>)
    requires |slices| == |placed| && Assignment(|cs|, placed)
    ensures Loads(PutAll(cs, slices, placed)) == LoadsAfter(Loads(cs), placed)
    decreases |slices|
  {
    if slices != [] {
      var next := Put(cs, placed[0], slices[0]);
      LoadsOfPutAll(next, slices[1..], placed[1..]);
      assert Loads(next) == Loads(cs)[placed[0] := Loads(cs)[placed[0]] + 1];
    }
  }

  /** Each slice goes to the first of the channels whose load is the least when its turn comes. */
  lemma {:induction false} GreedyAt(loads: seq<nat>, placed: seq<nat>, i: nat)
    requires Greedy(loads, placed) && i < |placed|
    ensures Assignment(|loads|, placed[..i]) && placed[i] < |loads|
    ensures var now := LoadsAfter(loads, placed[..i]);
      && (forall c :: 0 <= c < |now| ==> now[placed[i]] <= now[c])
      && (forall c :: 0 <= c < placed[i] ==> now[placed[i]] < now[c])
    decreases i
  {
    if i > 0 {
      GreedyAt(loads[placed[0] := loads[placed[0]] + 1], placed[1..], i - 1);
      assert placed[1..][..i - 1] == placed[..i][1..] && placed[1..][i - 1] == placed[i];
      assert forall k :: 1 <= k < i ==> placed[..i][k] == placed[1..][..i - 1][k - 1];
      assert placed[..i][0] == placed[0];
      assert LoadsAfter(loads, placed[..i]) == LoadsAfter(loads[placed[0] := loads[placed[0]] + 1], placed[..i][1..]);
    }
  }

  // ----- optimality

  function Sum(s: seq<nat>): nat {
    if s == [] then 0 else s[0] + Sum(s[1..])
  }

  lemma {:induction false} SumPut(s: seq<nat>, c: nat)
    requires c < |s|
    ensures Sum(s[c := s[c] + 1]) == Sum(s) + 1
    decreases |s|
  {
    var t := s[c := s[c] + 1];
    if c == 0 {
      assert t[1..] == s[1..];
    } else {
      assert t[1..] == s[1..][c - 1 := s[1..][c - 1] + 1];
      SumPut(s[1..], c - 1);
    }
  }

  lemma {:induction false} SumAtMost(s: seq<nat>, m: nat)
    requires forall i :: 0 <= i < |s| ==> s[i] <= m
    ensures Sum(s) <= |s| * m
    decreases |s|
  {
    if s != [] {
      SumAtMost(s[1..], m);
      assert |s| * m == m + (|s| - 1) * m;
    }
  }

  lemma {:induction false} SumAtLeast(s: seq<nat>, m: nat)
    requires forall i :: 0 <= i < |s| ==> s[i] >= m
    ensures Sum(s) >= |s| * m
    decreases |s|
  {
    if s != [] {
      SumAtLeast(s[1..], m);
      assert |s| * m == m + (|s| - 1) * m;
    }
  }

  /** `loads` was reached from `start` without waste: its maximum is the one of `start`, or the total is
      too large for a smaller one. */
  ghost predicate Tight(start: seq<nat>, loads: seq<nat>)
    requires start != [] && |loads| == |start|
  {
    MaxOf(loads) == MaxOf(start) || (MaxOf(loads) > 0 && Sum(loads) > |loads| * (MaxOf(loads) - 1))
  }

  lemma MaxIs(s: seq<nat>, m: nat)
    requires m in s && forall i :: 0 <= i < |s| ==> s[i] <= m
    ensures MaxOf(s) == m
  {
  }

  /** Placing a slice on a least loaded channel raises the maximum only when all loads are equal. */
  lemma StepMax(loads: seq<nat>, c: nat)
    requires IsLeast(loads, c)
    ensures var next := loads[c := loads[c] + 1];
      if loads[c] < MaxOf(loads) then MaxOf(next) == MaxOf(loads)
      else MaxOf(next) == MaxOf(loads) + 1 && forall i :: 0 <= i < |loads| ==> loads[i] == MaxOf(loads)
  {
    var next := loads[c := loads[c] + 1];
    if loads[c] < MaxOf(loads) {
      var j :| 0 <= j < |loads| && loads[j] == MaxOf(loads);
      assert next[j] == loads[j];
      MaxIs(next, MaxOf(loads));
    } else {
      assert next[c] == MaxOf(loads) + 1;
      MaxIs(next, MaxOf(loads) + 1);
    }
  }

  lemma StepTight(start: seq<nat>, loads: seq<nat>, c: nat)
    requires start != [] && |loads| == |start| && Tight(start, loads) && IsLeast(loads, c)
    ensures Tight(start, loads[c := loads[c] + 1])
  {
    StepMax(loads, c);
    SumPut(loads, c);
    if loads[c] == MaxOf(loads) {
      SumAtLeast(loads, MaxOf(loads));
    }
  }

  lemma {:induction false} GreedyTight(start: seq<nat>, loads: seq<nat>, placed: seq<nat>)
    requires start != [] && |loads| == |start| && Tight(start, loads)
    requires Greedy(loads, placed) && Assignment(|loads|, placed)
    ensures Tight(start, LoadsAfter(loads, placed))
    ensures Sum(LoadsAfter(loads, placed)) == Sum(loads) + |placed|
    decreases |placed|
  {
    hide Tight, MaxOf, Sum;
    if placed != [] {
      StepTight(start, loads, placed[0]);
      SumPut(loads, placed[0]);
      GreedyTight(start, loads[placed[0] := loads[placed[0]] + 1], placed[1..]);
    }
  }

  lemma {:induction false} AnyTotal(loads: seq<nat>, placed: seq<nat>)
    requires loads != [] && Assignment(|loads|, placed)
    ensures Sum(LoadsAfter(loads, placed)) == Sum(loads) + |placed|
    decreases |placed|
  {
    hide Sum;
    if placed != [] {
      SumPut(loads, placed[0]);
      AnyTotal(loads[placed[0] := loads[placed[0]] + 1], placed[1..]);
    }
  }

  lemma {:induction false} AnyGrows(loads: seq<nat>, placed: seq<nat>)
    requires loads != [] && Assignment(|loads|, placed)
    ensures MaxOf(LoadsAfter(loads, placed)) >= MaxOf(loads)
    decreases |placed|
  {
    hide MaxOf;
    if placed != [] {
      MaxPut(loads, placed[0]);
      AnyGrows(loads[placed[0] := loads[placed[0]] + 1], placed[1..]);
    }
  }

  lemma MaxPut(loads: seq<nat>, c: nat)
    requires c < |loads|
    ensures MaxOf(loads[c := loads[c] + 1]) >= MaxOf(loads)
  {
    var next := loads[c := loads[c] + 1];
    var j :| 0 <= j < |loads| && loads[j] == MaxOf(loads);
    assert next[j] >= loads[j];
  }

  lemma GreedyAssigns(loads: seq<nat>, placed: seq<nat>)
    requires Greedy(loads, placed)
    ensures Assignment(|loads|, placed)
    decreases |placed|
  {
    if placed != [] {
      GreedyAssigns(loads[placed[0] := loads[placed[0]] + 1], placed[1..]);
      assert forall i :: 1 <= i < |placed| ==> placed[i] == placed[1..][i - 1];
    }
  }

  /** The greedy loop ends with the smallest maximum load any placement of as many slices can reach. */
  lemma GreedyIsOptimal(loads: seq<nat>, placed: seq<nat>, other: seq<nat>)
    requires loads != [] && Greedy(loads, placed) && Assignment(|loads|, other) && |other| == |placed|
    ensures Assignment(|loads|, placed)
    ensures MaxOf(LoadsAfter(loads, placed)) <= MaxOf(LoadsAfter(loads, other))
  {
    hide Greedy, Assignment, LoadsAfter, MaxOf, Sum;
    GreedyAssigns(loads, placed);
    GreedyTight(loads, loads, placed);
    AnyTotal(loads, other);
    AnyGrows(loads, other);
    var mine, theirs := LoadsAfter(loads, placed), LoadsAfter(loads, other);
    SumAtMost(theirs, MaxOf(theirs));
    if MaxOf(mine) != MaxOf(loads) {
      Pigeonhole(|loads|, Sum(mine), MaxOf(theirs), MaxOf(mine));
    }
  }

  lemma Pigeonhole(n: nat, total: nat, a: nat, m: nat)
    requires m > 0 && n * (m - 1) < total <= n * a
    ensures m <= a
  {
    assert a < m ==> n * a <= n * (m - 1);
  }

  function Spread(loads: seq<nat>): int
    requires loads != []
  {
    MaxOf(loads) - MinOf(loads)
  }

  lemma StepMin(loads: seq<nat>, c: nat)
    requires c < |loads|
    ensures MinOf(loads[c := loads[c] + 1]) >= MinOf(loads)
  {
    var next := loads[c := loads[c] + 1];
    var j :| 0 <= j < |next| && next[j] == MinOf(next);
    assert loads[j] <= next[j];
  }

  lemma StepSpread(loads: seq<nat>, c: nat)
    requires IsLeast(loads, c)
    ensures var next := loads[c := loads[c] + 1]; Spread(next) <= if Spread(loads) > 1 then Spread(loads) else 1
  {
    StepMax(loads, c);
    StepMin(loads, c);
  }

  /** The final spread is at most the initial one, or one. */
  lemma {:induction false} SpreadShrinks(loads: seq<nat>, placed: seq<nat>)
    requires loads != [] && Assignment(|loads|, placed) && Greedy(loads, placed)
    ensures Spread(LoadsAfter(loads, placed)) <= if Spread(loads) > 1 then Spread(loads) else 1
    decreases |placed|
  {
    hide MaxOf, MinOf, Spread, IsLeast;
    if placed != [] {
      StepSpread(loads, placed[0]);
      SpreadShrinks(loads[placed[0] := loads[placed[0]] + 1], placed[1..]);
    }
  }

  // ----- the loop

  class FileSystem<B> {
    var aOutgoingChannels: Sessions<B>
    var aProcessing: seq<bool>  // which channels' threads are at work

    constructor (channels: nat)
      ensures |aProcessing| == channels && forall i :: 0 <= i < channels ==> !aProcessing[i]
      ensures |aOutgoingChannels| == channels && forall i :: 0 <= i < channels ==> aOutgoingChannels[i] == []
    {
      aOutgoingChannels := seq(channels, _ => []);
      aProcessing := seq(channels, _ => false);
    }

    /** The inner loop: the channel a slice is sent on. */
    method Pick() returns (picked: nat)
      requires aOutgoingChannels != []
      ensures picked < |aOutgoingChannels|
      ensures forall i :: 0 <= i < |aOutgoingChannels| ==> |aOutgoingChannels[picked]| <= |aOutgoingChannels[i]|
      ensures forall i :: 0 <= i < picked ==> |aOutgoingChannels[picked]| < |aOutgoingChannels[i]|
      ensures IsLeast(Loads(aOutgoingChannels), picked)
    {
      picked := 0;
      var minLoad := |aOutgoingChannels[0]|;
      for i := 0 to |aOutgoingChannels|
        invariant picked < |aOutgoingChannels| && minLoad == |aOutgoingChannels[picked]|
        invariant picked <= i
        invariant forall j :: 0 <= j < i ==> minLoad <= |aOutgoingChannels[j]|
        invariant forall j :: 0 <= j < picked ==> minLoad < |aOutgoingChannels[j]|
      {
        if |aOutgoingChannels[i]| < minLoad {
          picked := i;
          minLoad := |aOutgoingChannels[i]|;
        }
      }
    }

    /** DPN_FileSystemPrivateInterface::send through a good interface. */
    method Send(badInterface: bool, file: int, fileMap: seq<B>) returns (ok: bool, ghost placed: seq<nat>)
      requires |aProcessing| == |aOutgoingChannels|
      modifies this
      ensures |aOutgoingChannels| == |aProcessing| == |old(aOutgoingChannels)|
      ensures ok <==> !badInterface && old(aOutgoingChannels) != []
      ensures !ok ==> aOutgoingChannels == old(aOutgoingChannels) && aProcessing == old(aProcessing)
      ensures ok ==>
        && |placed| == |fileMap| && Greedy(Loads(old(aOutgoingChannels)), placed)
        && Assignment(|old(aOutgoingChannels)|, placed)
        && aOutgoingChannels == PutAll(old(aOutgoingChannels), Slices(file, fileMap), placed)
      ensures ok ==> forall c :: 0 <= c < |aOutgoingChannels| ==>
        aOutgoingChannels[c] == old(aOutgoingChannels[c]) + Share(Slices(file, fileMap), placed, c)
      ensures ok ==> forall other :: Assignment(|old(aOutgoingChannels)|, other) && |other| == |fileMap| ==>
        MaxOf(Loads(aOutgoingChannels)) <= MaxOf(LoadsAfter(Loads(old(aOutgoingChannels)), other))
      ensures ok ==>
        var was := Spread(Loads(old(aOutgoingChannels)));
        Spread(Loads(aOutgoingChannels)) <= if was > 1 then was else 1
      ensures ok ==> forall c :: 0 <= c < |aProcessing| ==> (aProcessing[c] <==> old(aProcessing[c]) || c in placed)
    {
      placed := [];
      if badInterface {
        return false, placed;
      }
      if aOutgoingChannels == [] {
        return false, placed;
      }
      ghost var start := aOutgoingChannels;
      for mi := 0 to |fileMap|
        invariant |placed| == mi && |aOutgoingChannels| == |start| && Assignment(|start|, placed)
        invariant Greedy(Loads(start), placed)
        invariant aOutgoingChannels == PutAll(start, Slices(file, fileMap[..mi]), placed)
        invariant |aProcessing| == |start|
        invariant forall c :: 0 <= c < |start| ==> (aProcessing[c] <==> old(aProcessing[c]) || c in placed)
      {
        hide Greedy, PutAll, Share, LoadsAfter, IsLeast;
        var picked := Pick();
        var slice := Slice(file, fileMap[mi]);
        assert Slices(file, fileMap[..mi + 1]) == Slices(file, fileMap[..mi]) + [slice];
        SessionsKept(start, Slices(file, fileMap[..mi]), placed);
        LoadsOfPutAll(start, Slices(file, fileMap[..mi]), placed);
        GreedyAppend(Loads(start), placed, picked);
        PutAllAppend(start, Slices(file, fileMap[..mi]), placed, slice, picked);
        aOutgoingChannels := Put(aOutgoingChannels, picked, slice);
        if !aProcessing[picked] {
          aProcessing := aProcessing[picked := true];
        }
        placed := placed + [picked];
      }
      assert fileMap[..|fileMap|] == fileMap;
      Balanced(start, Slices(file, fileMap), placed);
      ok := true;
    }
  }

  function Slices<B>(file: int, fileMap: seq<B>): (r: seq<Slice<B>>)
    ensures |r| == |fileMap| && forall i :: 0 <= i < |r| ==> r[i] == Slice(file, fileMap[i])
  {
    seq(|fileMap|, i requires 0 <= i < |fileMap| => Slice(file, fileMap[i]))
  }

  /** What a greedy placement makes of the sessions themselves. */
  lemma Balanced<B>(cs: Sessions<B>, slices: seq<Slice<B>>, placed: seq<nat>)
    requires cs != [] && |slices| == |placed| && Assignment(|cs|, placed) && Greedy(Loads(cs), placed)
    ensures var after := PutAll(cs, slices, placed);
      && |after| == |cs|
      && (forall c :: 0 <= c < |cs| ==> after[c] == cs[c] + Share(slices, placed, c))
      && (forall other :: Assignment(|cs|, other) && |other| == |slices| ==>
            MaxOf(Loads(after)) <= MaxOf(LoadsAfter(Loads(cs), other)))
      && Spread(Loads(after)) <= if Spread(Loads(cs)) > 1 then Spread(Loads(cs)) else 1
  {
    hide Greedy, PutAll, Share, LoadsAfter, MaxOf, Spread, Assignment;
    SessionsKept(cs, slices, placed);
    LoadsOfPutAll(cs, slices, placed);
    forall c | 0 <= c < |cs|
      ensures PutAll(cs, slices, placed)[c] == cs[c] + Share(slices, placed, c)
    {
      SessionsGrow(cs, slices, placed, c);
    }
    forall other | Assignment(|cs|, other) && |other| == |slices|
      ensures MaxOf(LoadsAfter(Loads(cs), placed)) <= MaxOf(LoadsAfter(Loads(cs), other))
    {
      GreedyIsOptimal(Loads(cs), placed, other);
    }
    SpreadShrinks(Loads(cs), placed);
  }

  lemma SessionsKept<B>(cs: Sessions<B>, slices: seq<Slice<B>>, placed: seq<nat>)
    requires |slices| == |placed| && Assignment(|cs|, placed)
    ensures |PutAll(cs, slices, placed)| == |cs|
    decreases |slices|
  {
    if slices != [] {
      SessionsKept(Put(cs, placed[0], slices[0]), slices[1..], placed[1..]);
    }
  }

  lemma {:induction false} GreedyAppend(loads: seq<nat>, placed: seq<nat>, c: nat)
    requires Greedy(loads, placed) && Assignment(|loads|, placed) && IsLeast(LoadsAfter(loads, placed), c)
    ensures Greedy(loads, placed + [c])
    decreases |placed|
  {
    if placed == [] {
      assert [] + [c] == [c] && [c][1..] == [];
    } else {
      assert (placed + [c])[1..] == placed[1..] + [c];
      GreedyAppend(loads[placed[0] := loads[placed[0]] + 1], placed[1..], c);
    }
  }

  lemma {:induction false} PutAllAppend<B>(cs: Sessions<B>, slices: seq<Slice<B>>, placed: seq<nat>, s: Slice<B>, c: nat)
    requires |slices| == |placed| && Assignment(|cs|, placed) && c < |cs|
    ensures |PutAll(cs, slices, placed)| == |cs|
    ensures Assignment(|cs|, placed + [c])
    ensures PutAll(cs, slices + [s], placed + [c]) == Put(PutAll(cs, slices, placed), c, s)
    decreases |slices|
  {
    if slices == [] {
      assert [] + [s] == [s] && [] + [c] == [c] && [s][1..] == [] && [c][1..] == [];
    } else {
      assert (slices + [s])[1..] == slices[1..] + [s] && (placed + [c])[1..] == placed[1..] + [c];
      PutAllAppend(Put(cs, placed[0], slices[0]), slices[1..], placed[1..], s, c);
    }
  }
}
