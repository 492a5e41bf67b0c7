/** The two-counter references: data lives as long as its descriptors, its base as long as any reference. */
module References {
  import opened Types

  datatype Behaviour = Descriptor | Interface

  /** A base: the descriptor counter, the counter of all references, whether it still holds its data,
      and how often the data has been deleted and the base released. */
  datatype Base = Base(refs: int, total: int, data: bool, deletes: nat, releases: nat)

  const NEW_BASE := Base(1, 1, true, 0, 0)

  function Leave(b: Base, kind: Behaviour): Base {
    b.(total := if b.total > 0 then b.total - 1 else b.total, refs := if kind.Descriptor? then b.refs - 1 else b.refs)
  }

  function Add(b: Base, kind: Behaviour): Base {
    b.(total := b.total + 1, refs := if kind.Descriptor? then b.refs + 1 else b.refs)
  }

  /** What `__kick` of a reference of this kind does to the base it leaves. */
  function Kicked(b: Base, kind: Behaviour): Base {
    var l := Leave(b, kind);
    var d := if l.refs == 0 then l.(data := false, deletes := l.deletes + if l.data then 1 else 0) else l;
    if d.total == 0 then d.(releases := d.releases + 1) else d
  }

  // ----- any number of references to any number of bases

  datatype Watcher<B> = Watcher(kind: Behaviour, base: Option<B>)

  datatype World<W(==), B(==)> = World(watchers: map<W, Watcher<B>>, bases: map<B, Base>)

  /** Constructions, and the two halves of `__copy`. A copy construction is `Blank` and `Attach`, an
      assignment `Kick` and `Attach`, a destruction `Kick`. */
  datatype Act<W, B> =
    | Create(w: W, b: B)
    | Blank(w: W, kind: Behaviour)
    | Kick(w: W)
    | Attach(w: W, source: W)

  ghost predicate Enabled<W, B>(s: World<W, B>, a: Act<W, B>) {
    match a
    case Create(w, b) => w !in s.watchers && b !in s.bases
    case Blank(w, _) => w !in s.watchers
    case Kick(w) => w in s.watchers && (s.watchers[w].base.Some? ==> s.watchers[w].base.value in s.bases)
    case Attach(w, v) =>
      && w in s.watchers && v in s.watchers && s.watchers[w].base.None?
      && (s.watchers[v].base.Some? ==> s.watchers[v].base.value in s.bases)
  }

  function Do<W(==), B(==)>(s: World<W, B>, a: Act<W, B>): World<W, B>
    requires Enabled(s, a)
  {
    match a
    case Create(w, b) => World(s.watchers[w := Watcher(Descriptor, Some(b))], s.bases[b := NEW_BASE])
    case Blank(w, kind) => s.(watchers := s.watchers[w := Watcher(kind, None)])
    case Kick(w) =>
      var r := s.watchers[w];
      if r.base.None? then s else
      World(s.watchers[w := r.(base := None)], s.bases[r.base.value := Kicked(s.bases[r.base.value], r.kind)])
    case Attach(w, v) =>
      var r, b := s.watchers[w], s.watchers[v].base;
      if b.None? then s else
      World(s.watchers[w := r.(base := b)], s.bases[b.value := Add(s.bases[b.value], r.kind)])
  }

  ghost function Holders<W, B>(s: World<W, B>, b: B): set<W> {
    set w | w in s.watchers && s.watchers[w].base == Some(b)
  }

  ghost function Descriptors<W, B>(s: World<W, B>, b: B): set<W> {
    set w | w in s.watchers && s.watchers[w] == Watcher(Descriptor, Some(b))
  }

  /** `badInterface`: no base, or a base whose data is gone. */
  ghost predicate Bad<W, B>(s: World<W, B>, w: W)
    requires w in s.watchers && (s.watchers[w].base.Some? ==> s.watchers[w].base.value in s.bases)
  {
    s.watchers[w].base.None? || !s.bases[s.watchers[w].base.value].data
  }

  ghost predicate BaseOk<W, B>(s: World<W, B>, b: B)
    requires b in s.bases
  {
    var v := s.bases[b];
    && v.total == |Holders(s, b)| && v.refs == |Descriptors(s, b)|
    && v.releases == (if Holders(s, b) == {} then 1 else 0)
    && v.deletes == (if v.data then 0 else 1)
    && (Descriptors(s, b) == {} ==> !v.data)
  }

  /** Every reference holds a base that exists and has not been released. */
  ghost predicate Inv<W, B>(s: World<W, B>) {
    && (forall w :: w in s.watchers && s.watchers[w].base.Some? ==> s.watchers[w].base.value in s.bases)
    && (forall b :: b in s.bases ==> BaseOk(s, b))
  }

  lemma SameHolders<W, B>(s: World<W, B>, t: World<W, B>, b: B)
    requires b in s.bases && b in t.bases && s.bases[b] == t.bases[b] && BaseOk(s, b)
    requires Holders(t, b) == Holders(s, b) && Descriptors(t, b) == Descriptors(s, b)
    ensures BaseOk(t, b)
  {
  }

  lemma OthersKeep<W, B>(s: World<W, B>, a: Act<W, B>, b: B)
    requires Inv(s) && Enabled(s, a) && b in s.bases
    requires Do(s, a).bases[b] == s.bases[b]
    requires a.Create? ==> a.b != b
    requires a.Kick? ==> s.watchers[a.w].base != Some(b)
    requires a.Attach? ==> s.watchers[a.source].base != Some(b)
    ensures BaseOk(Do(s, a), b)
  {
    var t := Do(s, a);
    assert Holders(t, b) == Holders(s, b);
    assert Descriptors(t, b) == Descriptors(s, b);
    SameHolders(s, t, b);
  }

  lemma KickedBase<W, B>(s: World<W, B>, w: W)
    requires Inv(s) && w in s.watchers && s.watchers[w].base.Some?
    ensures BaseOk(Do(s, Kick(w)), s.watchers[w].base.value)
  {
    var r := s.watchers[w];
    var b, t := r.base.value, Do(s, Kick(w));
    assert w in Holders(s, b) && Holders(t, b) == Holders(s, b) - {w};
    assert Descriptors(t, b) == Descriptors(s, b) - {w};
    assert r.kind.Descriptor? <==> w in Descriptors(s, b);
    assert Descriptors(s, b) <= Holders(s, b);
  }

  lemma AttachedSets<W, B>(s: World<W, B>, w: W, v: W)
    requires Enabled(s, Attach(w, v)) && s.watchers[v].base.Some?
    ensures var b, t := s.watchers[v].base.value, Do(s, Attach(w, v));
      && v in Holders(s, b) && w !in Holders(s, b) && w !in Descriptors(s, b)
      && Holders(t, b) == Holders(s, b) + {w}
      && Descriptors(t, b) == if s.watchers[w].kind.Descriptor? then Descriptors(s, b) + {w} else Descriptors(s, b)
  {
  }

  lemma AttachedBase<W, B>(s: World<W, B>, w: W, v: W)
    requires Inv(s) && Enabled(s, Attach(w, v)) && s.watchers[v].base.Some?
    ensures BaseOk(Do(s, Attach(w, v)), s.watchers[v].base.value)
  {
    AttachedSets(s, w, v);
    hide Holders, Descriptors;
    assert BaseOk(s, s.watchers[v].base.value);
  }

  lemma CreatedBase<W, B>(s: World<W, B>, w: W, b: B)
    requires Inv(s) && Enabled(s, Create(w, b))
    ensures BaseOk(Do(s, Create(w, b)), b)
  {
    var t := Do(s, Create(w, b));
    assert Holders(t, b) == {w} && Descriptors(t, b) == {w};
  }

  lemma StepKeeps<W, B>(s: World<W, B>, a: Act<W, B>)
    requires Inv(s) && Enabled(s, a)
    ensures Inv(Do(s, a))
  {
    var t := Do(s, a);
    hide BaseOk;
    forall b | b in t.bases
      ensures BaseOk(t, b)
    {
      if a.Create? && b == a.b {
        CreatedBase(s, a.w, b);
      } else if a.Kick? && s.watchers[a.w].base == Some(b) {
        KickedBase(s, a.w);
      } else if a.Attach? && s.watchers[a.source].base == Some(b) {
        AttachedBase(s, a.w, a.source);
      } else {
        OthersKeep(s, a, b);
      }
    }
  }

  ghost predicate Run<W, B>(ss: seq<World<W, B>>, acts: seq<Act<W, B>>) {
    && |ss| == |acts| + 1 && ss[0] == World(map[], map[])
    && forall i :: 0 <= i < |acts| ==> Enabled(ss[i], acts[i]) && ss[i + 1] == Do(ss[i], acts[i])
  }

  /** In every run the counters count: `refs` the descriptors, `total` all references. */
  lemma {:induction false} RunInv<W, B>(ss: seq<World<W, B>>, acts: seq<Act<W, B>>, i: nat)
    requires Run(ss, acts) && i < |ss|
    ensures Inv(ss[i])
    ensures forall b :: b in ss[i].bases ==>
      && ss[i].bases[b].refs == |Descriptors(ss[i], b)| && ss[i].bases[b].total == |Holders(ss[i], b)|
      && ss[i].bases[b].refs <= ss[i].bases[b].total
    decreases i
  {
    if i > 0 {
      RunInv(ss, acts, i - 1);
      StepKeeps(ss[i - 1], acts[i - 1]);
    }
    forall b | b in ss[i].bases
      ensures |Descriptors(ss[i], b)| <= |Holders(ss[i], b)|
    {
      assert Descriptors(ss[i], b) <= Holders(ss[i], b);
      SubsetSize(Descriptors(ss[i], b), Holders(ss[i], b));
    }
  }

  lemma SubsetSize<T>(a: set<T>, b: set<T>)
    requires a <= b
    ensures |a| <= |b|
  {
    assert b == a + (b - a);
  }

  /** At some moment up to `i` the base existed and had no descriptor. */
  ghost predicate Orphaned<W, B>(ss: seq<World<W, B>>, i: nat, b: B)
    requires i < |ss|
  {
    exists j :: 0 <= j <= i && b in ss[j].bases && Descriptors(ss[j], b) == {}
  }

  lemma StepData<W, B>(s: World<W, B>, a: Act<W, B>, b: B)
    requires Inv(s) && Enabled(s, a) && b in s.bases
    ensures var t := Do(s, a);
      && b in t.bases && Inv(t)
      && (t.bases[b].data <==> s.bases[b].data && Descriptors(t, b) != {})
      && (Holders(s, b) == {} ==> Holders(t, b) == {})
  {
    StepKeeps(s, a);
    var t := Do(s, a);
    assert BaseOk(s, b) && BaseOk(t, b);
    assert forall v :: v in s.watchers && s.watchers[v].base == Some(b) ==> v in Holders(s, b);
    if a.Kick? && s.watchers[a.w].base == Some(b) && Kicked(s.bases[b], s.watchers[a.w].kind).refs != 0 {
      assert |Descriptors(t, b)| != 0;
    }
  }

  /** Data is deleted exactly once: when its last descriptor leaves for the first time, and never
      before. The base is released exactly once, when its last reference of either kind leaves. */
  lemma {:induction false} Lifetime<W, B>(ss: seq<World<W, B>>, acts: seq<Act<W, B>>, i: nat, b: B)
    requires Run(ss, acts) && i < |ss| && b in ss[i].bases
    ensures ss[i].bases[b].deletes == if Orphaned(ss, i, b) then 1 else 0
    ensures ss[i].bases[b].data <==> !Orphaned(ss, i, b)
    ensures ss[i].bases[b].releases == if Holders(ss[i], b) == {} then 1 else 0
    decreases i
  {
    RunInv(ss, acts, i);
    assert BaseOk(ss[i], b);
    if i > 0 && b in ss[i - 1].bases {
      Lifetime(ss, acts, i - 1, b);
      RunInv(ss, acts, i - 1);
      StepData(ss[i - 1], acts[i - 1], b);
      assert Orphaned(ss, i, b) <==> Orphaned(ss, i - 1, b) || Descriptors(ss[i], b) == {};
    } else if i > 0 {
      BornWithData(ss, acts, i, b);
    }
  }

  lemma {:induction false} KnownLater<W, B>(ss: seq<World<W, B>>, acts: seq<Act<W, B>>, j: nat, i: nat, b: B)
    requires Run(ss, acts) && j <= i < |ss| && b in ss[j].bases
    ensures b in ss[i].bases
    decreases i - j
  {
    if j < i {
      KnownLater(ss, acts, j + 1, i, b);
    }
  }

  lemma BornWithData<W, B>(ss: seq<World<W, B>>, acts: seq<Act<W, B>>, i: nat, b: B)
    requires Run(ss, acts) && 0 < i < |ss| && b in ss[i].bases && b !in ss[i - 1].bases
    ensures ss[i].bases[b].data && !Orphaned(ss, i, b)
  {
    var w := acts[i - 1].w;
    assert w in Descriptors(ss[i], b);
    forall j | 0 <= j < i
      ensures b !in ss[j].bases
    {
      if b in ss[j].bases {
        KnownLater(ss, acts, j, i - 1, b);
      }
    }
  }

  /** A released base is never held again. */
  lemma {:induction false} ReleasedForGood<W, B>(ss: seq<World<W, B>>, acts: seq<Act<W, B>>, j: nat, i: nat, b: B)
    requires Run(ss, acts) && j <= i < |ss| && b in ss[j].bases && Holders(ss[j], b) == {}
    ensures b in ss[i].bases && Holders(ss[i], b) == {} && ss[i].bases[b].releases == 1
    decreases i - j
  {
    RunInv(ss, acts, j);
    if j < i {
      StepData(ss[j], acts[j], b);
      ReleasedForGood(ss, acts, j + 1, i, b);
    } else {
      assert BaseOk(ss[j], b);
    }
  }

  /** An interface reports bad exactly when it holds nothing, or its data has at some moment been left
      by every descriptor: one that outlives them all is bad for good, even if a descriptor is later
      assigned from it. */
  lemma InterfaceIsBad<W, B>(ss: seq<World<W, B>>, acts: seq<Act<W, B>>, i: nat, w: W)
    requires Run(ss, acts) && i < |ss| && w in ss[i].watchers
    ensures ss[i].watchers[w].base.Some? ==> ss[i].watchers[w].base.value in ss[i].bases
    ensures Bad(ss[i], w) <==> ss[i].watchers[w].base.None? || Orphaned(ss, i, ss[i].watchers[w].base.value)
  {
    RunInv(ss, acts, i);
    if ss[i].watchers[w].base.Some? {
      Lifetime(ss, acts, i, ss[i].watchers[w].base.value);
    }
  }

  /** A reference never changes its kind and never disappears from the record. */
  lemma {:induction false} KindsStay<W, B>(ss: seq<World<W, B>>, acts: seq<Act<W, B>>, j: nat, i: nat, w: W)
    requires Run(ss, acts) && j <= i < |ss| && w in ss[j].watchers
    ensures w in ss[i].watchers && ss[i].watchers[w].kind == ss[j].watchers[w].kind
    decreases i - j
  {
    if j < i {
      KindsStay(ss, acts, j + 1, i, w);
    }
  }

  /** The base `b` after a reference of this kind has left `from` and joined `to`. */
  function Moved<B(==)>(v: Base, b: B, kind: Behaviour, from: Option<B>, to: Option<B>): Base {
    var l := if from == Some(b) then Kicked(v, kind) else v;
    if to == Some(b) then Add(l, kind) else l
  }

  /** An assignment is a kick and an attach: the reference leaves its own base, then holds what the other
      one holds, even when that is the base it has just left; assigned to itself it holds nothing. No other
      reference and no other base changes. */
  lemma AssignmentMoves<W, B>(s: World<W, B>, w: W, v: W)
    requires Inv(s) && w in s.watchers && v in s.watchers
    ensures Enabled(s, Kick(w)) && Enabled(Do(s, Kick(w)), Attach(w, v))
    ensures var t := Do(Do(s, Kick(w)), Attach(w, v));
      var to := if v == w then None else s.watchers[v].base;
      && t.watchers == s.watchers[w := Watcher(s.watchers[w].kind, to)]
      && t.bases.Keys == s.bases.Keys
      && forall b :: b in s.bases ==> t.bases[b] == Moved(s.bases[b], b, s.watchers[w].kind, s.watchers[w].base, to)
  {
  }

  // ----- the objects

  class DataSpecificBaseWatcher {
    var iRefs: int
    var iTotalRefs: int
    var data: bool
    ghost var deletes: nat
    ghost var releases: nat

    ghost function Value(): Base
      reads this
    {
      Base(iRefs, iTotalRefs, data, deletes, releases)
    }

    /** The base of data that has just been created. */
    constructor ()
      ensures Value() == NEW_BASE
    {
      iRefs, iTotalRefs, data, deletes, releases := 1, 1, true, 0, 0;
    }

    method SpecificLeave(kind: Behaviour)
      modifies this`iRefs, this`iTotalRefs
      ensures Value() == Leave(old(Value()), kind)
    {
      if iTotalRefs > 0 {
        iTotalRefs := iTotalRefs - 1;
      }
      if kind.Descriptor? {
        iRefs := iRefs - 1;
      }
    }

    method SpecificAdd(kind: Behaviour)
      modifies this`iRefs, this`iTotalRefs
      ensures Value() == Add(old(Value()), kind)
    {
      iTotalRefs := iTotalRefs + 1;
      if kind.Descriptor? {
        iRefs := iRefs + 1;
      }
    }
  }

  class InnerWatcher {
    const behaviour: Behaviour
    var base: DataSpecificBaseWatcher?

    constructor (behaviour: Behaviour)
      ensures this.behaviour == behaviour && base == null
    {
      this.behaviour := behaviour;
      base := null;
    }

    method Kick()
      modifies this`base, base
      ensures base == null
      ensures old(base) != null ==> old(base).Value() == Kicked(old(base.Value()), behaviour)
    {
      if base != null {
        base.SpecificLeave(behaviour);
        if base.iRefs == 0 {
          if base.data {
            base.deletes := base.deletes + 1;
          }
          base.data := false;
        }
        if base.iTotalRefs == 0 {
          base.releases := base.releases + 1;
        }
        base := null;
      }
    }

    /** __copy: leaves the own base, then joins that of the other; a reference assigned to itself ends
        up holding nothing. */
    method Copy(w: InnerWatcher)
      modifies this`base, base, w.base
      ensures base == if w == this then null else old(w.base)
      ensures w != this ==> w.base == old(w.base)
      ensures old(base) != null && old(base) != base ==> old(base).Value() == Kicked(old(base.Value()), behaviour)
      ensures base != null && old(base) != base ==> base.Value() == Add(old(w.base.Value()), behaviour)
      ensures base != null && old(base) == base ==> base.Value() == Add(Kicked(old(base.Value()), behaviour), behaviour)
    {
      if base != null {
        Kick();
      }
      base := w.base;
      if base != null {
        base.SpecificAdd(behaviour);
      }
    }
  }
}
