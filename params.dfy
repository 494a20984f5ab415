/** Parameter trees and the structural paths that name their tensors.

    The extractors return nested JavaScript objects whose leaves are tensors; an object lists its
    keys in insertion order. A `Layout` is the same structure with every tensor replaced by the
    rank it must have: it is what an architecture promises, independently of where the weights
    come from. The path of a tensor is the chain of keys leading to it, joined by "/". */
module Params {
  import opened Common

  datatype Node = Leaf(tensor: Tensor) | Obj(entries: seq<Entry>)
  datatype Entry = Entry(key: string, node: Node)

  datatype Layout = Rank(rank: nat) | Group(members: seq<Member>)
  datatype Member = Member(key: string, layout: Layout)

  /** `${prefix}/${key}` */
  function Under(prefix: string, key: string): string {
    prefix + "/" + key
  }

  /** The path of child `key` of the node at `at` (`None` is the root object). */
  function Child(at: Option<string>, key: string): string {
    match at
    case None => key
    case Some(p) => Under(p, key)
  }

  // ----- paths, in key order --------------------------------------------------------------

  function Paths(at: Option<string>, n: Node): seq<string>
    decreases n
  {
    match n
    case Leaf(_) => [at.GetOr("")]
    case Obj(es) => EntriesPaths(at, es)
  }

  function EntriesPaths(at: Option<string>, es: seq<Entry>): seq<string>
    decreases es
  {
    if es == [] then []
    else EntriesPaths(at, es[..|es| - 1]) + Paths(Some(Child(at, es[|es| - 1].key)), es[|es| - 1].node)
  }

  /** The paths of the parameters of a network, relative to its root `params` object. */
  function ParamPaths(params: Node): seq<string> {
    Paths(None, params)
  }

  function LayoutPaths(at: Option<string>, l: Layout): seq<string>
    decreases l
  {
    match l
    case Rank(_) => [at.GetOr("")]
    case Group(ms) => MembersPaths(at, ms)
  }

  function MembersPaths(at: Option<string>, ms: seq<Member>): seq<string>
    decreases ms
  {
    if ms == [] then []
    else MembersPaths(at, ms[..|ms| - 1]) + LayoutPaths(Some(Child(at, ms[|ms| - 1].key)), ms[|ms| - 1].layout)
  }

  // ----- tensors, in key order ------------------------------------------------------------

  function Tensors(n: Node): seq<Tensor>
    decreases n
  {
    match n
    case Leaf(t) => [t]
    case Obj(es) => EntriesTensors(es)
  }

  function EntriesTensors(es: seq<Entry>): seq<Tensor>
    decreases es
  {
    if es == [] then [] else EntriesTensors(es[..|es| - 1]) + Tensors(es[|es| - 1].node)
  }

  /** All values held by a tree, tensor after tensor in key order. */
  function Data(n: Node): seq<real>
    decreases n
  {
    match n
    case Leaf(t) => t.data
    case Obj(es) => EntriesData(es)
  }

  function EntriesData(es: seq<Entry>): seq<real>
    decreases es
  {
    if es == [] then [] else EntriesData(es[..|es| - 1]) + Data(es[|es| - 1].node)
  }

  // ----- structure ------------------------------------------------------------------------

  /** `n` has exactly the keys of `l`, in the same order, and every tensor has the rank `l` gives. */
  predicate Conforms(n: Node, l: Layout)
    decreases n
  {
    match n
    case Leaf(t) => l.Rank? && |t.shape| == l.rank
    case Obj(es) =>
      && l.Group?
      && |es| == |l.members|
      && forall i :: 0 <= i < |es| ==> es[i].key == l.members[i].key && Conforms(es[i].node, l.members[i].layout)
  }

  /** The keys of an object, in order. */
  function Keys(n: Node): seq<string> {
    match n
    case Leaf(_) => []
    case Obj(es) => seq(|es|, i requires 0 <= i < |es| => es[i].key)
  }

  function MemberKeys(l: Layout): seq<string> {
    match l
    case Rank(_) => []
    case Group(ms) => seq(|ms|, i requires 0 <= i < |ms| => ms[i].key)
  }

  /** A tree that conforms to a layout has the layout's keys at the top. */
  lemma ConformsKeys(n: Node, l: Layout)
    requires Conforms(n, l)
    ensures Keys(n) == MemberKeys(l)
  {
  }

  /** No key occurs twice: every JavaScript object. */
  predicate UniqueKeys(es: seq<Entry>) {
    forall i, j :: 0 <= i < j < |es| ==> es[i].key != es[j].key
  }

  /** The first position of `key` among the entries. */
  function FindKey(es: seq<Entry>, key: string): (r: Option<nat>)
    ensures r.None? <==> forall i :: 0 <= i < |es| ==> es[i].key != key
    ensures r.Some? ==> r.value < |es| && es[r.value].key == key && forall j :: 0 <= j < r.value ==> es[j].key != key
    decreases |es|
  {
    if es == [] then None
    else if es[0].key == key then Some(0)
    else match FindKey(es[1..], key)
      case None => None
      case Some(i) => Some(i + 1)
  }

  /** `obj[key] = node` on an object with entries `es`: an existing key keeps its place and takes
      the new value, a new key is appended after all others. */
  function Assign(es: seq<Entry>, key: string, node: Node): (r: seq<Entry>)
    ensures (forall i :: 0 <= i < |es| ==> es[i].key != key) ==> r == es + [Entry(key, node)]
    ensures UniqueKeys(es) ==> forall i :: 0 <= i < |es| && es[i].key == key ==> r == es[i := Entry(key, node)]
  {
    match FindKey(es, key)
    case None => es + [Entry(key, node)]
    case Some(i) => es[i := Entry(key, node)]
  }

  /** Number of tensors a layout describes. */
  function LeafCount(l: Layout): nat
    decreases l
  {
    match l
    case Rank(_) => 1
    case Group(ms) => MembersLeafCount(ms)
  }

  function MembersLeafCount(ms: seq<Member>): nat
    decreases ms
  {
    if ms == [] then 0 else MembersLeafCount(ms[..|ms| - 1]) + LeafCount(ms[|ms| - 1].layout)
  }

  // ----- weight maps ----------------------------------------------------------------------

  /** `path` holds a tensor of rank `rank` in `m`: what `extractWeightEntry(path, rank)` accepts. */
  predicate HasTensor(m: map<string, Tensor>, path: string, rank: nat) {
    path in m && |m[path].shape| == rank
  }

  /** Every tensor `l` describes under `at` is present in `m` with the right rank. */
  predicate Available(m: map<string, Tensor>, at: Option<string>, l: Layout)
    decreases l
  {
    match l
    case Rank(r) => HasTensor(m, at.GetOr(""), r)
    case Group(ms) => forall i :: 0 <= i < |ms| ==> Available(m, Some(Child(at, ms[i].key)), ms[i].layout)
  }

  /** Every tensor of `n` under `at` is the tensor `m` holds at its path. */
  predicate FromMap(m: map<string, Tensor>, at: Option<string>, n: Node)
    decreases n
  {
    match n
    case Leaf(t) => at.GetOr("") in m && m[at.GetOr("")] == t
    case Obj(es) => forall i :: 0 <= i < |es| ==> FromMap(m, Some(Child(at, es[i].key)), es[i].node)
  }

  // ----- lemmas ---------------------------------------------------------------------------

  /** A tree read from part of a map is read from the whole map as well. */
  lemma {:induction false} FromMapSubmap(sub: map<string, Tensor>, m: map<string, Tensor>, at: Option<string>, n: Node)
    requires forall k | k in sub :: k in m && m[k] == sub[k]
    requires FromMap(sub, at, n)
    ensures FromMap(m, at, n)
    decreases n
  {
    match n
    case Leaf(t) =>
    case Obj(es) =>
      forall i | 0 <= i < |es|
        ensures FromMap(m, Some(Child(at, es[i].key)), es[i].node)
      {
        FromMapSubmap(sub, m, Some(Child(at, es[i].key)), es[i].node);
      }
  }

  /** A tree that conforms to a layout has exactly the layout's paths, in the same order:
      the paths depend on the structure only, never on the tensors. */
  lemma {:induction false} ConformsPaths(at: Option<string>, n: Node, l: Layout)
    requires Conforms(n, l)
    ensures Paths(at, n) == LayoutPaths(at, l)
    decreases n, 1
  {
    match n
    case Leaf(_) =>
    case Obj(es) => EntriesConformPaths(at, es, l.members);
  }

  lemma {:induction false} EntriesConformPaths(at: Option<string>, es: seq<Entry>, ms: seq<Member>)
    requires |es| == |ms|
    requires forall i :: 0 <= i < |es| ==> es[i].key == ms[i].key && Conforms(es[i].node, ms[i].layout)
    ensures EntriesPaths(at, es) == MembersPaths(at, ms)
    decreases es, 0
  {
    if es != [] {
      var k := |es| - 1;
      EntriesConformPaths(at, es[..k], ms[..k]);
      ConformsPaths(Some(Child(at, es[k].key)), es[k].node, ms[k].layout);
    }
  }

  /** Two trees that conform to one layout have the same paths: this is what makes the two weight
      sources interchangeable. */
  lemma SameLayoutSamePaths(a: Node, b: Node, l: Layout)
    requires Conforms(a, l) && Conforms(b, l)
    ensures ParamPaths(a) == ParamPaths(b) == LayoutPaths(None, l)
  {
    ConformsPaths(None, a, l);
    ConformsPaths(None, b, l);
  }

  /** A layout has one path per tensor. */
  lemma {:induction false} LayoutPathsCount(at: Option<string>, l: Layout)
    ensures |LayoutPaths(at, l)| == LeafCount(l)
    decreases l, 1
  {
    match l
    case Rank(_) =>
    case Group(ms) => MembersPathsCount(at, ms);
  }

  lemma {:induction false} MembersPathsCount(at: Option<string>, ms: seq<Member>)
    ensures |MembersPaths(at, ms)| == MembersLeafCount(ms)
    decreases ms, 0
  {
    if ms != [] {
      var k := |ms| - 1;
      MembersPathsCount(at, ms[..k]);
      LayoutPathsCount(Some(Child(at, ms[k].key)), ms[k].layout);
    }
  }

  /** Appending one member to a group appends that member's paths. */
  lemma MembersPathsAppend(at: Option<string>, ms: seq<Member>, m: Member)
    ensures MembersPaths(at, ms + [m]) == MembersPaths(at, ms) + LayoutPaths(Some(Child(at, m.key)), m.layout)
  {
    assert (ms + [m])[..|ms|] == ms;
  }

  lemma EntriesPathsAppend(at: Option<string>, es: seq<Entry>, e: Entry)
    ensures EntriesPaths(at, es + [e]) == EntriesPaths(at, es) + Paths(Some(Child(at, e.key)), e.node)
  {
    assert (es + [e])[..|es|] == es;
  }

  lemma EntriesTensorsAppend(es: seq<Entry>, e: Entry)
    ensures EntriesTensors(es + [e]) == EntriesTensors(es) + Tensors(e.node)
  {
    assert (es + [e])[..|es|] == es;
  }

  lemma EntriesDataAppend(es: seq<Entry>, e: Entry)
    ensures EntriesData(es + [e]) == EntriesData(es) + Data(e.node)
  {
    assert (es + [e])[..|es|] == es;
  }

  /** Appending an entry to an object appends its paths, tensors and values, and keeps the object
      conforming when the entry conforms to the appended member. */
  lemma AppendEntry(at: Option<string>, es: seq<Entry>, ms: seq<Member>, e: Entry, m: Member)
    requires Conforms(Obj(es), Group(ms)) && e.key == m.key && Conforms(e.node, m.layout)
    ensures Conforms(Obj(es + [e]), Group(ms + [m]))
    ensures Paths(at, Obj(es + [e])) == Paths(at, Obj(es)) + Paths(Some(Child(at, e.key)), e.node)
    ensures LayoutPaths(at, Group(ms + [m])) == LayoutPaths(at, Group(ms)) + LayoutPaths(Some(Child(at, m.key)), m.layout)
    ensures Tensors(Obj(es + [e])) == Tensors(Obj(es)) + Tensors(e.node)
    ensures Data(Obj(es + [e])) == Data(Obj(es)) + Data(e.node)
  {
    EntriesPathsAppend(at, es, e);
    MembersPathsAppend(at, ms, m);
    EntriesTensorsAppend(es, e);
    EntriesDataAppend(es, e);
  }

  /** An object read from a weight map stays read from it when an entry read from it is appended. */
  lemma FromMapAppend(m: map<string, Tensor>, at: Option<string>, es: seq<Entry>, e: Entry)
    ensures FromMap(m, at, Obj(es + [e])) <==> FromMap(m, at, Obj(es)) && FromMap(m, Some(Child(at, e.key)), e.node)
  {
    var es' := es + [e];
    assert forall i | 0 <= i < |es| :: es'[i] == es[i];
    assert es'[|es|] == e;
  }

  /** A group is available exactly when each part of it is. */
  lemma AvailableConcat(m: map<string, Tensor>, at: Option<string>, xs: seq<Member>, ys: seq<Member>)
    ensures Available(m, at, Group(xs + ys)) <==> Available(m, at, Group(xs)) && Available(m, at, Group(ys))
  {
    var zs := xs + ys;
    assert forall i | 0 <= i < |xs| :: zs[i] == xs[i];
    assert forall i | 0 <= i < |ys| :: zs[|xs| + i] == ys[i];
    if Available(m, at, Group(xs)) && Available(m, at, Group(ys)) {
      forall i | 0 <= i < |zs|
        ensures Available(m, Some(Child(at, zs[i].key)), zs[i].layout)
      {
        if i >= |xs| {
          assert zs[i] == ys[i - |xs|];
        }
      }
    }
  }

  lemma Available1(m: map<string, Tensor>, at: Option<string>, a: Member)
    ensures Available(m, at, Group([a])) <==> Available(m, Some(Child(at, a.key)), a.layout)
  {
    var ms := [a];
    assert ms[0] == a;
    if Available(m, Some(Child(at, a.key)), a.layout) {
      forall i | 0 <= i < |ms|
        ensures Available(m, Some(Child(at, ms[i].key)), ms[i].layout)
      {
        assert ms[i] == a;
      }
    }
  }

  lemma Available3(m: map<string, Tensor>, at: Option<string>, a: Member, b: Member, c: Member)
    ensures Available(m, at, Group([a, b, c])) <==>
      Available(m, Some(Child(at, a.key)), a.layout) && Available(m, Some(Child(at, b.key)), b.layout)
      && Available(m, Some(Child(at, c.key)), c.layout)
  {
    AvailableConcat(m, at, [a, b], [c]);
    Available2(m, at, a, b);
    Available1(m, at, c);
    assert [a, b] + [c] == [a, b, c];
  }

  lemma Available4(m: map<string, Tensor>, at: Option<string>, a: Member, b: Member, c: Member, d: Member)
    ensures Available(m, at, Group([a, b, c, d])) <==>
      Available(m, Some(Child(at, a.key)), a.layout) && Available(m, Some(Child(at, b.key)), b.layout)
      && Available(m, Some(Child(at, c.key)), c.layout) && Available(m, Some(Child(at, d.key)), d.layout)
  {
    AvailableConcat(m, at, [a, b], [c, d]);
    Available2(m, at, a, b);
    Available2(m, at, c, d);
    assert [a, b] + [c, d] == [a, b, c, d];
  }

  /** A two-member group is available exactly when both members are. */
  lemma Available2(m: map<string, Tensor>, at: Option<string>, a: Member, b: Member)
    ensures Available(m, at, Group([a, b])) <==>
      Available(m, Some(Child(at, a.key)), a.layout) && Available(m, Some(Child(at, b.key)), b.layout)
  {
    AvailableConcat(m, at, [a], [b]);
    Available1(m, at, a);
    Available1(m, at, b);
    assert [a] + [b] == [a, b];
  }

  /** The paths, tensors and values of a one-entry object are those of its entry. */
  lemma Obj1(at: Option<string>, a: Entry)
    ensures Paths(at, Obj([a])) == Paths(Some(Child(at, a.key)), a.node)
    ensures Tensors(Obj([a])) == Tensors(a.node)
    ensures Data(Obj([a])) == Data(a.node)
  {
    EntriesPathsAppend(at, [], a);
    EntriesTensorsAppend([], a);
    EntriesDataAppend([], a);
    assert [] + [a] == [a];
  }

  /** The paths, tensors and values of a two-entry object are those of its entries in order. */
  lemma Obj2(at: Option<string>, a: Entry, b: Entry)
    ensures Paths(at, Obj([a, b])) == Paths(Some(Child(at, a.key)), a.node) + Paths(Some(Child(at, b.key)), b.node)
    ensures Tensors(Obj([a, b])) == Tensors(a.node) + Tensors(b.node)
    ensures Data(Obj([a, b])) == Data(a.node) + Data(b.node)
  {
    EntriesPathsAppend(at, [a], b);
    EntriesTensorsAppend([a], b);
    EntriesDataAppend([a], b);
    assert [a] + [b] == [a, b];
    assert [a][..0] == [];
  }

  lemma Obj3(at: Option<string>, a: Entry, b: Entry, c: Entry)
    ensures Paths(at, Obj([a, b, c])) ==
      Paths(Some(Child(at, a.key)), a.node) + Paths(Some(Child(at, b.key)), b.node) + Paths(Some(Child(at, c.key)), c.node)
    ensures Tensors(Obj([a, b, c])) == Tensors(a.node) + Tensors(b.node) + Tensors(c.node)
    ensures Data(Obj([a, b, c])) == Data(a.node) + Data(b.node) + Data(c.node)
  {
    Obj2(at, a, b);
    EntriesPathsAppend(at, [a, b], c);
    EntriesTensorsAppend([a, b], c);
    EntriesDataAppend([a, b], c);
    assert [a, b] + [c] == [a, b, c];
  }

  lemma Obj4(at: Option<string>, a: Entry, b: Entry, c: Entry, d: Entry)
    ensures Paths(at, Obj([a, b, c, d])) ==
      Paths(Some(Child(at, a.key)), a.node) + Paths(Some(Child(at, b.key)), b.node) +
      Paths(Some(Child(at, c.key)), c.node) + Paths(Some(Child(at, d.key)), d.node)
    ensures Tensors(Obj([a, b, c, d])) == Tensors(a.node) + Tensors(b.node) + Tensors(c.node) + Tensors(d.node)
    ensures Data(Obj([a, b, c, d])) == Data(a.node) + Data(b.node) + Data(c.node) + Data(d.node)
  {
    Obj3(at, a, b, c);
    EntriesPathsAppend(at, [a, b, c], d);
    EntriesTensorsAppend([a, b, c], d);
    EntriesDataAppend([a, b, c], d);
    assert [a, b, c] + [d] == [a, b, c, d];
  }

  /** An object of two entries read one after the other from `w`, the second from `p1` on. */
  lemma ObjCut2(w: seq<real>, at: nat, p1: nat, a: Entry, b: Entry, sa: seq<seq<nat>>, sb: seq<seq<nat>>)
    requires p1 == at + TotalSize(sa)
    requires CutFrom(Tensors(a.node), w, at, sa) && CutFrom(Tensors(b.node), w, p1, sb)
    ensures CutFrom(Tensors(Obj([a, b])), w, at, sa + sb)
  {
    Obj2(None, a, b);
    CutFromAppend(Tensors(a.node), Tensors(b.node), w, at, p1, sa, sb);
  }

  /** An object of three entries read one after the other from `w`, the second from `p1` on and
      the third from `p2` on. */
  lemma ObjCut3(w: seq<real>, at: nat, p1: nat, p2: nat, a: Entry, b: Entry, c: Entry,
                sa: seq<seq<nat>>, sb: seq<seq<nat>>, sc: seq<seq<nat>>)
    requires p1 == at + TotalSize(sa) && p2 == p1 + TotalSize(sb)
    requires CutFrom(Tensors(a.node), w, at, sa) && CutFrom(Tensors(b.node), w, p1, sb)
    requires CutFrom(Tensors(c.node), w, p2, sc)
    ensures CutFrom(Tensors(Obj([a, b, c])), w, at, sa + sb + sc)
  {
    Obj3(None, a, b, c);
    CutFromAppend3(Tensors(a.node), Tensors(b.node), Tensors(c.node), w, at, p1, p2, sa, sb, sc);
  }

  lemma Conforms1(a: Entry, ma: Member)
    requires a.key == ma.key && Conforms(a.node, ma.layout)
    ensures Conforms(Obj([a]), Group([ma]))
  {
    var es, ms := [a], [ma];
    assert es[0] == a && ms[0] == ma;
  }

  /** An object of two or three entries conforms to a group of as many members entry by entry. */
  lemma Conforms2(a: Entry, b: Entry, ma: Member, mb: Member)
    requires a.key == ma.key && Conforms(a.node, ma.layout)
    requires b.key == mb.key && Conforms(b.node, mb.layout)
    ensures Conforms(Obj([a, b]), Group([ma, mb]))
  {
    var es, ms := [a, b], [ma, mb];
    assert es[0] == a && es[1] == b && ms[0] == ma && ms[1] == mb;
  }

  lemma Conforms3(a: Entry, b: Entry, c: Entry, ma: Member, mb: Member, mc: Member)
    requires a.key == ma.key && Conforms(a.node, ma.layout)
    requires b.key == mb.key && Conforms(b.node, mb.layout)
    requires c.key == mc.key && Conforms(c.node, mc.layout)
    ensures Conforms(Obj([a, b, c]), Group([ma, mb, mc]))
  {
    var es, ms := [a, b, c], [ma, mb, mc];
    assert es[0] == a && es[1] == b && es[2] == c && ms[0] == ma && ms[1] == mb && ms[2] == mc;
  }

  lemma Conforms4(a: Entry, b: Entry, c: Entry, d: Entry, ma: Member, mb: Member, mc: Member, md: Member)
    requires a.key == ma.key && Conforms(a.node, ma.layout)
    requires b.key == mb.key && Conforms(b.node, mb.layout)
    requires c.key == mc.key && Conforms(c.node, mc.layout)
    requires d.key == md.key && Conforms(d.node, md.layout)
    ensures Conforms(Obj([a, b, c, d]), Group([ma, mb, mc, md]))
  {
    var es, ms := [a, b, c, d], [ma, mb, mc, md];
    assert es[0] == a && es[1] == b && es[2] == c && es[3] == d;
    assert ms[0] == ma && ms[1] == mb && ms[2] == mc && ms[3] == md;
  }

  lemma FromMap1(m: map<string, Tensor>, at: Option<string>, a: Entry)
    requires FromMap(m, Some(Child(at, a.key)), a.node)
    ensures FromMap(m, at, Obj([a]))
  {
    var es := [a];
    assert es[0] == a;
  }

  /** An object of two or three entries is read from a map when each of its entries is. */
  lemma FromMap2(m: map<string, Tensor>, at: Option<string>, a: Entry, b: Entry)
    requires FromMap(m, Some(Child(at, a.key)), a.node) && FromMap(m, Some(Child(at, b.key)), b.node)
    ensures FromMap(m, at, Obj([a, b]))
  {
    var es := [a, b];
    assert es[0] == a && es[1] == b;
  }

  lemma FromMap3(m: map<string, Tensor>, at: Option<string>, a: Entry, b: Entry, c: Entry)
    requires FromMap(m, Some(Child(at, a.key)), a.node) && FromMap(m, Some(Child(at, b.key)), b.node)
    requires FromMap(m, Some(Child(at, c.key)), c.node)
    ensures FromMap(m, at, Obj([a, b, c]))
  {
    var es := [a, b, c];
    assert es[0] == a && es[1] == b && es[2] == c;
  }

  lemma FromMap4(m: map<string, Tensor>, at: Option<string>, a: Entry, b: Entry, c: Entry, d: Entry)
    requires FromMap(m, Some(Child(at, a.key)), a.node) && FromMap(m, Some(Child(at, b.key)), b.node)
    requires FromMap(m, Some(Child(at, c.key)), c.node) && FromMap(m, Some(Child(at, d.key)), d.node)
    ensures FromMap(m, at, Obj([a, b, c, d]))
  {
    var es := [a, b, c, d];
    assert es[0] == a && es[1] == b && es[2] == c && es[3] == d;
  }

  lemma Group2(at: Option<string>, a: Member, b: Member)
    ensures LayoutPaths(at, Group([a, b])) ==
      LayoutPaths(Some(Child(at, a.key)), a.layout) + LayoutPaths(Some(Child(at, b.key)), b.layout)
  {
    MembersPathsAppend(at, [a], b);
    assert [a] + [b] == [a, b];
    assert [a][..0] == [];
  }

  lemma Group3(at: Option<string>, a: Member, b: Member, c: Member)
    ensures LayoutPaths(at, Group([a, b, c])) ==
      LayoutPaths(Some(Child(at, a.key)), a.layout) + LayoutPaths(Some(Child(at, b.key)), b.layout) +
      LayoutPaths(Some(Child(at, c.key)), c.layout)
  {
    Group2(at, a, b);
    MembersPathsAppend(at, [a, b], c);
    assert [a, b] + [c] == [a, b, c];
  }

  lemma Group4(at: Option<string>, a: Member, b: Member, c: Member, d: Member)
    ensures LayoutPaths(at, Group([a, b, c, d])) ==
      LayoutPaths(Some(Child(at, a.key)), a.layout) + LayoutPaths(Some(Child(at, b.key)), b.layout) +
      LayoutPaths(Some(Child(at, c.key)), c.layout) + LayoutPaths(Some(Child(at, d.key)), d.layout)
  {
    Group3(at, a, b, c);
    MembersPathsAppend(at, [a, b, c], d);
    assert [a, b, c] + [d] == [a, b, c, d];
  }

  /** The paths recorded after `p0` by reading the members of a group under `at` one by one are the
      group's paths after `p0`. */
  lemma PathsAfter2(p0: seq<string>, at: string, a: Member, b: Member)
    ensures p0 + LayoutPaths(Some(Under(at, a.key)), a.layout) + LayoutPaths(Some(Under(at, b.key)), b.layout)
      == p0 + LayoutPaths(Some(at), Group([a, b]))
  {
    Group2(Some(at), a, b);
    AppendAssoc(p0, LayoutPaths(Some(Under(at, a.key)), a.layout), LayoutPaths(Some(Under(at, b.key)), b.layout));
  }

  lemma PathsAfter3(p0: seq<string>, at: string, a: Member, b: Member, c: Member)
    ensures p0 + LayoutPaths(Some(Under(at, a.key)), a.layout) + LayoutPaths(Some(Under(at, b.key)), b.layout)
        + LayoutPaths(Some(Under(at, c.key)), c.layout)
      == p0 + LayoutPaths(Some(at), Group([a, b, c]))
  {
    Group3(Some(at), a, b, c);
    AppendAssoc3(p0, LayoutPaths(Some(Under(at, a.key)), a.layout), LayoutPaths(Some(Under(at, b.key)), b.layout),
      LayoutPaths(Some(Under(at, c.key)), c.layout));
  }
}
