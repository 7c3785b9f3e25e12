/** allLayers and the lookups built on it. `allLayers` visits the pages in order and,
    on each page, every top-level layer followed by its direct children when it is a
    group, symbol master or artboard. Nothing deeper is visited. */
module Walker {
  import opened Seqs
  import opened Sketch

  /** The entries one top-level layer contributes to `allLayers`. */
  function Expand(l: Layer): seq<Layer>
  {
    [l] + (if IsContainer(l.kind) then l.layers else [])
  }

  /** The entries of one page. */
  function FlattenTops(tops: seq<Layer>): seq<Layer>
  {
    if tops == [] then [] else FlattenTops(tops[..|tops| - 1]) + Expand(tops[|tops| - 1])
  }

  /** The value `allLayers` computes for a document with these pages. */
  function Flatten(pages: seq<Page>): seq<Layer>
  {
    if pages == [] then [] else Flatten(pages[..|pages| - 1]) + FlattenTops(pages[|pages| - 1].layers)
  }

  /** The pushes for one top-level layer: the layer, then its children if it has them. */
  lemma ExpandPushed(entry: seq<Layer>, layer: Layer)
    ensures entry + Expand(layer) == if IsContainer(layer.kind) then entry + [layer] + layer.layers else entry + [layer]
  {
  }

  lemma FlattenTopsStep(tops: seq<Layer>, j: nat)
    requires j < |tops|
    ensures FlattenTops(tops[..j + 1]) == FlattenTops(tops[..j]) + Expand(tops[j])
  {
    assert tops[..j + 1][..j] == tops[..j];
  }

  lemma FlattenStep(pages: seq<Page>, i: nat)
    requires i < |pages|
    ensures Flatten(pages[..i + 1]) == Flatten(pages[..i]) + FlattenTops(pages[i].layers)
  {
    assert pages[..i + 1][..i] == pages[..i];
  }

  /** allLayers: the two nested `forEach` loops pushing into a local array. */
  method AllLayers(doc: SketchFile) returns (layers: seq<Layer>)
    ensures layers == Flatten(doc.pages)
  {
    var pages := doc.pages;
    layers := [];
    for i := 0 to |pages|
      invariant layers == Flatten(pages[..i])
    {
      layers := PushPage(layers, pages[i]);
      FlattenStep(pages, i);
    }
    assert pages[..|pages|] == pages;
  }

  /** The `forEach` callback over one page's top-level layers. */
  method PushPage(layers0: seq<Layer>, page: Page) returns (layers: seq<Layer>)
    ensures layers == layers0 + FlattenTops(page.layers)
  {
    layers := layers0;
    for j := 0 to |page.layers|
      invariant layers == layers0 + FlattenTops(page.layers[..j])
    {
      layers := PushLayer(layers, page.layers[j]);
      FlattenTopsStep(page.layers, j);
    }
    assert page.layers[..|page.layers|] == page.layers;
  }

  /** The `forEach` callback for one top-level layer: the layer, then its children when
      it is a group, a symbol master or an artboard. */
  method PushLayer(layers0: seq<Layer>, layer: Layer) returns (layers: seq<Layer>)
    ensures layers == layers0 + Expand(layer)
  {
    layers := layers0 + [layer];
    if IsContainer(layer.kind) {
      for c := 0 to |layer.layers|
        invariant layers == layers0 + [layer] + layer.layers[..c]
      {
        layers := layers + [layer.layers[c]];
      }
      assert layer.layers[..|layer.layers|] == layer.layers;
    }
    ExpandPushed(layers0, layer);
  }


  lemma {:induction false} FlattenTopsAppend(a: seq<Layer>, b: seq<Layer>)
    ensures FlattenTops(a + b) == FlattenTops(a) + FlattenTops(b)
  {
    if b != [] {
      var b' := b[..|b| - 1];
      assert (a + b)[..|a + b| - 1] == a + b';
      FlattenTopsAppend(a, b');
    } else {
      assert a + b == a;
    }
  }

  lemma {:induction false} FlattenAppend(a: seq<Page>, b: seq<Page>)
    ensures Flatten(a + b) == Flatten(a) + Flatten(b)
  {
    if b != [] {
      var b' := b[..|b| - 1];
      assert (a + b)[..|a + b| - 1] == a + b';
      FlattenAppend(a, b');
    } else {
      assert a + b == a;
    }
  }

  /** How many entries a top-level layer contributes. */
  function Weight(l: Layer): nat
  {
    1 + (if IsContainer(l.kind) then |l.layers| else 0)
  }

  function PageWeight(tops: seq<Layer>): nat
  {
    if tops == [] then 0 else PageWeight(tops[1..]) + Weight(tops[0])
  }

  function DocWeight(pages: seq<Page>): nat
  {
    if pages == [] then 0 else DocWeight(pages[1..]) + PageWeight(pages[0].layers)
  }

  /** The length of `allLayers` is the sum over top-level layers of one plus the number
      of children of those that are containers. */
  lemma {:induction false} FlattenLength(pages: seq<Page>)
    ensures |Flatten(pages)| == DocWeight(pages)
  {
    if pages != [] {
      FlattenLength(pages[1..]);
      FlattenAppend([pages[0]], pages[1..]);
      assert [pages[0]] + pages[1..] == pages;
      FlattenTopsLength(pages[0].layers);
      assert Flatten([pages[0]]) == FlattenTops(pages[0].layers) by {
        assert [pages[0]][..0] == [];
      }
    }
  }

  lemma {:induction false} FlattenTopsLength(tops: seq<Layer>)
    ensures |FlattenTops(tops)| == PageWeight(tops)
  {
    if tops != [] {
      FlattenTopsLength(tops[1..]);
      FlattenTopsAppend([tops[0]], tops[1..]);
      assert [tops[0]] + tops[1..] == tops;
      assert FlattenTops([tops[0]]) == Expand(tops[0]) by {
        assert [tops[0]][..0] == [];
      }
    }
  }

  /** Where the entries of top-level layer `j` of page `i` start in `allLayers`. */
  function TopOffset(pages: seq<Page>, i: nat, j: nat): nat
    requires i < |pages| && j <= |pages[i].layers|
  {
    |Flatten(pages[..i])| + |FlattenTops(pages[i].layers[..j])|
  }

  lemma {:induction false} FlattenSplit(pages: seq<Page>, i: nat)
    requires i < |pages|
    ensures Flatten(pages) == Flatten(pages[..i]) + FlattenTops(pages[i].layers) + Flatten(pages[i + 1..])
  {
    assert pages == pages[..i] + [pages[i]] + pages[i + 1..];
    FlattenAppend(pages[..i] + [pages[i]], pages[i + 1..]);
    FlattenAppend(pages[..i], [pages[i]]);
    assert Flatten([pages[i]]) == FlattenTops(pages[i].layers) by {
      assert [pages[i]][..0] == [];
    }
  }

  lemma {:induction false} FlattenTopsSplit(tops: seq<Layer>, j: nat)
    requires j < |tops|
    ensures FlattenTops(tops) == FlattenTops(tops[..j]) + Expand(tops[j]) + FlattenTops(tops[j + 1..])
  {
    assert tops == tops[..j] + [tops[j]] + tops[j + 1..];
    FlattenTopsAppend(tops[..j] + [tops[j]], tops[j + 1..]);
    FlattenTopsAppend(tops[..j], [tops[j]]);
    assert FlattenTops([tops[j]]) == Expand(tops[j]) by {
      assert [tops[j]][..0] == [];
    }
  }

  /** The layout of `allLayers`: pages in order; on each page the top-level layers in
      order; each top-level layer immediately followed by its direct children when it
      is a container, and by nothing else. */
  lemma Layout(pages: seq<Page>, i: nat, j: nat)
    requires i < |pages| && j < |pages[i].layers|
    ensures var o, l := TopOffset(pages, i, j), pages[i].layers[j];
      o + |Expand(l)| <= |Flatten(pages)| && Flatten(pages)[o..o + |Expand(l)|] == Expand(l)
  {
    var tops := pages[i].layers;
    FlattenAround(pages, i, j);
    SliceOfConcat(Flatten(pages[..i]) + FlattenTops(tops[..j]), Expand(tops[j]), FlattenTops(tops[j + 1..]) + Flatten(pages[i + 1..]));
  }

  /** `allLayers` split around the entries of top-level layer `j` of page `i`. */
  lemma FlattenAround(pages: seq<Page>, i: nat, j: nat)
    requires i < |pages| && j < |pages[i].layers|
    ensures var tops := pages[i].layers;
      Flatten(pages) == (Flatten(pages[..i]) + FlattenTops(tops[..j])) + Expand(tops[j]) + (FlattenTops(tops[j + 1..]) + Flatten(pages[i + 1..]))
  {
    var tops := pages[i].layers;
    FlattenSplit(pages, i);
    FlattenTopsSplit(tops, j);
    ConcatRegroup(Flatten(pages[..i]), FlattenTops(tops[..j]), Expand(tops[j]), FlattenTops(tops[j + 1..]), Flatten(pages[i + 1..]));
  }

  /** The next top-level layer's entries start right after this one's. */
  lemma NextTopOffset(pages: seq<Page>, i: nat, j: nat)
    requires i < |pages| && j < |pages[i].layers|
    ensures TopOffset(pages, i, j + 1) == TopOffset(pages, i, j) + |Expand(pages[i].layers[j])|
  {
    assert pages[i].layers[..j + 1][..j] == pages[i].layers[..j];
  }

  /** Pages follow one another with nothing in between, and nothing follows the last. */
  lemma {:induction false} PageBoundaries(pages: seq<Page>, i: nat)
    requires i < |pages|
    ensures TopOffset(pages, i, 0) == |Flatten(pages[..i])|
    ensures i + 1 < |pages| ==> TopOffset(pages, i, |pages[i].layers|) == TopOffset(pages, i + 1, 0)
    ensures i + 1 == |pages| ==> TopOffset(pages, i, |pages[i].layers|) == |Flatten(pages)|
  {
    var tops := pages[i].layers;
    assert tops[..0] == [];
    assert tops[..|tops|] == tops;
    assert |Flatten(pages[..i + 1])| == |Flatten(pages[..i])| + |FlattenTops(tops)| by {
      assert pages[..i + 1][..i] == pages[..i];
    }
    if i + 1 == |pages| {
      assert pages[..i + 1] == pages;
    } else {
      assert pages[i + 1].layers[..0] == [];
    }
  }

  /** A place `allLayers` visits: a top-level layer, or a direct child of one. */
  datatype Pos = Top(page: nat, index: nat) | Child(page: nat, index: nat, child: nat)

  predicate ValidPos(pages: seq<Page>, p: Pos)
  {
    p.page < |pages| && p.index < |pages[p.page].layers| &&
    (p.Child? ==> IsContainer(pages[p.page].layers[p.index].kind) && p.child < |pages[p.page].layers[p.index].layers|)
  }

  function LayerAt(pages: seq<Page>, p: Pos): Layer
    requires ValidPos(pages, p)
  {
    var top := pages[p.page].layers[p.index];
    if p.Top? then top else top.layers[p.child]
  }

  /** The index in `allLayers` of the entry at `p`. */
  function Offset(pages: seq<Page>, p: Pos): nat
    requires ValidPos(pages, p)
  {
    TopOffset(pages, p.page, p.index) + (if p.Top? then 0 else 1 + p.child)
  }

  /** Every two-level position is visited, at its offset. */
  lemma EntryAt(pages: seq<Page>, p: Pos)
    requires ValidPos(pages, p)
    ensures Offset(pages, p) < |Flatten(pages)| && Flatten(pages)[Offset(pages, p)] == LayerAt(pages, p)
  {
    var o, l := TopOffset(pages, p.page, p.index), pages[p.page].layers[p.index];
    var d := if p.Top? then 0 else 1 + p.child;
    assert Offset(pages, p) == o + d && LayerAt(pages, p) == if d == 0 then l else l.layers[d - 1];
    Layout(pages, p.page, p.index);
    ExpandAt(l, d);
    IndexInSlice(Flatten(pages), o, Expand(l), d);
  }

  /** The entry `d` places after a top-level layer's own entry. */
  lemma ExpandAt(l: Layer, d: nat)
    requires d == 0 || (IsContainer(l.kind) && d <= |l.layers|)
    ensures d < |Expand(l)| && Expand(l)[d] == if d == 0 then l else l.layers[d - 1]
  {
  }

  /** The position within one page's tops of entry `k` of `FlattenTops(tops)`. */
  function PosInTops(tops: seq<Layer>, k: nat): (r: (nat, Option<nat>))
    requires k < |FlattenTops(tops)|
    ensures r.0 < |tops|
    ensures r.1.Some? ==> IsContainer(tops[r.0].kind) && r.1.value < |tops[r.0].layers|
    ensures |FlattenTops(tops[..r.0])| + (if r.1.Some? then 1 + r.1.value else 0) == k
    ensures FlattenTops(tops)[k] == if r.1.Some? then tops[r.0].layers[r.1.value] else tops[r.0]
  {
    var n := |tops| - 1;
    assert tops[..n + 1] == tops;
    FlattenTopsSplit(tops, n);
    assert tops[n + 1..] == [];
    if k < |FlattenTops(tops[..n])| then
      var r := PosInTops(tops[..n], k);
      assert tops[..n][..r.0] == tops[..r.0];
      assert FlattenTops(tops)[k] == FlattenTops(tops[..n])[k];
      r
    else
      var d := k - |FlattenTops(tops[..n])|;
      assert FlattenTops(tops)[k] == Expand(tops[n])[d];
      if d == 0 then (n, None) else (n, Some(d - 1))
  }

  /** Every entry of `allLayers` is a top-level layer or a direct child of a top-level
      container: grandchildren are never visited. */
  function PosOf(pages: seq<Page>, k: nat): (p: Pos)
    requires k < |Flatten(pages)|
    ensures ValidPos(pages, p) && Offset(pages, p) == k && Flatten(pages)[k] == LayerAt(pages, p)
  {
    var n := |pages| - 1;
    FlattenSplit(pages, n);
    assert pages[n + 1..] == [];
    if k < |Flatten(pages[..n])| then
      var p := PosOf(pages[..n], k);
      PosOfPrefix(pages, n, p);
      p
    else
      var d := k - |Flatten(pages[..n])|;
      var r := PosInTops(pages[n].layers, d);
      assert Flatten(pages)[k] == FlattenTops(pages[n].layers)[d];
      if r.1.Some? then Child(n, r.0, r.1.value) else Top(n, r.0)
  }

  /** A position in the first `n` pages is the same position, at the same offset, in all
      the pages. */
  lemma PosOfPrefix(pages: seq<Page>, n: nat, p: Pos)
    requires n <= |pages| && ValidPos(pages[..n], p)
    ensures ValidPos(pages, p) && Offset(pages, p) == Offset(pages[..n], p) && LayerAt(pages, p) == LayerAt(pages[..n], p)
  {
    assert pages[..n][..p.page] == pages[..p.page];
  }

  predicate IsMaster(l: Layer) { l.kind == SymbolMaster }
  predicate IsInstance(l: Layer) { l.kind == SymbolInstance }
  predicate IsArtboard(l: Layer) { l.kind == Artboard }

  /** allSymbolMasters: a `forEach` over allLayers keeping the symbol masters. */
  method AllSymbolMasters(doc: SketchFile) returns (masters: seq<Layer>)
    ensures masters == Filter(Flatten(doc.pages), IsMaster)
  {
    var all := AllLayers(doc);
    masters := [];
    for i := 0 to |all|
      invariant masters == Filter(all[..i], IsMaster)
    {
      FilterStep(all, i, IsMaster);
      if all[i].kind == SymbolMaster {
        masters := masters + [all[i]];
      }
    }
    assert all[..|all|] == all;
  }

  /** allSymbolInstances: a `forEach` over allLayers keeping the symbol instances. */
  method AllSymbolInstances(doc: SketchFile) returns (instances: seq<Layer>)
    ensures instances == Filter(Flatten(doc.pages), IsInstance)
  {
    var all := AllLayers(doc);
    instances := [];
    for i := 0 to |all|
      invariant instances == Filter(all[..i], IsInstance)
    {
      FilterStep(all, i, IsInstance);
      if all[i].kind == SymbolInstance {
        instances := instances + [all[i]];
      }
    }
    assert all[..|all|] == all;
  }

  /** allArtboards: exactly the artboard entries of allLayers, in order. */
  function AllArtboards(pages: seq<Page>): (r: seq<Layer>)
    ensures |r| <= |Flatten(pages)|
    ensures forall x :: x in r <==> x in Flatten(pages) && x.kind == Artboard
  {
    var r := Filter(Flatten(pages), IsArtboard);
    forall x | x in Flatten(pages) && x.kind == Artboard ensures x in r {
      FilterComplete(Flatten(pages), IsArtboard, x);
    }
    r
  }

  /** getElementByID: the first entry of allLayers with that `do_objectID`. */
  function GetElementByID(id: string, pages: seq<Page>): (r: Option<Layer>)
    ensures r.Some? ==> r.value.id == id
    ensures r.Some? ==> exists k :: 0 <= k < |Flatten(pages)| && Flatten(pages)[k] == r.value &&
                                    (forall m :: 0 <= m < k ==> Flatten(pages)[m].id != id)
    ensures r.None? <==> forall x :: x in Flatten(pages) ==> x.id != id
  {
    First(Flatten(pages), (l: Layer) => l.id == id)
  }

  /** getElementByName: the first entry of allLayers with that name. */
  function GetElementByName(name: string, pages: seq<Page>): (r: Option<Layer>)
    ensures r.Some? ==> r.value.name == name
    ensures r.Some? ==> exists k :: 0 <= k < |Flatten(pages)| && Flatten(pages)[k] == r.value &&
                                    (forall m :: 0 <= m < k ==> Flatten(pages)[m].name != name)
    ensures r.None? <==> forall x :: x in Flatten(pages) ==> x.name != name
  {
    First(Flatten(pages), (l: Layer) => l.name == name)
  }

  /** getElementsByName: every entry of allLayers with that name, in order. */
  function GetElementsByName(name: string, pages: seq<Page>): (r: seq<Layer>)
    ensures forall x :: x in r <==> x in Flatten(pages) && x.name == name
  {
    var r := Filter(Flatten(pages), (l: Layer) => l.name == name);
    forall x | x in Flatten(pages) && x.name == name ensures x in r {
      FilterComplete(Flatten(pages), (l: Layer) => l.name == name, x);
    }
    r
  }

  /** When some layer has the name, getElementByName gives the first of getElementsByName. */
  lemma ByNameIsHeadOfAllByName(name: string, pages: seq<Page>)
    ensures GetElementsByName(name, pages) == [] <==> GetElementByName(name, pages).None?
    ensures GetElementsByName(name, pages) != [] ==>
      GetElementByName(name, pages) == Some(GetElementsByName(name, pages)[0])
  {
    FirstIsHeadOfFilter(Flatten(pages), (l: Layer) => l.name == name);
  }

  /** The artboards of the earlier pages come first, in allLayers order. */
  lemma AllArtboardsAppend(a: seq<Page>, b: seq<Page>)
    ensures AllArtboards(a + b) == AllArtboards(a) + AllArtboards(b)
  {
    FlattenAppend(a, b);
    FilterAppend(Flatten(a), Flatten(b), IsArtboard);
  }

  /** getElementsByName keeps allLayers order: the matches of the earlier pages come first. */
  lemma ElementsByNameAppend(name: string, a: seq<Page>, b: seq<Page>)
    ensures GetElementsByName(name, a + b) == GetElementsByName(name, a) + GetElementsByName(name, b)
  {
    FlattenAppend(a, b);
    FilterAppend(Flatten(a), Flatten(b), (l: Layer) => l.name == name);
  }

  /** getSymbolMaster: a `forEach` over allSymbolMasters that reassigns its result at
      every master with the instance's `symbolID`, so the last such master wins. */
  method GetSymbolMaster(instance: Layer, doc: SketchFile) returns (r: Option<Layer>)
    ensures r == SymbolMasterFor(instance, doc.pages)
  {
    var masters := AllSymbolMasters(doc);
    r := None;
    for i := 0 to |masters|
      invariant r == LastMatch(masters[..i], HasSymbolID(instance.symbolID))
    {
      LastMatchStep(masters, i, HasSymbolID(instance.symbolID));
      if masters[i].symbolID == instance.symbolID {
        r := Some(masters[i]);
      }
    }
    assert masters[..|masters|] == masters;
  }

  function HasSymbolID(id: string): Layer -> bool
  {
    (m: Layer) => m.symbolID == id
  }

  /** The master getSymbolMaster returns, as a value of the pages. */
  function SymbolMasterFor(instance: Layer, pages: seq<Page>): (r: Option<Layer>)
    ensures r.Some? ==> IsMaster(r.value) && r.value.symbolID == instance.symbolID && r.value in Flatten(pages)
  {
    LastMatch(Filter(Flatten(pages), IsMaster), HasSymbolID(instance.symbolID))
  }

  /** getSymbolMaster finds the LAST master in allSymbolMasters order with the
      instance's symbolID, and finds nothing exactly when no master has it. */
  lemma SymbolMasterForIsLast(instance: Layer, pages: seq<Page>)
    ensures var r := SymbolMasterFor(instance, pages);
      var ms := Filter(Flatten(pages), IsMaster);
      (r.Some? ==> exists k :: 0 <= k < |ms| && ms[k] == r.value && forall m :: k < m < |ms| ==> ms[m].symbolID != instance.symbolID) &&
      (r.None? <==> forall x :: x in Flatten(pages) && IsMaster(x) ==> x.symbolID != instance.symbolID)
  {
    assert SymbolMasterFor(instance, pages) == LastMatch(Filter(Flatten(pages), IsMaster), HasSymbolID(instance.symbolID));
    LastMasterWithID(Flatten(pages), instance.symbolID);
  }

  lemma LastMasterWithID(all: seq<Layer>, id: string)
    ensures var ms := Filter(all, IsMaster); var r := LastMatch(ms, HasSymbolID(id));
      (r.Some? ==> exists k :: 0 <= k < |ms| && ms[k] == r.value && forall m :: k < m < |ms| ==> ms[m].symbolID != id) &&
      (r.None? <==> forall x :: x in all && IsMaster(x) ==> x.symbolID != id)
  {
    var p := HasSymbolID(id);
    var ms := Filter(all, IsMaster);
    LastOfFilter(all, IsMaster, p);
    var r := LastMatch(ms, p);
    if r.Some? {
      var k :| 0 <= k < |ms| && ms[k] == r.value && forall m :: k < m < |ms| ==> !p(ms[m]);
      forall m | k < m < |ms| ensures ms[m].symbolID != id {
        assert !p(ms[m]);
      }
    }
    assert (forall x :: x in all && IsMaster(x) ==> !p(x)) <==>
           (forall x :: x in all && IsMaster(x) ==> x.symbolID != id);
  }



  // A `forEach` over allLayers whose body updates each entry in place.

  /** What such a pass does to one top-level layer: the body runs on the layer, then on
      each of its children (already updated by the first run when the body recurses). */
  function VisitTop(l: Layer, f: Layer -> Layer): Layer
  {
    var t := f(l);
    if IsContainer(l.kind) then t.(layers := Map(f, t.layers)) else t
  }

  function VisitTops(tops: seq<Layer>, f: Layer -> Layer): (r: seq<Layer>)
    ensures |r| == |tops| && forall j :: 0 <= j < |tops| ==> r[j] == VisitTop(tops[j], f)
  {
    seq(|tops|, j requires 0 <= j < |tops| => VisitTop(tops[j], f))
  }

  /** The pages after such a pass. */
  function ApplyToEntries(pages: seq<Page>, f: Layer -> Layer): (r: seq<Page>)
    ensures |r| == |pages|
    ensures forall i :: 0 <= i < |pages| ==> r[i] == pages[i].(layers := VisitTops(pages[i].layers, f))
  {
    seq(|pages|, i requires 0 <= i < |pages| => pages[i].(layers := VisitTops(pages[i].layers, f)))
  }

  /** `allLayers(document).forEach(layer => { body(layer) })` */
  method VisitEntries(doc: SketchFile, f: Layer -> Layer)
    modifies doc`pages
    ensures doc.pages == ApplyToEntries(old(doc.pages), f)
  {
    for i := 0 to |doc.pages|
      invariant |doc.pages| == |old(doc.pages)|
      invariant forall k :: 0 <= k < i ==> doc.pages[k] == ApplyToEntries(old(doc.pages), f)[k]
      invariant forall k :: i <= k < |doc.pages| ==> doc.pages[k] == old(doc.pages)[k]
    {
      var page := doc.pages[i];
      var tops := page.layers;
      for j := 0 to |tops|
        invariant |tops| == |page.layers|
        invariant forall k :: 0 <= k < j ==> tops[k] == VisitTop(page.layers[k], f)
        invariant forall k :: j <= k < |tops| ==> tops[k] == page.layers[k]
      {
        var layer := f(tops[j]);
        if IsContainer(tops[j].kind) {
          var children := layer.layers;
          for c := 0 to |children|
            invariant |children| == |layer.layers|
            invariant forall k :: 0 <= k < c ==> children[k] == f(layer.layers[k])
            invariant forall k :: c <= k < |children| ==> children[k] == layer.layers[k]
          {
            children := children[c := f(children[c])];
          }
          layer := layer.(layers := children);
        }
        tops := tops[j := layer];
      }
      doc.pages := doc.pages[i := page.(layers := tops)];
    }
  }


  /** The body changes no layer's class and no layer's number of children. */
  ghost predicate KeepsShape(f: Layer -> Layer)
  {
    forall l: Layer :: f(l).kind == l.kind && |f(l).layers| == |l.layers|
  }

  /** A shape-keeping pass reaches every position exactly as allLayers lists it: a
      top-level layer is run once, and a child is run after its parent's run. */
  lemma ApplyToEntriesAt(pages: seq<Page>, f: Layer -> Layer, p: Pos)
    requires KeepsShape(f)
    requires ValidPos(pages, p)
    ensures ValidPos(ApplyToEntries(pages, f), p)
    ensures var top := pages[p.page].layers[p.index];
      LayerAt(ApplyToEntries(pages, f), p) == if p.Top? then VisitTop(top, f) else f(f(top).layers[p.child])
  {
  }

  /** The pages with the layer at `p` replaced by `x`. */
  function SetLayerAt(pages: seq<Page>, p: Pos, x: Layer): (r: seq<Page>)
    requires ValidPos(pages, p)
    ensures |r| == |pages|
    ensures forall i :: 0 <= i < |pages| && i != p.page ==> r[i] == pages[i]
    ensures |r[p.page].layers| == |pages[p.page].layers|
    ensures forall j :: 0 <= j < |pages[p.page].layers| && j != p.index ==> r[p.page].layers[j] == pages[p.page].layers[j]
    ensures r[p.page].id == pages[p.page].id && r[p.page].name == pages[p.page].name
    ensures ValidPos(r, p) && LayerAt(r, p) == x
  {
    var page := pages[p.page];
    var top := page.layers[p.index];
    var top' := if p.Top? then x else top.(layers := top.layers[p.child := x]);
    pages[p.page := page.(layers := page.layers[p.index := top'])]
  }

  /** `p` is a child of the top-level layer at `q`. */
  predicate Under(p: Pos, q: Pos)
  {
    p.Child? && q.Top? && p.page == q.page && p.index == q.index
  }

  /** Replacing the layer at `p` leaves every other position valid and, unless it holds
      `p` as a child, its layer as it was. */
  lemma SetLayerAtElsewhere(pages: seq<Page>, p: Pos, x: Layer, q: Pos)
    requires ValidPos(pages, p) && ValidPos(pages, q) && q != p && !Under(q, p)
    ensures ValidPos(SetLayerAt(pages, p, x), q)
    ensures Under(p, q) ==> LayerAt(SetLayerAt(pages, p, x), q) == LayerAt(pages, q).(layers := LayerAt(pages, q).layers[p.child := x])
    ensures !Under(p, q) ==> LayerAt(SetLayerAt(pages, p, x), q) == LayerAt(pages, q)
  {
  }
}
