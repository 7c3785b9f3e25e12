/** Injecting a symbol master into a document. Three historical versions:
    injectSymbol.ts replaces the first same-named master anywhere allLayers looks and
    rebinds its instances; inject-symbol.ts replaces every same-named top-level master,
    renaming its top-level instances' overrides; the injectSymbol of index.ts replaces
    every same-named top-level master and touches no instance. When no master matches,
    all three push the symbol onto the symbols page, created with a fresh id when no
    page has that name. */
module Inject {
  import opened Seqs
  import opened Sketch
  import opened Walker
  import opened Overrides

  // Property copying between layers.

  /** The names of the extra keys the layer owns, `undefined` or not. */
  function OwnExtra(l: Layer): (r: set<string>)
    ensures forall k :: k in r <==> ExtraKey(k) in OwnKeys(l)
  {
    l.extra.Keys + set x | x in l.undefinedKeys && x.ExtraKey? :: x.name
  }

  /** The owned keys the incoming map has, with the incoming values. */
  function KeptExtra(owned: set<string>, incoming: map<string, Prop>): (r: map<string, Prop>)
    ensures r.Keys == owned * incoming.Keys
    ensures forall k :: k in r ==> r[k] == incoming[k]
  {
    map k | k in owned && k in incoming :: incoming[k]
  }

  /** `for (const property in existing) if (existing.hasOwnProperty(property))
      existing[property] = incoming[property]`: every key the existing layer owns takes
      the incoming value. A key the incoming layer has no value for stays an own key of
      the master, holding `undefined`; a later overwrite can fill it again. No key is
      added. */
  function OverwriteOwn(existing: Layer, incoming: Layer): (r: Layer)
    ensures r.kind == incoming.kind && r.id == incoming.id && r.name == incoming.name && r.frame == incoming.frame
    ensures r.style == incoming.style && r.layers == incoming.layers && r.symbolID == incoming.symbolID
    ensures existing.sharedStyleID.Some? ==> r.sharedStyleID == incoming.sharedStyleID
    ensures existing.attributedString.Some? ==> r.attributedString == incoming.attributedString
    ensures existing.previousTextStyle.Some? ==> r.previousTextStyle == incoming.previousTextStyle
    ensures r.sharedStyleID == if SharedStyleIDKey in OwnKeys(existing) then incoming.sharedStyleID else None
    ensures r.attributedString == if AttributedStringKey in OwnKeys(existing) then incoming.attributedString else None
    ensures r.previousTextStyle == if UserInfoKey in OwnKeys(existing) then incoming.previousTextStyle else None
    ensures r.extra.Keys == OwnExtra(existing) * incoming.extra.Keys
    ensures forall k :: k in r.extra ==> r.extra[k] == incoming.extra[k]
    ensures r.undefinedKeys == OwnKeys(existing) - OptionalKeys(incoming)
  {
    incoming.(
      sharedStyleID := if SharedStyleIDKey in OwnKeys(existing) then incoming.sharedStyleID else None,
      attributedString := if AttributedStringKey in OwnKeys(existing) then incoming.attributedString else None,
      previousTextStyle := if UserInfoKey in OwnKeys(existing) then incoming.previousTextStyle else None,
      extra := KeptExtra(OwnExtra(existing), incoming.extra),
      undefinedKeys := OwnKeys(existing) - OptionalKeys(incoming))
  }

  /** The value an own key of `existing` takes when `incoming` is copied over it key by
      key: the incoming one when `incoming` owns the key too, its own otherwise. */
  function SharedValue<T>(key: OptionalKey, existing: Layer, incoming: Layer, mine: Option<T>, theirs: Option<T>): Option<T>
  {
    if key in OwnKeys(incoming) && key in OwnKeys(existing) then theirs else mine
  }

  /** `for (const property in incoming) if (existing.hasOwnProperty(property))
      existing[property] = incoming[property]`: keys both own take the incoming value
      (which may be `undefined`), keys only the existing layer owns are kept, no key is
      added. */
  function OverwriteShared(existing: Layer, incoming: Layer): (r: Layer)
    ensures r.kind == incoming.kind && r.id == incoming.id && r.name == incoming.name && r.frame == incoming.frame
    ensures r.style == incoming.style && r.layers == incoming.layers && r.symbolID == incoming.symbolID
    ensures r.sharedStyleID == if SharedStyleIDKey in OwnKeys(incoming) && SharedStyleIDKey in OwnKeys(existing)
                               then incoming.sharedStyleID else existing.sharedStyleID
    ensures r.extra.Keys <= existing.extra.Keys + OwnExtra(existing)
    ensures forall k :: k in OwnExtra(existing) && k in OwnExtra(incoming) ==>
      (k in r.extra <==> k in incoming.extra) && (k in r.extra ==> r.extra[k] == incoming.extra[k])
    ensures forall k :: k in existing.extra && k !in OwnExtra(incoming) ==> k in r.extra && r.extra[k] == existing.extra[k]
    ensures r.undefinedKeys == (existing.undefinedKeys - OwnKeys(incoming)) + (incoming.undefinedKeys * OwnKeys(existing))
  {
    incoming.(
      sharedStyleID := SharedValue(SharedStyleIDKey, existing, incoming, existing.sharedStyleID, incoming.sharedStyleID),
      attributedString := SharedValue(AttributedStringKey, existing, incoming, existing.attributedString, incoming.attributedString),
      previousTextStyle := SharedValue(UserInfoKey, existing, incoming, existing.previousTextStyle, incoming.previousTextStyle),
      extra := map k | k in OwnExtra(existing) && (if k in OwnExtra(incoming) then k in incoming.extra else k in existing.extra) ::
                 if k in OwnExtra(incoming) then incoming.extra[k] else existing.extra[k],
      undefinedKeys := (existing.undefinedKeys - OwnKeys(incoming)) + (incoming.undefinedKeys * OwnKeys(existing)))
  }

  /** The `for...in` over the master's own keys neither adds nor removes an own key; a
      key with a value afterwards is one the master owned. */
  lemma OverwriteOwnAddsNoKey(existing: Layer, incoming: Layer)
    ensures OwnKeys(OverwriteOwn(existing, incoming)) == OwnKeys(existing)
    ensures OptionalKeys(OverwriteOwn(existing, incoming)) <= OwnKeys(existing)
    ensures WellKeyed(OverwriteOwn(existing, incoming))
  {
    var r := OverwriteOwn(existing, incoming);
    forall x ensures HasValue(r, x) <==> x in OwnKeys(existing) && HasValue(incoming, x) {
      if x.ExtraKey? {
        assert x.name in r.extra <==> x.name in OwnExtra(existing) && x.name in incoming.extra;
      }
    }
  }

  /** The `for...in` over the incoming keys neither adds nor removes an own key, and on
      layers without `undefined` keys neither adds nor removes a key with a value. */
  lemma OverwriteSharedKeepsKeys(existing: Layer, incoming: Layer)
    ensures OwnKeys(OverwriteShared(existing, incoming)) == OwnKeys(existing)
    ensures existing.undefinedKeys == {} && incoming.undefinedKeys == {} ==>
      OptionalKeys(OverwriteShared(existing, incoming)) == OptionalKeys(existing)
  {
    var r := OverwriteShared(existing, incoming);
    forall x ensures HasValue(r, x) <==>
      x in OwnKeys(existing) && (if x in OwnKeys(incoming) then HasValue(incoming, x) else HasValue(existing, x))
    {
      if x.ExtraKey? {
        assert x.name in OwnExtra(existing) <==> x in OwnKeys(existing);
        assert x.name in OwnExtra(incoming) <==> x in OwnKeys(incoming);
      }
    }
  }

  /** A master overwritten by a symbol lacking one of its keys, then by a symbol that
      has it, ends with the second symbol's value for it: the key survived the first
      overwrite as `undefined`. */
  lemma LaterOverwriteRefills(master: Layer, first: Layer, second: Layer, k: string)
    requires k in master.extra && k !in first.extra && k in second.extra
    ensures var r := OverwriteOwn(OverwriteOwn(master, first), second);
      k in r.extra && r.extra[k] == second.extra[k]
    ensures master.sharedStyleID.Some? && first.sharedStyleID.None? ==>
      OverwriteOwn(OverwriteOwn(master, first), second).sharedStyleID == second.sharedStyleID
  {
    var once := OverwriteOwn(master, first);
    assert ExtraKey(k) in OptionalKeys(master);
    assert ExtraKey(k) !in OptionalKeys(first);
    assert ExtraKey(k) in once.undefinedKeys;
    assert k in OwnExtra(once);
  }

  /** Overwriting a layer that owns exactly the keys the incoming layer has values for
      yields a copy of the incoming layer. */
  lemma OverwriteOwnSameKeys(existing: Layer, incoming: Layer)
    requires existing.sharedStyleID.Some? == incoming.sharedStyleID.Some?
    requires existing.attributedString.Some? == incoming.attributedString.Some?
    requires existing.previousTextStyle.Some? == incoming.previousTextStyle.Some?
    requires existing.extra.Keys == incoming.extra.Keys
    ensures OverwriteOwn(existing, incoming) == incoming.(undefinedKeys := OwnKeys(existing) - OptionalKeys(incoming))
    ensures existing.undefinedKeys == {} ==> OverwriteOwn(existing, incoming) == incoming.(undefinedKeys := {})
  {
    var r := OverwriteOwn(existing, incoming);
    assert OptionalKeys(existing) == OptionalKeys(incoming) by {
      assert forall x :: x in OptionalKeys(existing) <==> x in OptionalKeys(incoming);
    }
    assert r.extra == incoming.extra;
    if SharedStyleIDKey in existing.undefinedKeys && existing.sharedStyleID.None? {
      assert r.sharedStyleID == incoming.sharedStyleID;
    }
  }

  lemma OverwriteOwnIdempotent(existing: Layer, incoming: Layer)
    ensures OverwriteOwn(OverwriteOwn(existing, incoming), incoming) == OverwriteOwn(existing, incoming)
  {
    var once := OverwriteOwn(existing, incoming);
    OverwriteOwnAddsNoKey(existing, incoming);
    assert OwnExtra(once) == OwnExtra(existing) by {
      forall k ensures k in OwnExtra(once) <==> k in OwnExtra(existing) {
        assert k in OwnExtra(once) <==> ExtraKey(k) in OwnKeys(once);
        assert k in OwnExtra(existing) <==> ExtraKey(k) in OwnKeys(existing);
      }
    }
    assert OverwriteOwn(once, incoming).extra == once.extra;
  }

  lemma OverwriteSharedIdempotent(existing: Layer, incoming: Layer)
    ensures OverwriteShared(OverwriteShared(existing, incoming), incoming) == OverwriteShared(existing, incoming)
  {
    var once := OverwriteShared(existing, incoming);
    OverwriteSharedKeepsKeys(existing, incoming);
    assert OwnExtra(once) == OwnExtra(existing) by {
      forall k ensures k in OwnExtra(once) <==> k in OwnExtra(existing) {
        assert k in OwnExtra(once) <==> ExtraKey(k) in OwnKeys(once);
        assert k in OwnExtra(existing) <==> ExtraKey(k) in OwnKeys(existing);
      }
    }
    assert OverwriteShared(once, incoming).extra == once.extra;
  }

  // The symbols page.

  function PageNamed(name: string): Page -> bool
  {
    (p: Page) => p.name == name
  }

  /** `pageName || 'Symbols'`. */
  function SymbolPageName(pageName: Option<string>): (r: string)
    ensures r != ""
  {
    if pageName.Some? && pageName.value != "" then pageName.value else "Symbols"
  }

  /** The layers of the first page with that name; none when there is no such page. */
  function PageLayers(pages: seq<Page>, name: string): seq<Layer>
  {
    match First(pages, PageNamed(name))
    case None => []
    case Some(page) => page.layers
  }

  /** The symbol pushed onto the first page with that name, a new empty page with that
      name and the fresh id being appended first when there is none. */
  function PushToPage(pages: seq<Page>, name: string, freshPageID: string, symbol: Layer): (r: seq<Page>)
    ensures FirstIndex(pages, PageNamed(name)).Some? ==>
      var i := FirstIndex(pages, PageNamed(name)).value;
      |r| == |pages| && r[i] == pages[i].(layers := pages[i].layers + [symbol]) &&
      forall k :: 0 <= k < |pages| && k != i ==> r[k] == pages[k]
    ensures FirstIndex(pages, PageNamed(name)).None? ==> r == pages + [Page(freshPageID, name, [symbol])]
  {
    match FirstIndex(pages, PageNamed(name))
    case Some(i) => pages[i := pages[i].(layers := pages[i].layers + [symbol])]
    case None => pages + [Page(freshPageID, name, [symbol])]
  }

  /** The `find` / create / `find` / `push` sequence on the document. */
  method AddToSymbolPage(doc: SketchFile, name: string, freshPageID: string, symbol: Layer)
    modifies doc`pages
    ensures doc.pages == PushToPage(old(doc.pages), name, freshPageID, symbol)
  {
    var symbolPage := FirstIndex(doc.pages, PageNamed(name));
    if symbolPage.None? {
      ghost var before := doc.pages;
      doc.pages := doc.pages + [Page(freshPageID, name, [])];
      symbolPage := FirstIndex(doc.pages, PageNamed(name));
      assert PageNamed(name)(doc.pages[|before|]);
      forall m | 0 <= m < |before| ensures !PageNamed(name)(doc.pages[m]) {
        assert doc.pages[m] == before[m];
      }
    }
    var i := symbolPage.value;
    doc.pages := doc.pages[i := doc.pages[i].(layers := doc.pages[i].layers + [symbol])];
    if FirstIndex(old(doc.pages), PageNamed(name)).None? {
      assert [] + [symbol] == [symbol];
      assert doc.pages == old(doc.pages) + [Page(freshPageID, name, [symbol])];
    }
  }

  /** After the push, the symbol is the last layer of the first page with that name. */
  lemma PushedSymbolIsLast(pages: seq<Page>, name: string, freshPageID: string, symbol: Layer)
    ensures var r := PushToPage(pages, name, freshPageID, symbol);
      FirstIndex(r, PageNamed(name)).Some? &&
      var i := FirstIndex(r, PageNamed(name)).value;
      r[i].layers == PageLayers(pages, name) + [symbol]
  {
    var r := PushToPage(pages, name, freshPageID, symbol);
    if FirstIndex(pages, PageNamed(name)).None? {
      assert FirstIndex(r, PageNamed(name)) == Some(|pages|) by {
        assert r[|pages|].name == name;
        forall m | 0 <= m < |pages| ensures r[m].name != name {
          assert !PageNamed(name)(pages[m]);
        }
      }
    } else {
      var i := FirstIndex(pages, PageNamed(name)).value;
      assert FirstIndex(r, PageNamed(name)) == Some(i) by {
        forall m | 0 <= m < i ensures r[m].name != name {
          assert !PageNamed(name)(pages[m]);
        }
      }
    }
  }

  // injectSymbol.ts

  function MasterNamed(name: string): Layer -> bool
  {
    (l: Layer) => IsMaster(l) && l.name == name
  }

  function NameIs(name: string): Layer -> bool
  {
    (l: Layer) => l.name == name
  }

  /** The instance pass: an instance of the replaced master now uses the new symbol. */
  function Rebind(from: string, to: string): Layer -> Layer
  {
    (l: Layer) => if IsInstance(l) && l.symbolID == from then l.(symbolID := to) else l
  }

  lemma RebindKeepsShape(from: string, to: string)
    ensures KeepsShape(Rebind(from, to))
  {
  }

  /** The new symbol placed where the replaced master was. */
  function Positioned(newSymbol: Layer, master: Layer): Layer
  {
    newSymbol.(frame := newSymbol.frame.(x := master.frame.x, y := master.frame.y))
  }

  /** `allSymbolMasters(document).find(m => m.name === name)` is the first entry of
      allLayers that is a master with that name. */
  lemma FirstMasterNamed(pages: seq<Page>, name: string)
    ensures First(Filter(Flatten(pages), IsMaster), NameIs(name)) == First(Flatten(pages), MasterNamed(name))
  {
    FirstOfFilter(Flatten(pages), IsMaster, NameIs(name), MasterNamed(name));
  }

  /** Where that master is. */
  function FoundAt(pages: seq<Page>, name: string): (p: Pos)
    requires FirstIndex(Flatten(pages), MasterNamed(name)).Some?
    ensures ValidPos(pages, p) && MasterNamed(name)(LayerAt(pages, p))
    ensures First(Flatten(pages), MasterNamed(name)) == Some(LayerAt(pages, p))
  {
    PosOf(pages, FirstIndex(Flatten(pages), MasterNamed(name)).value)
  }

  /** The pages after injectSymbol.ts: when a symbol master anywhere in allLayers has
      the new symbol's name, the first one is overwritten in place and its instances are
      rebound; otherwise the symbol is pushed onto the symbols page. */
  function InjectFirst(pages: seq<Page>, newSymbol: Layer, pageName: Option<string>, freshPageID: string): seq<Page>
  {
    if FirstIndex(Flatten(pages), MasterNamed(newSymbol.name)).None? then
      PushToPage(pages, SymbolPageName(pageName), freshPageID, newSymbol)
    else
      var p := FoundAt(pages, newSymbol.name);
      var master := LayerAt(pages, p);
      var rebind := Rebind(master.symbolID, newSymbol.symbolID);
      RebindKeepsShape(master.symbolID, newSymbol.symbolID);
      ApplyToEntriesAt(pages, rebind, p);
      SetLayerAt(ApplyToEntries(pages, rebind), p, OverwriteOwn(master, Positioned(newSymbol, master)))
  }

  /** injectSymbol.ts. The position of the master found is where the source holds an
      object reference. */
  method InjectSymbol(newSymbol: Layer, doc: SketchFile, pageName: Option<string>, freshPageID: string) returns (r: SketchFile)
    modifies doc`pages
    ensures r == doc
    ensures doc.pages == InjectFirst(old(doc.pages), newSymbol, pageName, freshPageID)
  {
    var symbolPageName := SymbolPageName(pageName);
    var foundSymbol := false;
    var masters := AllSymbolMasters(doc);
    var symbolMaster := First(masters, NameIs(newSymbol.name));
    FirstMasterNamed(doc.pages, newSymbol.name);
    if symbolMaster.Some? {
      var p := FoundAt(doc.pages, newSymbol.name);
      var master := symbolMaster.value;
      ghost var before := doc.pages;
      var rebind := Rebind(master.symbolID, newSymbol.symbolID);
      VisitEntries(doc, rebind);
      RebindKeepsShape(master.symbolID, newSymbol.symbolID);
      ApplyToEntriesAt(before, rebind, p);
      doc.pages := SetLayerAt(doc.pages, p, OverwriteOwn(master, Positioned(newSymbol, master)));
      foundSymbol := true;
    }
    if !foundSymbol {
      AddToSymbolPage(doc, symbolPageName, freshPageID, newSymbol);
    }
    r := doc;
  }

  /** When a same-named master exists, injectSymbol.ts keeps every page and the number
      of top-level layers on each. */
  lemma InjectFirstKeepsPages(pages: seq<Page>, newSymbol: Layer, pageName: Option<string>, freshPageID: string)
    requires FirstIndex(Flatten(pages), MasterNamed(newSymbol.name)).Some?
    ensures var r := InjectFirst(pages, newSymbol, pageName, freshPageID);
      |r| == |pages| &&
      forall i :: 0 <= i < |pages| ==> r[i].id == pages[i].id && r[i].name == pages[i].name && |r[i].layers| == |pages[i].layers|
  {
  }

  /** ... and puts the overwritten master, at the old master's x and y, where the first
      such master was. */
  lemma InjectFirstPlacesMaster(pages: seq<Page>, newSymbol: Layer, pageName: Option<string>, freshPageID: string)
    requires FirstIndex(Flatten(pages), MasterNamed(newSymbol.name)).Some?
    ensures var r := InjectFirst(pages, newSymbol, pageName, freshPageID);
      var p := FoundAt(pages, newSymbol.name);
      var master := LayerAt(pages, p);
      ValidPos(r, p) && LayerAt(r, p) == OverwriteOwn(master, Positioned(newSymbol, master)) &&
      LayerAt(r, p).frame.x == master.frame.x && LayerAt(r, p).frame.y == master.frame.y &&
      LayerAt(r, p).symbolID == newSymbol.symbolID && LayerAt(r, p).name == newSymbol.name
  {
  }

  /** ... and moves every instance of the old master, at any position outside the
      replaced master, to the new symbol, leaving every other layer's symbol as it was. */
  lemma InjectFirstRebinds(pages: seq<Page>, newSymbol: Layer, pageName: Option<string>, freshPageID: string, q: Pos)
    requires FirstIndex(Flatten(pages), MasterNamed(newSymbol.name)).Some?
    requires ValidPos(pages, q) && q != FoundAt(pages, newSymbol.name) && !Under(q, FoundAt(pages, newSymbol.name))
    ensures var r := InjectFirst(pages, newSymbol, pageName, freshPageID);
      var master := LayerAt(pages, FoundAt(pages, newSymbol.name));
      ValidPos(r, q) &&
      LayerAt(r, q).symbolID == (if IsInstance(LayerAt(pages, q)) && LayerAt(pages, q).symbolID == master.symbolID
                                 then newSymbol.symbolID else LayerAt(pages, q).symbolID)
  {
    var p := FoundAt(pages, newSymbol.name);
    var master := LayerAt(pages, p);
    var rebind := Rebind(master.symbolID, newSymbol.symbolID);
    RebindAt(pages, master.symbolID, newSymbol.symbolID, q);
    RebindKeepsShape(master.symbolID, newSymbol.symbolID);
    ApplyToEntriesAt(pages, rebind, p);
    SetLayerAtElsewhere(ApplyToEntries(pages, rebind), p, OverwriteOwn(master, Positioned(newSymbol, master)), q);
  }

  /** The rebinding pass moves the instance at `q`, when it uses `from`, to `to`, and
      leaves every other layer's symbol alone. */
  lemma RebindAt(pages: seq<Page>, from: string, to: string, q: Pos)
    requires ValidPos(pages, q)
    ensures var r := ApplyToEntries(pages, Rebind(from, to));
      var l := LayerAt(pages, q);
      ValidPos(r, q) && LayerAt(r, q).symbolID == (if IsInstance(l) && l.symbolID == from then to else l.symbolID)
  {
    RebindKeepsShape(from, to);
    ApplyToEntriesAt(pages, Rebind(from, to), q);
    var top := pages[q.page].layers[q.index];
    assert Rebind(from, to)(top).layers == top.layers;
  }

  /** When no master has the name, injectSymbol.ts pushes the symbol, unchanged, onto
      the page named by `pageName`, or `Symbols`. */
  lemma InjectFirstPushes(pages: seq<Page>, newSymbol: Layer, pageName: Option<string>, freshPageID: string)
    requires forall x :: x in Flatten(pages) ==> !(IsMaster(x) && x.name == newSymbol.name)
    ensures InjectFirst(pages, newSymbol, pageName, freshPageID) == PushToPage(pages, SymbolPageName(pageName), freshPageID, newSymbol)
  {
    assert FirstIndex(Flatten(pages), MasterNamed(newSymbol.name)).None? by {
      forall m | 0 <= m < |Flatten(pages)| ensures !MasterNamed(newSymbol.name)(Flatten(pages)[m]) {
        assert Flatten(pages)[m] in Flatten(pages);
      }
    }
  }

  /** After injectSymbol.ts, allSymbolMasters finds a master with the symbol's name:
      the overwritten master or the pushed symbol. */
  lemma InjectFirstLeavesMaster(pages: seq<Page>, newSymbol: Layer, pageName: Option<string>, freshPageID: string)
    requires IsMaster(newSymbol)
    ensures FirstIndex(Flatten(InjectFirst(pages, newSymbol, pageName, freshPageID)), MasterNamed(newSymbol.name)).Some?
  {
    var r := InjectFirst(pages, newSymbol, pageName, freshPageID);
    var p: Pos;
    if FirstIndex(Flatten(pages), MasterNamed(newSymbol.name)).Some? {
      InjectFirstPlacesMaster(pages, newSymbol, pageName, freshPageID);
      p := FoundAt(pages, newSymbol.name);
    } else {
      var name := SymbolPageName(pageName);
      PushedSymbolIsLast(pages, name, freshPageID, newSymbol);
      var i := FirstIndex(r, PageNamed(name)).value;
      p := Top(i, |r[i].layers| - 1);
    }
    EntryAt(r, p);
    assert MasterNamed(newSymbol.name)(Flatten(r)[Offset(r, p)]);
  }

  /** Of two same-named symbols injected one after the other with injectSymbol.ts, the
      second is what the document holds: some layer carries its class, name, symbol id,
      children and style. */
  lemma LaterInjectionWins(pages: seq<Page>, first: Layer, second: Layer, pageName: Option<string>, freshPageID: string)
    requires IsMaster(first) && first.name == second.name
    ensures var r := InjectFirst(InjectFirst(pages, first, pageName, freshPageID), second, pageName, freshPageID);
      exists p :: ValidPos(r, p) &&
        LayerAt(r, p).kind == second.kind && LayerAt(r, p).name == second.name &&
        LayerAt(r, p).symbolID == second.symbolID && LayerAt(r, p).layers == second.layers && LayerAt(r, p).style == second.style
  {
    var once := InjectFirst(pages, first, pageName, freshPageID);
    InjectFirstLeavesMaster(pages, first, pageName, freshPageID);
    InjectFirstPlacesMaster(once, second, pageName, freshPageID);
    var p := FoundAt(once, second.name);
    var r := InjectFirst(once, second, pageName, freshPageID);
    assert ValidPos(r, p) && LayerAt(r, p).layers == second.layers;
  }

  // inject-symbol.ts

  /** Some of the first `n` layers is a symbol master with that name. */
  predicate MasterNamedBelow(layers: seq<Layer>, name: string, n: nat)
    requires n <= |layers|
  {
    exists m :: 0 <= m < n && MasterNamed(name)(layers[m])
  }

  /** Some top-level layer of the first `n` pages is a symbol master with that name. */
  predicate FoundBefore(pages: seq<Page>, name: string, n: nat)
    requires n <= |pages|
  {
    exists k :: 0 <= k < n && MasterNamedBelow(pages[k].layers, name, |pages[k].layers|)
  }

  predicate HasTopMasterNamed(pages: seq<Page>, name: string)
  {
    FoundBefore(pages, name, |pages|)
  }

  lemma MasterNamedBelowStep(layers: seq<Layer>, name: string, n: nat)
    requires n < |layers|
    ensures MasterNamedBelow(layers, name, n + 1) <==> MasterNamedBelow(layers, name, n) || MasterNamed(name)(layers[n])
  {
    if MasterNamedBelow(layers, name, n + 1) && !MasterNamed(name)(layers[n]) {
      var m :| 0 <= m < n + 1 && MasterNamed(name)(layers[m]);
      assert m < n;
    }
  }

  lemma FoundBeforeStep(pages: seq<Page>, name: string, n: nat)
    requires n < |pages|
    ensures FoundBefore(pages, name, n + 1) <==> FoundBefore(pages, name, n) || MasterNamedBelow(pages[n].layers, name, |pages[n].layers|)
  {
    if FoundBefore(pages, name, n + 1) && !MasterNamedBelow(pages[n].layers, name, |pages[n].layers|) {
      var k :| 0 <= k < n + 1 && MasterNamedBelow(pages[k].layers, name, |pages[k].layers|);
      assert k < n;
    }
  }

  /** The instance pass of inject-symbol.ts on one top-level layer: an instance of the
      master being replaced gets its overrides renamed against that master and the new
      symbol, and uses the new symbol. */
  function RebindTop(l: Layer, originalSymbolID: string, symbol: Layer, existing: Layer): (r: Layer)
    ensures r.kind == l.kind && r.name == l.name
    ensures !(IsInstance(l) && l.symbolID == originalSymbolID) ==> r == l
    ensures IsInstance(l) && l.symbolID == originalSymbolID ==>
      r == l.(symbolID := symbol.symbolID, overrideValues := r.overrideValues) &&
      |r.overrideValues| == |l.overrideValues| &&
      forall i :: 0 <= i < |l.overrideValues| ==>
        r.overrideValues[i] == l.overrideValues[i].(overrideName := NewOverrideName(l.overrideValues[i].overrideName, symbol, existing))
  {
    if IsInstance(l) && l.symbolID == originalSymbolID then
      l.(overrideValues := Map((o: OverrideValue) => o.(overrideName := NewOverrideName(o.overrideName, symbol, existing)), l.overrideValues),
         symbolID := symbol.symbolID)
    else l
  }

  function RebindTopWith(originalSymbolID: string, symbol: Layer, existing: Layer): Layer -> Layer
  {
    (l: Layer) => RebindTop(l, originalSymbolID, symbol, existing)
  }

  /** `pages` has as many pages as `pages0`; page `k`, when there is one, keeps its id,
      its name and its number of top-level layers, and its top-level layer `m`, when there
      is one, keeps its class and name. */
  predicate SameTopAt(pages: seq<Page>, pages0: seq<Page>, k: nat, m: nat)
  {
    |pages| == |pages0| &&
    (k < |pages0| ==>
      pages[k].id == pages0[k].id && pages[k].name == pages0[k].name &&
      |pages[k].layers| == |pages0[k].layers| &&
      (m < |pages0[k].layers| ==>
        pages[k].layers[m].kind == pages0[k].layers[m].kind && pages[k].layers[m].name == pages0[k].layers[m].name))
  }

  function RebindTops(pages: seq<Page>, originalSymbolID: string, symbol: Layer, existing: Layer): (r: seq<Page>)
    ensures |r| == |pages|
  {
    seq(|pages|, i requires 0 <= i < |pages| =>
      pages[i].(layers := Map(RebindTopWith(originalSymbolID, symbol, existing), pages[i].layers)))
  }

  /** Rebinding keeps page `k` but for its top-level layers, and rebinds its layer `m`. */
  lemma RebindTopsAt(pages: seq<Page>, originalSymbolID: string, symbol: Layer, existing: Layer, k: nat, m: nat)
    requires k < |pages|
    ensures var r := RebindTops(pages, originalSymbolID, symbol, existing);
      r[k] == pages[k].(layers := r[k].layers) && |r[k].layers| == |pages[k].layers| &&
      (m < |pages[k].layers| ==> r[k].layers[m] == RebindTop(pages[k].layers[m], originalSymbolID, symbol, existing))
  {
  }

  /** The nested `forEach` over every page's top-level layers. */
  method RebindInstances(doc: SketchFile, originalSymbolID: string, symbol: Layer, existing: Layer)
    modifies doc`pages
    ensures doc.pages == RebindTops(old(doc.pages), originalSymbolID, symbol, existing)
  {
    ghost var pages0 := doc.pages;
    var i := 0;
    while i < |doc.pages|
      invariant 0 <= i <= |doc.pages| == |pages0|
      invariant forall k :: 0 <= k < i ==> doc.pages[k] == pages0[k].(layers := Map(RebindTopWith(originalSymbolID, symbol, existing), pages0[k].layers))
      invariant forall k :: i <= k < |doc.pages| ==> doc.pages[k] == pages0[k]
    {
      var page := doc.pages[i];
      var layers := UpdateEach(page.layers, RebindTopWith(originalSymbolID, symbol, existing));
      doc.pages := doc.pages[i := page.(layers := layers)];
      i := i + 1;
    }
  }

  /** The loop body at top-level layer `j` of page `i`. */
  function ReplaceAt(pages: seq<Page>, symbol: Layer, i: nat, j: nat): seq<Page>
    requires IsMaster(symbol)
  {
    if i < |pages| && j < |pages[i].layers| && MasterNamed(symbol.name)(pages[i].layers[j]) then
      var existing := pages[i].layers[j];
      var rebound := RebindTops(pages, existing.symbolID, symbol, existing);
      rebound[i := rebound[i].(layers := rebound[i].layers[j := OverwriteOwn(existing, symbol)])]
    else pages
  }

  /** What one loop body does at each top-level position: the position visited, when it
      holds a same-named master, holds the overwritten master; every layer that is not
      an instance elsewhere is untouched. */
  lemma ReplaceAtFacts(pages: seq<Page>, symbol: Layer, i: nat, j: nat, k: nat, m: nat)
    requires i < |pages| && j < |pages[i].layers| && IsMaster(symbol)
    ensures var r := ReplaceAt(pages, symbol, i, j);
      SameTopAt(r, pages, k, m) &&
      (k < |pages| && m < |pages[k].layers| ==>
      (k == i && m == j && MasterNamed(symbol.name)(pages[i].layers[j]) ==> r[k].layers[m] == OverwriteOwn(pages[i].layers[j], symbol)) &&
      (!(k == i && m == j && MasterNamed(symbol.name)(pages[i].layers[j])) && !IsInstance(pages[k].layers[m]) ==> r[k].layers[m] == pages[k].layers[m]))
  {
    var existing := pages[i].layers[j];
    RebindTopsAt(pages, existing.symbolID, symbol, existing, i, j);
    if k < |pages| {
      RebindTopsAt(pages, existing.symbolID, symbol, existing, k, m);
    }
  }

  /** Top-level position (k, m) comes before (i, j) in the loop's order. */
  predicate Before(k: nat, m: nat, i: nat, j: nat)
  {
    k < i || (k == i && m < j)
  }

  predicate InLoop(pages0: seq<Page>, i: nat, j: nat)
  {
    i <= |pages0| && (i < |pages0| ==> j <= |pages0[i].layers|) && (i == |pages0| ==> j == 0)
  }

  /** The pages once the loop has visited every top-level position before (i, j). */
  function ReplacedUpTo(pages0: seq<Page>, symbol: Layer, i: nat, j: nat): seq<Page>
    requires InLoop(pages0, i, j)
    requires IsMaster(symbol)
    decreases i, j
  {
    if j > 0 then ReplaceAt(ReplacedUpTo(pages0, symbol, i, j - 1), symbol, i, j - 1)
    else if i > 0 then ReplacedUpTo(pages0, symbol, i - 1, |pages0[i - 1].layers|)
    else pages0
  }

  /** The pages after inject-symbol.ts. */
  function InjectEvery(pages: seq<Page>, symbol: Layer, freshPageID: string): seq<Page>
    requires IsMaster(symbol)
  {
    var r := ReplacedUpTo(pages, symbol, |pages|, 0);
    if HasTopMasterNamed(pages, symbol.name) then r else PushToPage(r, "Symbols", freshPageID, symbol)
  }

  /** One pass of the inner loop. */
  method ReplaceStep(doc: SketchFile, symbol: Layer, i: nat, j: nat) returns (found: bool)
    requires i < |doc.pages| && j < |doc.pages[i].layers| && IsMaster(symbol)
    modifies doc`pages
    ensures doc.pages == ReplaceAt(old(doc.pages), symbol, i, j)
    ensures found <==> MasterNamed(symbol.name)(old(doc.pages)[i].layers[j])
  {
    var existingSymbol := doc.pages[i].layers[j];
    found := existingSymbol.name == symbol.name && existingSymbol.kind == SymbolMaster;
    if found {
      var originalSymbolID := existingSymbol.symbolID;
      RebindInstances(doc, originalSymbolID, symbol, existingSymbol);
      doc.pages := doc.pages[i := doc.pages[i].(layers := doc.pages[i].layers[j := OverwriteOwn(existingSymbol, symbol)])];
    }
  }

  /** The inner step in terms of the pages before the loop. */
  method ReplaceNext(doc: SketchFile, symbol: Layer, i: nat, j: nat, ghost pages0: seq<Page>) returns (found: bool)
    requires IsMaster(symbol) && i < |pages0| && j < |pages0[i].layers|
    requires doc.pages == ReplacedUpTo(pages0, symbol, i, j)
    modifies doc`pages
    ensures doc.pages == ReplacedUpTo(pages0, symbol, i, j + 1)
    ensures found <==> MasterNamed(symbol.name)(pages0[i].layers[j])
  {
    ReplacedUpToStep(pages0, symbol, i, j);
    found := ReplaceStep(doc, symbol, i, j);
  }

  /** The inner loop, over the top-level layers of page `i`. */
  method ReplaceInPage(doc: SketchFile, symbol: Layer, i: nat, ghost pages0: seq<Page>) returns (found: bool)
    requires IsMaster(symbol) && i < |pages0| && doc.pages == ReplacedUpTo(pages0, symbol, i, 0)
    modifies doc`pages
    ensures doc.pages == ReplacedUpTo(pages0, symbol, i + 1, 0)
    ensures found <==> MasterNamedBelow(pages0[i].layers, symbol.name, |pages0[i].layers|)
  {
    ReplacedUpToShape(pages0, symbol, i, 0, i, 0);
    found := false;
    var layerCount := |doc.pages[i].layers|;
    var j := 0;
    while j < layerCount
      invariant layerCount == |pages0[i].layers|
      invariant 0 <= j <= layerCount
      invariant doc.pages == ReplacedUpTo(pages0, symbol, i, j)
      invariant found <==> MasterNamedBelow(pages0[i].layers, symbol.name, j)
      decreases |pages0[i].layers| - j
    {
      MasterNamedBelowStep(pages0[i].layers, symbol.name, j);
      var foundHere := ReplaceNext(doc, symbol, i, j, pages0);
      if foundHere {
        found := true;
      }
      j := j + 1;
    }
    assert ReplacedUpTo(pages0, symbol, i + 1, 0) == ReplacedUpTo(pages0, symbol, i, |pages0[i].layers|);
  }

  /** One more inner step, and the layer it visits has the class and name it had. */
  lemma ReplacedUpToStep(pages0: seq<Page>, symbol: Layer, i: nat, j: nat)
    requires IsMaster(symbol) && i < |pages0| && j < |pages0[i].layers|
    ensures var prev := ReplacedUpTo(pages0, symbol, i, j);
      i < |prev| && j < |prev[i].layers| &&
      ReplacedUpTo(pages0, symbol, i, j + 1) == ReplaceAt(prev, symbol, i, j) &&
      (MasterNamed(symbol.name)(prev[i].layers[j]) <==> MasterNamed(symbol.name)(pages0[i].layers[j]))
  {
    ReplacedUpToShape(pages0, symbol, i, j, i, j);
  }

  /** The loop keeps the number of pages, each page's id, name and number of top-level
      layers, and each top-level layer's class and name. */
  lemma {:induction false} ReplacedUpToShape(pages0: seq<Page>, symbol: Layer, i: nat, j: nat, k: nat, m: nat)
    requires InLoop(pages0, i, j) && IsMaster(symbol)
    ensures SameTopAt(ReplacedUpTo(pages0, symbol, i, j), pages0, k, m)
    decreases i, j
  {
    if j > 0 {
      var prev := ReplacedUpTo(pages0, symbol, i, j - 1);
      ReplacedUpToShape(pages0, symbol, i, j - 1, k, m);
      ReplacedUpToShape(pages0, symbol, i, j - 1, i, j - 1);
      ReplaceAtKeepsShape(prev, pages0, symbol, i, j - 1, k, m);
    } else if i > 0 {
      ReplacedUpToShape(pages0, symbol, i - 1, |pages0[i - 1].layers|, k, m);
    }
  }

  /** One replacement keeps whatever shape the pages shared with the originals. */
  lemma ReplaceAtKeepsShape(prev: seq<Page>, pages0: seq<Page>, symbol: Layer, i: nat, j: nat, k: nat, m: nat)
    requires i < |prev| && j < |prev[i].layers| && IsMaster(symbol)
    requires SameTopAt(prev, pages0, k, m)
    ensures SameTopAt(ReplaceAt(prev, symbol, i, j), pages0, k, m)
  {
    ReplaceAtFacts(prev, symbol, i, j, k, m);
  }

  /** inject-symbol.ts. */
  method InjectSymbolEverywhere(symbol: Layer, doc: SketchFile, freshPageID: string) returns (r: SketchFile)
    requires IsMaster(symbol)
    modifies doc`pages
    ensures r == doc
    ensures doc.pages == InjectEvery(old(doc.pages), symbol, freshPageID)
  {
    ghost var pages0 := doc.pages;
    var foundSymbol := false;
    var pageCount := |doc.pages|;
    var i := 0;
    while i < pageCount
      invariant 0 <= i <= pageCount == |pages0|
      invariant doc.pages == ReplacedUpTo(pages0, symbol, i, 0)
      invariant foundSymbol <==> FoundBefore(pages0, symbol.name, i)
    {
      FoundBeforeStep(pages0, symbol.name, i);
      var found := ReplaceInPage(doc, symbol, i, pages0);
      if found {
        foundSymbol := true;
      }
      i := i + 1;
    }
    if !foundSymbol {
      AddToSymbolPage(doc, "Symbols", freshPageID, symbol);
    }
    r := doc;
  }

  /** The loop leaves untouched every top-level layer that is neither an instance nor a
      same-named master it has already visited. */
  lemma {:induction false} ReplacedUpToKeeps(pages0: seq<Page>, symbol: Layer, i: nat, j: nat, k: nat, m: nat)
    requires InLoop(pages0, i, j) && IsMaster(symbol)
    requires k < |pages0| && m < |pages0[k].layers|
    requires !IsInstance(pages0[k].layers[m]) && !(MasterNamed(symbol.name)(pages0[k].layers[m]) && Before(k, m, i, j))
    ensures var r := ReplacedUpTo(pages0, symbol, i, j);
      k < |r| && m < |r[k].layers| && r[k].layers[m] == pages0[k].layers[m]
    decreases i, j, 1
  {
    if j > 0 {
      KeepsInPage(pages0, symbol, i, j, k, m);
    } else if i > 0 {
      assert Before(k, m, i, j) == Before(k, m, i - 1, |pages0[i - 1].layers|);
      ReplacedUpToKeeps(pages0, symbol, i - 1, |pages0[i - 1].layers|, k, m);
    }
  }

  /** `ReplacedUpToKeeps` for a step inside page `i`. */
  lemma {:induction false} KeepsInPage(pages0: seq<Page>, symbol: Layer, i: nat, j: nat, k: nat, m: nat)
    requires InLoop(pages0, i, j) && IsMaster(symbol) && j > 0
    requires k < |pages0| && m < |pages0[k].layers|
    requires !IsInstance(pages0[k].layers[m]) && !(MasterNamed(symbol.name)(pages0[k].layers[m]) && Before(k, m, i, j))
    ensures var r := ReplacedUpTo(pages0, symbol, i, j);
      k < |r| && m < |r[k].layers| && r[k].layers[m] == pages0[k].layers[m]
    decreases i, j, 0
  {
    var prev := ReplacedUpTo(pages0, symbol, i, j - 1);
    ReplacedUpToShape(pages0, symbol, i, j - 1, i, j - 1);
    ReplaceAtFacts(prev, symbol, i, j - 1, k, m);
    ReplacedUpToKeeps(pages0, symbol, i, j - 1, k, m);
    assert ReplacedUpTo(pages0, symbol, i, j) == ReplaceAt(prev, symbol, i, j - 1);
  }

  /** Every same-named top-level master the loop has visited holds the overwritten
      master. */
  lemma {:induction false} ReplacedUpToOverwrites(pages0: seq<Page>, symbol: Layer, i: nat, j: nat, k: nat, m: nat)
    requires InLoop(pages0, i, j) && IsMaster(symbol)
    requires k < |pages0| && m < |pages0[k].layers|
    requires MasterNamed(symbol.name)(pages0[k].layers[m]) && Before(k, m, i, j)
    ensures var r := ReplacedUpTo(pages0, symbol, i, j);
      k < |r| && m < |r[k].layers| && r[k].layers[m] == OverwriteOwn(pages0[k].layers[m], symbol)
    decreases i, j, 1
  {
    if j > 0 {
      OverwritesInPage(pages0, symbol, i, j, k, m);
    } else {
      assert Before(k, m, i, j) == Before(k, m, i - 1, |pages0[i - 1].layers|);
      ReplacedUpToOverwrites(pages0, symbol, i - 1, |pages0[i - 1].layers|, k, m);
    }
  }

  /** `ReplacedUpToOverwrites` for a step inside page `i`. */
  lemma {:induction false} OverwritesInPage(pages0: seq<Page>, symbol: Layer, i: nat, j: nat, k: nat, m: nat)
    requires InLoop(pages0, i, j) && IsMaster(symbol) && j > 0
    requires k < |pages0| && m < |pages0[k].layers|
    requires MasterNamed(symbol.name)(pages0[k].layers[m]) && Before(k, m, i, j)
    ensures var r := ReplacedUpTo(pages0, symbol, i, j);
      k < |r| && m < |r[k].layers| && r[k].layers[m] == OverwriteOwn(pages0[k].layers[m], symbol)
    decreases i, j, 0
  {
    var prev := ReplacedUpTo(pages0, symbol, i, j - 1);
    ReplacedUpToShape(pages0, symbol, i, j - 1, i, j - 1);
    ReplaceAtFacts(prev, symbol, i, j - 1, k, m);
    if k == i && m == j - 1 {
      ReplacedUpToKeeps(pages0, symbol, i, j - 1, k, m);
      assert MasterNamed(symbol.name)(prev[i].layers[j - 1]);
    } else {
      ReplacedUpToOverwrites(pages0, symbol, i, j - 1, k, m);
      assert !IsInstance(prev[k].layers[m]);
    }
    assert ReplacedUpTo(pages0, symbol, i, j) == ReplaceAt(prev, symbol, i, j - 1);
  }



  /** inject-symbol.ts overwrites every same-named top-level master and leaves every
      other top-level layer that is not an instance as it was. */
  lemma InjectEveryReplacesAll(pages: seq<Page>, symbol: Layer, freshPageID: string, k: nat, m: nat)
    requires IsMaster(symbol) && HasTopMasterNamed(pages, symbol.name)
    requires k < |pages| && m < |pages[k].layers|
    ensures var r := InjectEvery(pages, symbol, freshPageID);
      SameTopAt(r, pages, k, m) &&
      (MasterNamed(symbol.name)(pages[k].layers[m]) ==> r[k].layers[m] == OverwriteOwn(pages[k].layers[m], symbol)) &&
      (!IsInstance(pages[k].layers[m]) && !MasterNamed(symbol.name)(pages[k].layers[m]) ==> r[k].layers[m] == pages[k].layers[m])
  {
    ReplacedUpToShape(pages, symbol, |pages|, 0, k, m);
    var x := pages[k].layers[m];
    if MasterNamed(symbol.name)(x) {
      ReplacedUpToOverwrites(pages, symbol, |pages|, 0, k, m);
    } else if !IsInstance(x) {
      ReplacedUpToKeeps(pages, symbol, |pages|, 0, k, m);
    }
  }

  /** Top-level layer `q` of page `p` is a symbol master with that name. */
  predicate IsTopMasterAt(pages: seq<Page>, name: string, p: nat, q: nat)
  {
    p < |pages| && q < |pages[p].layers| && MasterNamed(name)(pages[p].layers[q])
  }

  /** No same-named top-level master before (i, j) has the symbol id `sid`. */
  ghost predicate NoBoundMasterBefore(pages: seq<Page>, name: string, sid: string, i: nat, j: nat)
  {
    forall p: nat, q: nat :: IsTopMasterAt(pages, name, p, q) && Before(p, q, i, j) ==> pages[p].layers[q].symbolID != sid
  }

  /** The same-named top-level master at (p, q) is the only one with the symbol id `sid`. */
  ghost predicate OnlyBoundMaster(pages: seq<Page>, name: string, sid: string, p: nat, q: nat)
  {
    forall p': nat, q': nat :: IsTopMasterAt(pages, name, p', q') && pages[p'].layers[q'].symbolID == sid ==> p' == p && q' == q
  }

  /** No same-named top-level master has the symbol id `sid`. */
  ghost predicate NoMasterBound(pages: seq<Page>, name: string, sid: string)
  {
    forall p: nat, q: nat :: IsTopMasterAt(pages, name, p, q) ==> pages[p].layers[q].symbolID != sid
  }

  /** One loop body seen from a top-level instance: it is rebound against the master
      visited when that is a same-named master, and left alone otherwise. */
  lemma ReplaceAtInstance(pages: seq<Page>, symbol: Layer, i: nat, j: nat, k: nat, m: nat)
    requires i < |pages| && j < |pages[i].layers| && IsMaster(symbol)
    requires k < |pages| && m < |pages[k].layers| && IsInstance(pages[k].layers[m])
    ensures var r := ReplaceAt(pages, symbol, i, j);
      k < |r| && m < |r[k].layers| &&
      r[k].layers[m] == if MasterNamed(symbol.name)(pages[i].layers[j])
                        then RebindTop(pages[k].layers[m], pages[i].layers[j].symbolID, symbol, pages[i].layers[j])
                        else pages[k].layers[m]
  {
    var existing := pages[i].layers[j];
    RebindTopsAt(pages, existing.symbolID, symbol, existing, k, m);
    RebindTopsAt(pages, existing.symbolID, symbol, existing, i, j);
  }

  /** A top-level instance is left alone by the loop as long as no same-named master it
      has visited is the one the instance uses. */
  lemma {:induction false} ReplacedUpToLeavesInstance(pages0: seq<Page>, symbol: Layer, i: nat, j: nat, k: nat, m: nat)
    requires InLoop(pages0, i, j) && IsMaster(symbol)
    requires k < |pages0| && m < |pages0[k].layers| && IsInstance(pages0[k].layers[m])
    requires NoBoundMasterBefore(pages0, symbol.name, pages0[k].layers[m].symbolID, i, j)
    ensures var r := ReplacedUpTo(pages0, symbol, i, j);
      k < |r| && m < |r[k].layers| && r[k].layers[m] == pages0[k].layers[m]
    decreases i, j, 1
  {
    if j > 0 {
      LeavesInstanceInPage(pages0, symbol, i, j, k, m);
    } else if i > 0 {
      var n := |pages0[i - 1].layers|;
      var sid := pages0[k].layers[m].symbolID;
      assert NoBoundMasterBefore(pages0, symbol.name, sid, i - 1, n) by {
        forall p: nat, q: nat | IsTopMasterAt(pages0, symbol.name, p, q) && Before(p, q, i - 1, n)
          ensures pages0[p].layers[q].symbolID != sid
        {
          assert Before(p, q, i, j);
        }
      }
      ReplacedUpToLeavesInstance(pages0, symbol, i - 1, n, k, m);
    }
  }

  /** `ReplacedUpToLeavesInstance` for a step inside page `i`. */
  lemma {:induction false} LeavesInstanceInPage(pages0: seq<Page>, symbol: Layer, i: nat, j: nat, k: nat, m: nat)
    requires InLoop(pages0, i, j) && IsMaster(symbol) && j > 0
    requires k < |pages0| && m < |pages0[k].layers| && IsInstance(pages0[k].layers[m])
    requires NoBoundMasterBefore(pages0, symbol.name, pages0[k].layers[m].symbolID, i, j)
    ensures var r := ReplacedUpTo(pages0, symbol, i, j);
      k < |r| && m < |r[k].layers| && r[k].layers[m] == pages0[k].layers[m]
    decreases i, j, 0
  {
    var x := pages0[k].layers[m];
    var prev := ReplacedUpTo(pages0, symbol, i, j - 1);
    assert NoBoundMasterBefore(pages0, symbol.name, x.symbolID, i, j - 1) by {
      forall p: nat, q: nat | IsTopMasterAt(pages0, symbol.name, p, q) && Before(p, q, i, j - 1)
        ensures pages0[p].layers[q].symbolID != x.symbolID
      {
        assert Before(p, q, i, j);
      }
    }
    ReplacedUpToLeavesInstance(pages0, symbol, i, j - 1, k, m);
    ReplacedUpToStep(pages0, symbol, i, j - 1);
    ReplaceAtInstance(prev, symbol, i, j - 1, k, m);
    if MasterNamed(symbol.name)(pages0[i].layers[j - 1]) {
      ReplacedUpToKeeps(pages0, symbol, i, j - 1, i, j - 1);
      assert IsTopMasterAt(pages0, symbol.name, i, j - 1) && Before(i, j - 1, i, j);
      assert pages0[i].layers[j - 1].symbolID != x.symbolID;
    }
  }

  /** A top-level instance of the one same-named master at (p, q) is rebound against it
      once the loop has visited it, and no later master rebinds it again when none of
      them has the new symbol's id. */
  lemma {:induction false} ReplacedUpToRebindsInstance(pages0: seq<Page>, symbol: Layer, i: nat, j: nat, k: nat, m: nat, p: nat, q: nat)
    requires InLoop(pages0, i, j) && IsMaster(symbol)
    requires k < |pages0| && m < |pages0[k].layers| && IsInstance(pages0[k].layers[m])
    requires IsTopMasterAt(pages0, symbol.name, p, q) && Before(p, q, i, j)
    requires pages0[p].layers[q].symbolID == pages0[k].layers[m].symbolID
    requires OnlyBoundMaster(pages0, symbol.name, pages0[k].layers[m].symbolID, p, q)
    requires NoMasterBound(pages0, symbol.name, symbol.symbolID)
    ensures var r := ReplacedUpTo(pages0, symbol, i, j);
      k < |r| && m < |r[k].layers| &&
      r[k].layers[m] == RebindTop(pages0[k].layers[m], pages0[p].layers[q].symbolID, symbol, pages0[p].layers[q])
    decreases i, j, 1
  {
    if j > 0 {
      RebindsInstanceInPage(pages0, symbol, i, j, k, m, p, q);
    } else {
      ReplacedUpToRebindsInstance(pages0, symbol, i - 1, |pages0[i - 1].layers|, k, m, p, q);
    }
  }

  /** `ReplacedUpToRebindsInstance` for a step inside page `i`. */
  lemma {:induction false} RebindsInstanceInPage(pages0: seq<Page>, symbol: Layer, i: nat, j: nat, k: nat, m: nat, p: nat, q: nat)
    requires InLoop(pages0, i, j) && IsMaster(symbol) && j > 0
    requires k < |pages0| && m < |pages0[k].layers| && IsInstance(pages0[k].layers[m])
    requires IsTopMasterAt(pages0, symbol.name, p, q) && Before(p, q, i, j)
    requires pages0[p].layers[q].symbolID == pages0[k].layers[m].symbolID
    requires OnlyBoundMaster(pages0, symbol.name, pages0[k].layers[m].symbolID, p, q)
    requires NoMasterBound(pages0, symbol.name, symbol.symbolID)
    ensures var r := ReplacedUpTo(pages0, symbol, i, j);
      k < |r| && m < |r[k].layers| &&
      r[k].layers[m] == RebindTop(pages0[k].layers[m], pages0[p].layers[q].symbolID, symbol, pages0[p].layers[q])
    decreases i, j, 0
  {
    var x := pages0[k].layers[m];
    var prev := ReplacedUpTo(pages0, symbol, i, j - 1);
    ReplacedUpToStep(pages0, symbol, i, j - 1);
    ReplacedUpToShape(pages0, symbol, i, j - 1, k, m);
    ReplaceAtInstance(prev, symbol, i, j - 1, k, m);
    var visited := pages0[i].layers[j - 1];
    if MasterNamed(symbol.name)(visited) {
      ReplacedUpToKeeps(pages0, symbol, i, j - 1, i, j - 1);
      assert IsTopMasterAt(pages0, symbol.name, i, j - 1);
    }
    if p == i && q == j - 1 {
      assert NoBoundMasterBefore(pages0, symbol.name, x.symbolID, i, j - 1) by {
        forall p': nat, q': nat | IsTopMasterAt(pages0, symbol.name, p', q') && Before(p', q', i, j - 1)
          ensures pages0[p'].layers[q'].symbolID != x.symbolID
        {
          assert (p', q') != (p, q);
        }
      }
      ReplacedUpToLeavesInstance(pages0, symbol, i, j - 1, k, m);
    } else {
      ReplacedUpToRebindsInstance(pages0, symbol, i, j - 1, k, m, p, q);
      if MasterNamed(symbol.name)(visited) {
        assert visited.symbolID != symbol.symbolID;
      }
    }
  }

  /** inject-symbol.ts on a top-level instance: it is left alone when no same-named
      top-level master is the one it uses; when exactly one is, it is rebound against
      that master (overrides renamed, new symbol id), provided no same-named master
      already has the new symbol's id. */
  lemma InjectEveryRebinds(pages: seq<Page>, symbol: Layer, freshPageID: string, k: nat, m: nat)
    requires IsMaster(symbol)
    requires k < |pages| && m < |pages[k].layers| && IsInstance(pages[k].layers[m])
    ensures var r := InjectEvery(pages, symbol, freshPageID);
      k < |r| && m < |r[k].layers| &&
      (NoMasterBound(pages, symbol.name, pages[k].layers[m].symbolID) ==> r[k].layers[m] == pages[k].layers[m]) &&
      (forall p: nat, q: nat ::
         IsTopMasterAt(pages, symbol.name, p, q) && pages[p].layers[q].symbolID == pages[k].layers[m].symbolID &&
         OnlyBoundMaster(pages, symbol.name, pages[k].layers[m].symbolID, p, q) &&
         NoMasterBound(pages, symbol.name, symbol.symbolID) ==>
         r[k].layers[m] == RebindTop(pages[k].layers[m], pages[p].layers[q].symbolID, symbol, pages[p].layers[q]))
  {
    var x := pages[k].layers[m];
    ReplacedUpToShape(pages, symbol, |pages|, 0, k, m);
    if HasTopMasterNamed(pages, symbol.name) {
      if NoMasterBound(pages, symbol.name, x.symbolID) {
        ReplacedUpToLeavesInstance(pages, symbol, |pages|, 0, k, m);
      }
      forall p: nat, q: nat | IsTopMasterAt(pages, symbol.name, p, q) && pages[p].layers[q].symbolID == x.symbolID &&
                              OnlyBoundMaster(pages, symbol.name, x.symbolID, p, q) && NoMasterBound(pages, symbol.name, symbol.symbolID)
        ensures ReplacedUpTo(pages, symbol, |pages|, 0)[k].layers[m] == RebindTop(x, pages[p].layers[q].symbolID, symbol, pages[p].layers[q])
      {
        ReplacedUpToRebindsInstance(pages, symbol, |pages|, 0, k, m, p, q);
      }
    } else {
      NoMatchNoChange(pages, symbol, |pages|, 0);
      BoundMasterFound(pages, symbol.name, x.symbolID);
    }
  }

  /** A same-named top-level master bound to `sid` is found by the loop's flag. */
  lemma BoundMasterFound(pages: seq<Page>, name: string, sid: string)
    ensures HasTopMasterNamed(pages, name) || NoMasterBound(pages, name, sid)
  {
    if !NoMasterBound(pages, name, sid) {
      var p: nat, q: nat :| IsTopMasterAt(pages, name, p, q) && pages[p].layers[q].symbolID == sid;
      assert MasterNamedBelow(pages[p].layers, name, |pages[p].layers|);
    }
  }

  /** When no top-level master has the name, inject-symbol.ts changes nothing but the
      `Symbols` page. */
  lemma InjectEveryPushes(pages: seq<Page>, symbol: Layer, freshPageID: string)
    requires IsMaster(symbol) && !HasTopMasterNamed(pages, symbol.name)
    ensures InjectEvery(pages, symbol, freshPageID) == PushToPage(pages, "Symbols", freshPageID, symbol)
  {
    NoMatchNoChange(pages, symbol, |pages|, 0);
  }

  lemma {:induction false} NoMatchNoChange(pages0: seq<Page>, symbol: Layer, i: nat, j: nat)
    requires InLoop(pages0, i, j) && IsMaster(symbol)
    requires !HasTopMasterNamed(pages0, symbol.name)
    ensures ReplacedUpTo(pages0, symbol, i, j) == pages0
    decreases i, j
  {
    if j > 0 {
      NoMatchNoChange(pages0, symbol, i, j - 1);
      assert !MasterNamedBelow(pages0[i].layers, symbol.name, |pages0[i].layers|);
      assert !MasterNamed(symbol.name)(pages0[i].layers[j - 1]);
    } else if i > 0 {
      NoMatchNoChange(pages0, symbol, i - 1, |pages0[i - 1].layers|);
    }
  }

  // The injectSymbol of index.ts

  /** One top-level layer after the loop: a same-named master takes the symbol's values
      for the keys it has. */
  function ReplaceShared(l: Layer, symbol: Layer): (r: Layer)
    ensures MasterNamed(symbol.name)(l) ==> r == OverwriteShared(l, symbol)
    ensures !MasterNamed(symbol.name)(l) ==> r == l
  {
    if l.name == symbol.name && IsMaster(l) then OverwriteShared(l, symbol) else l
  }

  function ReplaceSharedWith(symbol: Layer): Layer -> Layer
  {
    (l: Layer) => ReplaceShared(l, symbol)
  }

  function ReplaceSharedOnPage(symbol: Layer): Page -> Page
  {
    (page: Page) => page.(layers := Map(ReplaceSharedWith(symbol), page.layers))
  }

  /** The symbol with the frame origin the placement of index.ts computes from the
      layers already on the symbols page (floating-point arithmetic not modelled:
      `place` is a parameter). */
  function Placed(symbol: Layer, place: seq<Layer> -> (Coord, Coord), pageLayers: seq<Layer>): Layer
  {
    var (x, y) := place(pageLayers);
    symbol.(frame := symbol.frame.(x := x, y := y))
  }

  /** The pages after the injectSymbol of index.ts. */
  function InjectShared(pages: seq<Page>, symbol: Layer, freshPageID: string, place: seq<Layer> -> (Coord, Coord)): (r: seq<Page>)
    ensures HasTopMasterNamed(pages, symbol.name) ==>
      |r| == |pages| &&
      forall i :: 0 <= i < |pages| ==> r[i] == pages[i].(layers := Map(ReplaceSharedWith(symbol), pages[i].layers))
    ensures !HasTopMasterNamed(pages, symbol.name) ==>
      r == PushToPage(pages, "Symbols", freshPageID, Placed(symbol, place, PageLayers(pages, "Symbols")))
  {
    if HasTopMasterNamed(pages, symbol.name) then
      Map(ReplaceSharedOnPage(symbol), pages)
    else
      PushToPage(pages, "Symbols", freshPageID, Placed(symbol, place, PageLayers(pages, "Symbols")))
  }

  /** The inner loop over one page's top-level layers. */
  method ReplaceInTops(layers: seq<Layer>, symbol: Layer) returns (r: seq<Layer>, found: bool)
    ensures r == Map(ReplaceSharedWith(symbol), layers)
    ensures found <==> MasterNamedBelow(layers, symbol.name, |layers|)
  {
    r := layers;
    found := false;
    var j := 0;
    while j < |r|
      invariant 0 <= j <= |r| == |layers|
      invariant forall m :: 0 <= m < j ==> r[m] == ReplaceSharedWith(symbol)(layers[m])
      invariant forall m :: j <= m < |r| ==> r[m] == layers[m]
      invariant found <==> MasterNamedBelow(layers, symbol.name, j)
    {
      MasterNamedBelowStep(layers, symbol.name, j);
      var layer := r[j];
      if layer.name == symbol.name && layer.kind == SymbolMaster {
        r := r[j := OverwriteShared(layer, symbol)];
        found := true;
      }
      j := j + 1;
    }
  }

  /** The injectSymbol of index.ts. */
  method InjectSymbolShared(symbol: Layer, doc: SketchFile, freshPageID: string, place: seq<Layer> -> (Coord, Coord)) returns (r: SketchFile)
    modifies doc`pages
    ensures r == doc
    ensures doc.pages == InjectShared(old(doc.pages), symbol, freshPageID, place)
  {
    ghost var pages0 := doc.pages;
    var foundSymbol := false;
    var i := 0;
    while i < |doc.pages|
      invariant 0 <= i <= |doc.pages| == |pages0|
      invariant forall k :: 0 <= k < i ==> doc.pages[k] == ReplaceSharedOnPage(symbol)(pages0[k])
      invariant forall k :: i <= k < |doc.pages| ==> doc.pages[k] == pages0[k]
      invariant foundSymbol <==> FoundBefore(pages0, symbol.name, i)
    {
      FoundBeforeStep(pages0, symbol.name, i);
      var layers, found := ReplaceInTops(doc.pages[i].layers, symbol);
      if found {
        foundSymbol := true;
      }
      doc.pages := doc.pages[i := doc.pages[i].(layers := layers)];
      i := i + 1;
    }
    assert doc.pages == Map(ReplaceSharedOnPage(symbol), pages0);
    if !foundSymbol {
      NoMatchSharedNoChange(pages0, symbol);
      var symbolPage := FirstIndex(doc.pages, PageNamed("Symbols"));
      var pageLayers := if symbolPage.Some? then doc.pages[symbolPage.value].layers else [];
      var placed := Placed(symbol, place, pageLayers);
      AddToSymbolPage(doc, "Symbols", freshPageID, placed);
    }
    r := doc;
  }

  lemma NoMatchSharedNoChange(pages: seq<Page>, symbol: Layer)
    requires !HasTopMasterNamed(pages, symbol.name)
    ensures Map(ReplaceSharedOnPage(symbol), pages) == pages
  {
    forall k | 0 <= k < |pages| ensures ReplaceSharedOnPage(symbol)(pages[k]) == pages[k] {
      forall m | 0 <= m < |pages[k].layers| ensures ReplaceShared(pages[k].layers[m], symbol) == pages[k].layers[m] {
        assert !MasterNamedBelow(pages[k].layers, symbol.name, |pages[k].layers|);
        assert !MasterNamed(symbol.name)(pages[k].layers[m]);
      }
      assert Map(ReplaceSharedWith(symbol), pages[k].layers) == pages[k].layers;
    }
  }

  /** One top-level layer overwritten twice is overwritten once. */
  lemma ReplaceSharedIdempotent(x: Layer, symbol: Layer)
    requires IsMaster(symbol)
    ensures ReplaceShared(ReplaceShared(x, symbol), symbol) == ReplaceShared(x, symbol)
  {
    if MasterNamed(symbol.name)(x) {
      OverwriteSharedIdempotent(x, symbol);
    }
  }

  lemma ReplaceSharedOnPageIdempotent(page: Page, symbol: Layer)
    requires IsMaster(symbol)
    ensures ReplaceSharedOnPage(symbol)(ReplaceSharedOnPage(symbol)(page)) == ReplaceSharedOnPage(symbol)(page)
  {
    var once := ReplaceSharedOnPage(symbol)(page);
    forall m | 0 <= m < |page.layers| ensures ReplaceShared(once.layers[m], symbol) == once.layers[m] {
      ReplaceSharedIdempotent(page.layers[m], symbol);
    }
  }

  /** The overwrite keeps a same-named top-level master where it was. */
  lemma ReplaceSharedKeepsTopMaster(pages: seq<Page>, symbol: Layer)
    requires HasTopMasterNamed(pages, symbol.name) && IsMaster(symbol)
    ensures HasTopMasterNamed(Map(ReplaceSharedOnPage(symbol), pages), symbol.name)
  {
    var once := Map(ReplaceSharedOnPage(symbol), pages);
    var i :| 0 <= i < |pages| && MasterNamedBelow(pages[i].layers, symbol.name, |pages[i].layers|);
    var j :| 0 <= j < |pages[i].layers| && MasterNamed(symbol.name)(pages[i].layers[j]);
    assert once[i].layers[j] == OverwriteShared(pages[i].layers[j], symbol);
    assert MasterNamedBelow(once[i].layers, symbol.name, |once[i].layers|);
  }

  /** Injecting, with index.ts, a symbol whose master is already there a second time
      changes nothing more. */
  lemma InjectSharedIdempotent(pages: seq<Page>, symbol: Layer, freshPageID: string, place: seq<Layer> -> (Coord, Coord))
    requires HasTopMasterNamed(pages, symbol.name) && IsMaster(symbol)
    ensures InjectShared(InjectShared(pages, symbol, freshPageID, place), symbol, freshPageID, place) ==
            InjectShared(pages, symbol, freshPageID, place)
  {
    var once := Map(ReplaceSharedOnPage(symbol), pages);
    assert InjectShared(pages, symbol, freshPageID, place) == once;
    ReplaceSharedKeepsTopMaster(pages, symbol);
    assert InjectShared(once, symbol, freshPageID, place) == Map(ReplaceSharedOnPage(symbol), once);
    forall k | 0 <= k < |pages| ensures ReplaceSharedOnPage(symbol)(once[k]) == once[k] {
      ReplaceSharedOnPageIdempotent(pages[k], symbol);
    }
  }
}
