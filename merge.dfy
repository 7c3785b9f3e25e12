/** mergeDocuments: the sequence of passes that builds the output document from a source
    document and a theme document, in its two versions (mergeDocuments.ts, and the
    older index.ts). */
module Merge {
  import opened Seqs
  import opened Sketch
  import opened Walker
  import opened Lookups
  import opened Collections
  import opened Recolor
  import opened Restyle
  import opened Dynamic
  import opened Overrides
  import opened Inject

  // A pass over allLayers whose body may throw.

  /** The body runs without throwing on a top-level layer and then on each of its
      children, as the pass reaches them. */
  predicate TopVisitSafe(top: Layer, f: Layer -> Layer, safe: Layer -> bool)
  {
    safe(top) && (IsContainer(top.kind) ==> forall c :: 0 <= c < |f(top).layers| ==> safe(f(top).layers[c]))
  }

  predicate EntriesSafe(pages: seq<Page>, f: Layer -> Layer, safe: Layer -> bool)
  {
    forall i, j :: 0 <= i < |pages| && 0 <= j < |pages[i].layers| ==> TopVisitSafe(pages[i].layers[j], f, safe)
  }

  /** `allLayers(document).forEach(layer => body(layer))` where `body` throws on a layer
      that `safe` rejects: `false` as soon as it would. */
  method VisitEntriesChecked(doc: SketchFile, f: Layer -> Layer, safe: Layer -> bool) returns (ok: bool)
    modifies doc`pages
    ensures ok <==> EntriesSafe(old(doc.pages), f, safe)
    ensures ok ==> doc.pages == ApplyToEntries(old(doc.pages), f)
  {
    ghost var pages0 := doc.pages;
    var i := 0;
    while i < |doc.pages|
      invariant 0 <= i <= |doc.pages| == |pages0|
      invariant forall k :: 0 <= k < i ==> doc.pages[k] == ApplyToEntries(pages0, f)[k]
      invariant forall k :: i <= k < |doc.pages| ==> doc.pages[k] == pages0[k]
      invariant forall k, j :: 0 <= k < i && 0 <= j < |pages0[k].layers| ==> TopVisitSafe(pages0[k].layers[j], f, safe)
    {
      var page := doc.pages[i];
      var tops, pageOk := VisitTopsChecked(page.layers, f, safe);
      if !pageOk {
        return false;
      }
      doc.pages := doc.pages[i := page.(layers := tops)];
      i := i + 1;
    }
    ok := true;
  }

  method VisitTopsChecked(tops: seq<Layer>, f: Layer -> Layer, safe: Layer -> bool) returns (r: seq<Layer>, ok: bool)
    ensures ok <==> forall j :: 0 <= j < |tops| ==> TopVisitSafe(tops[j], f, safe)
    ensures ok ==> r == VisitTops(tops, f)
  {
    r := tops;
    var j := 0;
    while j < |r|
      invariant 0 <= j <= |r| == |tops|
      invariant forall k :: 0 <= k < j ==> r[k] == VisitTop(tops[k], f) && TopVisitSafe(tops[k], f, safe)
      invariant forall k :: j <= k < |r| ==> r[k] == tops[k]
    {
      var layer := VisitTopChecked(r[j], f, safe);
      if layer.None? {
        return r, false;
      }
      r := r[j := layer.value];
      j := j + 1;
    }
    ok := true;
  }

  method VisitTopChecked(top: Layer, f: Layer -> Layer, safe: Layer -> bool) returns (r: Option<Layer>)
    ensures r.Some? <==> TopVisitSafe(top, f, safe)
    ensures r.Some? ==> r.value == VisitTop(top, f)
  {
    if !safe(top) {
      return None;
    }
    var layer := f(top);
    if IsContainer(top.kind) {
      var children := layer.layers;
      var c := 0;
      while c < |children|
        invariant 0 <= c <= |children| == |layer.layers|
        invariant forall k :: 0 <= k < c ==> children[k] == f(layer.layers[k]) && safe(layer.layers[k])
        invariant forall k :: c <= k < |children| ==> children[k] == layer.layers[k]
      {
        if !safe(children[c]) {
          return None;
        }
        children := children[c := f(children[c])];
        c := c + 1;
      }
      layer := layer.(layers := children);
    }
    r := Some(layer);
  }

  // The colour passes over the merged shared styles (mergeDocuments.ts).

  /** `x.color = {...swatch.value, swatchID}` on every fill, whatever its type. */
  function RecolorFill(f: Fill, swatches: seq<Swatch>): (r: Fill)
    ensures f.fillType == 0 ==> r == ReconcileFill(f, swatches)
    ensures r == ReconcileFill(f.(fillType := 0), swatches).(fillType := f.fillType)
  {
    f.(color := ReconcileColor(f.color, swatches))
  }

  /** The layer-style colour pass on one style: every fill, border, shadow and inner
      shadow is reconciled with its swatch; nothing else changes. */
  function RecolorStyle(s: Style, swatches: seq<Swatch>): (r: Style)
    ensures r == s.(fills := r.fills, borders := r.borders, shadows := r.shadows, innerShadows := r.innerShadows)
    ensures r.fills.Some? <==> s.fills.Some?
    ensures r.fills.Some? ==> |r.fills.value| == |s.fills.value|
    ensures r.fills.Some? ==> forall i :: 0 <= i < |s.fills.value| ==>
      r.fills.value[i].fillType == s.fills.value[i].fillType && r.fills.value[i].color == ReconcileColor(s.fills.value[i].color, swatches)
    ensures r.borders == CleanStyle(s, swatches).borders
    ensures r.shadows == CleanStyle(s, swatches).shadows && r.innerShadows == CleanStyle(s, swatches).innerShadows
  {
    s.(fills := MapPresent(f => RecolorFill(f, swatches), s.fills),
       borders := MapPresent(b => ReconcileBorder(b, swatches), s.borders),
       shadows := MapPresent(x => ReconcileShadow(x, swatches), s.shadows),
       innerShadows := MapPresent(x => ReconcileShadow(x, swatches), s.innerShadows))
  }

  /** The text-style colour pass on one style: as the layer-style pass, and the encoded
      text colour too. */
  function RecolorTextStyle(s: Style, swatches: seq<Swatch>): (r: Style)
    ensures r == RecolorStyle(s, swatches).(textStyle := r.textStyle)
    ensures r.textStyle.Some? <==> s.textStyle.Some?
    ensures r.textStyle.Some? ==>
      r.textStyle.value == s.textStyle.value.(color := r.textStyle.value.color) &&
      (s.textStyle.value.color.None? ==> r.textStyle.value.color.None?) &&
      (s.textStyle.value.color.Some? ==> r.textStyle.value.color == Some(ReconcileColor(s.textStyle.value.color.value, swatches)))
  {
    var t := match s.textStyle
      case None => None
      case Some(ts) => Some(ts.(color := match ts.color
        case None => None
        case Some(c) => Some(ReconcileColor(c, swatches))));
    RecolorStyle(s, swatches).(textStyle := t)
  }

  function RecolorSharedWith(swatches: seq<Swatch>): SharedStyle -> SharedStyle
  {
    (x: SharedStyle) => x.(value := RecolorStyle(x.value, swatches))
  }

  function RecolorTextSharedWith(swatches: seq<Swatch>): SharedStyle -> SharedStyle
  {
    (x: SharedStyle) => x.(value := RecolorTextStyle(x.value, swatches))
  }

  /** The layer-style pass differs from cleanupColorsInLayer's style rule only in
      reconciling fills that are not flat colours: on a style whose fills are all flat,
      the two agree. */
  lemma RecolorAgreesWithCleanupOnFlatFills(s: Style, swatches: seq<Swatch>)
    requires s.fills.Some? ==> forall i :: 0 <= i < |s.fills.value| ==> s.fills.value[i].fillType == 0
    ensures RecolorStyle(s, swatches) == CleanStyle(s, swatches)
  {
    var a, b := RecolorStyle(s, swatches), CleanStyle(s, swatches);
    if s.fills.Some? {
      assert a.fills.value == b.fills.value;
    }
  }

  /** Running the text-style colour pass twice is running it once. */
  lemma RecolorTextStyleIdempotent(s: Style, swatches: seq<Swatch>)
    ensures RecolorTextStyle(RecolorTextStyle(s, swatches), swatches) == RecolorTextStyle(s, swatches)
  {
    var once := RecolorTextStyle(s, swatches);
    var twice := RecolorTextStyle(once, swatches);
    forall c: Color ensures ReconcileColor(ReconcileColor(c, swatches), swatches) == ReconcileColor(c, swatches) {
      ReconcileColorIdempotent(c, swatches);
    }
    if s.fills.Some? {
      assert twice.fills.value == once.fills.value;
    }
    if s.borders.Some? {
      assert twice.borders.value == once.borders.value;
    }
    if s.shadows.Some? {
      assert twice.shadows.value == once.shadows.value;
    }
    if s.innerShadows.Some? {
      assert twice.innerShadows.value == once.innerShadows.value;
    }
  }

  /** `layerStyles.forEach(style => ...)`: each shared style of the list is recoloured
      in place. */
  method RecolorLayerStyles(styles: ObjectList<Style>, swatches: seq<Swatch>)
    modifies styles
    ensures styles.items == Map(RecolorSharedWith(swatches), old(styles.items))
  {
    var i := 0;
    while i < |styles.items|
      invariant 0 <= i <= |styles.items| == |old(styles.items)|
      invariant forall k :: 0 <= k < i ==> styles.items[k] == RecolorSharedWith(swatches)(old(styles.items)[k])
      invariant forall k :: i <= k < |styles.items| ==> styles.items[k] == old(styles.items)[k]
    {
      var style := styles.items[i];
      styles.items := styles.items[i := style.(value := RecolorStyle(style.value, swatches))];
      i := i + 1;
    }
  }

  /** `textStyles.forEach(style => ...)`: reading the encoded text colour of a style
      without a text style throws. */
  method RecolorTextStyles(styles: ObjectList<Style>, swatches: seq<Swatch>) returns (ok: bool)
    modifies styles
    ensures ok <==> forall k :: 0 <= k < |old(styles.items)| ==> old(styles.items)[k].value.textStyle.Some?
    ensures ok ==> styles.items == Map(RecolorTextSharedWith(swatches), old(styles.items))
  {
    var i := 0;
    while i < |styles.items|
      invariant 0 <= i <= |styles.items| == |old(styles.items)|
      invariant forall k :: 0 <= k < i ==> styles.items[k] == RecolorTextSharedWith(swatches)(old(styles.items)[k])
      invariant forall k :: 0 <= k < i ==> old(styles.items)[k].value.textStyle.Some?
      invariant forall k :: i <= k < |styles.items| ==> styles.items[k] == old(styles.items)[k]
    {
      var style := styles.items[i];
      if style.value.textStyle.None? {
        return false;
      }
      styles.items := styles.items[i := style.(value := RecolorTextStyle(style.value, swatches))];
      i := i + 1;
    }
    ok := true;
  }

  // The text-layer repair (mergeDocuments.ts).

  function StyleNamed(name: string): SharedStyle -> bool
  {
    (s: SharedStyle) => s.name == name
  }

  /** A text layer bound to a shared style that no longer resolves, carrying the name of
      the style it used to have. */
  predicate NeedsRepair(l: Layer, textStyles: seq<SharedStyle>)
  {
    l.kind == Text && l.sharedStyleID.Some? &&
    MatchingLayerStyle(l.sharedStyleID.value, textStyles).None? && l.previousTextStyle.Some?
  }

  /** The repair does not throw: a style of that name exists, the layer has an attributed
      string, and the style has encoded attributes whenever a run reads them. */
  predicate RepairSafe(l: Layer, textStyles: seq<SharedStyle>)
  {
    NeedsRepair(l, textStyles) ==>
      var closest := First(textStyles, StyleNamed(l.previousTextStyle.value));
      closest.Some? && l.attributedString.Some? &&
      (|l.attributedString.value.attributes| > 0 ==> closest.value.value.textStyle.Some?)
  }

  /** A run takes the style's font, colour and paragraph style. */
  function RestyledRun(a: StringAttribute, t: TextStyle): StringAttribute
  {
    a.(font := t.font, color := t.color, paragraphStyle := t.paragraphStyle)
  }

  /** A text layer after the repair: one whose shared style resolves, or that has no
      previous style name, is left alone; otherwise it adopts the first text style with
      that name, as its shared style and as its style, and every run takes that style's
      font, colour and paragraph style. */
  function RepairedText(l: Layer, textStyles: seq<SharedStyle>): (r: Layer)
    requires RepairSafe(l, textStyles)
    ensures !NeedsRepair(l, textStyles) ==> r == l
    ensures NeedsRepair(l, textStyles) ==>
      var closest := First(textStyles, StyleNamed(l.previousTextStyle.value)).value;
      var a := l.attributedString.value;
      closest in textStyles && closest.name == l.previousTextStyle.value &&
      r == l.(sharedStyleID := Some(closest.id), style := closest.value, attributedString := r.attributedString) &&
      r.attributedString.Some? && r.attributedString.value.text == a.text &&
      |r.attributedString.value.attributes| == |a.attributes| &&
      forall i :: 0 <= i < |a.attributes| ==> r.attributedString.value.attributes[i] == RestyledRun(a.attributes[i], closest.value.textStyle.value)
  {
    if !NeedsRepair(l, textStyles) then l
    else
      var closest := First(textStyles, StyleNamed(l.previousTextStyle.value)).value;
      var a := l.attributedString.value;
      var runs := if closest.value.textStyle.Some? then Map((x: StringAttribute) => RestyledRun(x, closest.value.textStyle.value), a.attributes) else a.attributes;
      l.(sharedStyleID := Some(closest.id), style := closest.value, attributedString := Some(a.(attributes := runs)))
  }

  /** After the repair a text layer's shared style resolves, so a second repair leaves it
      alone. */
  lemma RepairSettles(l: Layer, textStyles: seq<SharedStyle>)
    requires RepairSafe(l, textStyles) && NeedsRepair(l, textStyles)
    ensures MatchingLayerStyle(RepairedText(l, textStyles).sharedStyleID.value, textStyles).Some?
    ensures !NeedsRepair(RepairedText(l, textStyles), textStyles)
  {
    var closest := First(textStyles, StyleNamed(l.previousTextStyle.value)).value;
    assert closest in textStyles;
  }

  function RepairTextWith(textStyles: seq<SharedStyle>): Layer -> Layer
  {
    (l: Layer) => if RepairSafe(l, textStyles) then RepairedText(l, textStyles) else l
  }

  function RepairCanRun(textStyles: seq<SharedStyle>): Layer -> bool
  {
    (l: Layer) => RepairSafe(l, textStyles)
  }

  // The other passes over allLayers.

  /** Step 5: cleanupColorsInLayer, then injectDynamicData. */
  function CleanAndInject(swatches: seq<Swatch>, data: seq<(string, string)>, today: string): Layer -> Layer
  {
    (l: Layer) => Injected(Cleaned(l, swatches), data, today)
  }

  function InjectCanRun(swatches: seq<Swatch>, data: seq<(string, string)>): Layer -> bool
  {
    (l: Layer) => InjectSafe(Cleaned(l, swatches), data)
  }

  function ResetWith(styles: seq<SharedStyle>): Layer -> Layer
  {
    (l: Layer) => Reset(l, styles)
  }

  /** The override repair of every symbol instance, against the output pages as they
      are when the pass starts (the pass changes no id, name or symbol id, which is all
      the repair reads of them). */
  function RepairInstancesWith(outputPages: seq<Page>, sourcePages: seq<Page>, sublayers: Layer -> seq<Layer>): Layer -> Layer
  {
    (l: Layer) => if IsInstance(l) then RepairInstance(l, outputPages, sourcePages, sublayers) else l
  }

  /** The override pass touches nothing but instances' override names: every layer
      allLayers lists keeps its place and all else, and a child, or a top-level layer
      without children, keeps its children too. */
  lemma OverridePassKeepsLayers(outputPages: seq<Page>, sourcePages: seq<Page>, sublayers: Layer -> seq<Layer>, pages: seq<Page>, p: Pos)
    requires ValidPos(pages, p)
    ensures var r := ApplyToEntries(pages, RepairInstancesWith(outputPages, sourcePages, sublayers));
      var x := LayerAt(pages, p);
      ValidPos(r, p) &&
      LayerAt(r, p) == x.(overrideValues := LayerAt(r, p).overrideValues, layers := LayerAt(r, p).layers) &&
      |LayerAt(r, p).overrideValues| == |x.overrideValues| &&
      (forall i :: 0 <= i < |x.overrideValues| ==> LayerAt(r, p).overrideValues[i].value == x.overrideValues[i].value) &&
      (!IsInstance(x) ==> LayerAt(r, p).overrideValues == x.overrideValues) &&
      (p.Child? || !IsContainer(x.kind) ==> LayerAt(r, p).layers == x.layers)
  {
    var f := RepairInstancesWith(outputPages, sourcePages, sublayers);
    assert KeepsShape(f);
    ApplyToEntriesAt(pages, f, p);
  }

  /** The override pass repairs every instance it reaches: an instance at any position
      allLayers lists ends up as `RepairInstance` leaves it. */
  lemma OverridePassRepairsInstances(outputPages: seq<Page>, sourcePages: seq<Page>, sublayers: Layer -> seq<Layer>, pages: seq<Page>, p: Pos)
    requires ValidPos(pages, p) && IsInstance(LayerAt(pages, p))
    ensures var r := ApplyToEntries(pages, RepairInstancesWith(outputPages, sourcePages, sublayers));
      ValidPos(r, p) && LayerAt(r, p) == RepairInstance(LayerAt(pages, p), outputPages, sourcePages, sublayers)
  {
    var f := RepairInstancesWith(outputPages, sourcePages, sublayers);
    assert KeepsShape(f);
    ApplyToEntriesAt(pages, f, p);
    var top := pages[p.page].layers[p.index];
    if p.Child? {
      assert f(top).layers == top.layers;
    }
  }

  // mergeDocuments.ts

  function InjectWith(freshPageID: string): (seq<Page>, Layer) -> seq<Page>
  {
    (pages: seq<Page>, symbol: Layer) => InjectFirst(pages, symbol, None, freshPageID)
  }

  /** `symbols.forEach(symbol => output = injectSymbol(symbol, output))`. */
  function InjectAll(pages: seq<Page>, symbols: seq<Layer>, freshPageID: string): seq<Page>
  {
    Fold(pages, symbols, InjectWith(freshPageID))
  }

  method InjectMasters(doc: SketchFile, symbols: seq<Layer>, freshPageID: string)
    modifies doc`pages
    ensures doc.pages == InjectAll(old(doc.pages), symbols, freshPageID)
  {
    for i := 0 to |symbols|
      invariant doc.pages == InjectAll(old(doc.pages), symbols[..i], freshPageID)
    {
      assert symbols[..i + 1] == symbols[..i] + [symbols[i]];
      FoldAppend(old(doc.pages), symbols[..i], symbols[i], InjectWith(freshPageID));
      var _ := InjectSymbol(symbols[i], doc, None, freshPageID);
    }
    assert symbols[..|symbols|] == symbols;
  }

  /** The output pages after each pass of step 5, from the pages the injection left,
      the merged swatches and the recoloured shared styles. */
  datatype Stages = Stages(updated: seq<Page>, reset: seq<Page>, texts: seq<Page>)

  function Referenced(injected: seq<Page>, swatches: seq<Swatch>, layerStyles: seq<SharedStyle>, textStyles: seq<SharedStyle>,
                      data: seq<(string, string)>, today: string): Stages
  {
    var updated := ApplyToEntries(injected, CleanAndInject(swatches, data, today));
    var reset := ApplyToEntries(updated, ResetWith(layerStyles + textStyles));
    var texts := ApplyToEntries(reset, RepairTextWith(textStyles));
    Stages(updated, reset, texts)
  }

  /** The last pass: the overrides, against the pages as the text repair left them. */
  function Overridden(texts: seq<Page>, sourcePages: seq<Page>, sublayers: Layer -> seq<Layer>): seq<Page>
  {
    ApplyToEntries(texts, RepairInstancesWith(texts, sourcePages, sublayers))
  }

  /** Step 5 runs to the end: no layer makes the clean-up and injection throw, every
      merged text style has encoded attributes, and no text layer makes the repair
      throw. `textStyles` are the merged text styles before their colour pass. */
  predicate ReferencesSafe(injected: seq<Page>, swatches: seq<Swatch>, layerStyles: seq<SharedStyle>, textStyles: seq<SharedStyle>,
                           data: seq<(string, string)>, today: string)
  {
    var recoloured := Map(RecolorTextSharedWith(swatches), textStyles);
    EntriesSafe(injected, CleanAndInject(swatches, data, today), InjectCanRun(swatches, data)) &&
    (forall k :: 0 <= k < |textStyles| ==> textStyles[k].value.textStyle.Some?) &&
    EntriesSafe(Referenced(injected, swatches, layerStyles, recoloured, data, today).reset,
                RepairTextWith(recoloured), RepairCanRun(recoloured))
  }

  /** Steps 1 to 3: the swatches and layer styles are merged into the source's own
      lists, the text styles into copies. */
  method MergeCollections(source: SketchFile, theme: SketchFile, output: SketchFile)
    requires output != source && output != theme
    requires source.swatches.objects != theme.swatches.objects
    requires source.layerStyles.objects != theme.layerStyles.objects
    modifies output`swatches, output`layerStyles, output`textStyles
    modifies source.swatches.objects, theme.swatches.objects, source.layerStyles.objects, theme.layerStyles.objects
    ensures output.swatches == old(source.swatches) && output.swatches.objects == old(source.swatches.objects)
    ensures output.swatches.objects.items == MergeByName(old(source.swatches.objects.items), old(theme.swatches.objects.items), AdoptSourceID)
    ensures output.layerStyles.objects == old(source.layerStyles.objects)
    ensures output.layerStyles.objects.items == MergeByName(old(source.layerStyles.objects.items), old(theme.layerStyles.objects.items), AdoptSourceID)
    ensures fresh(output.textStyles.objects)
    ensures output.textStyles.objects.items == MergeByName(old(source.textStyles.objects.items), old(theme.textStyles.objects.items), TagNameWithSourceID)
  {
    var textStyles := MergeTextStyles(source, theme);
    var swatches := MergeColors(source.swatches, theme.swatches);
    var layerStyles := MergeLayerStyles(source.layerStyles, theme.layerStyles);
    output.swatches, output.layerStyles, output.textStyles := swatches, layerStyles, textStyles;
  }

  /** Step 5: the passes over allLayers and over the shared styles. */
  method UpdateReferences(output: SketchFile, sourcePages: seq<Page>, data: seq<(string, string)>, today: string,
                          sublayers: Layer -> seq<Layer>) returns (ok: bool)
    requires output.layerStyles.objects != output.textStyles.objects
    requires output.swatches.objects as object != output.layerStyles.objects && output.swatches.objects as object != output.textStyles.objects
    modifies output`pages, output.layerStyles.objects, output.textStyles.objects
    ensures var swatches := output.swatches.objects.items;
      var layerStyles := Map(RecolorSharedWith(swatches), old(output.layerStyles.objects.items));
      var textStyles := old(output.textStyles.objects.items);
      (ok <==> ReferencesSafe(old(output.pages), swatches, layerStyles, textStyles, data, today)) &&
      (ok ==> output.layerStyles.objects.items == layerStyles &&
              output.textStyles.objects.items == Map(RecolorTextSharedWith(swatches), textStyles) &&
              output.pages == Overridden(Referenced(old(output.pages), swatches, layerStyles, output.textStyles.objects.items, data, today).texts,
                                         sourcePages, sublayers))
  {
    var swatches := output.swatches.objects.items;
    ghost var injected := output.pages;
    ghost var layerStyles := Map(RecolorSharedWith(swatches), output.layerStyles.objects.items);
    ghost var textStyles := output.textStyles.objects.items;
    ok := CleanAndRecolor(output, swatches, data, today);
    assert output.swatches.objects.items == swatches;
    if ok {
      ok := ResetAndRepair(output, output.layerStyles.objects.items, output.textStyles.objects.items, sourcePages, sublayers);
      assert output.swatches.objects.items == swatches;
    }
    ReferencesInStages(injected, swatches, layerStyles, textStyles, data, today);
  }

  /** Step 5's outcome, pass by pass. */
  lemma ReferencesInStages(injected: seq<Page>, swatches: seq<Swatch>, layerStyles: seq<SharedStyle>, textStyles: seq<SharedStyle>,
                           data: seq<(string, string)>, today: string)
    ensures var recoloured := Map(RecolorTextSharedWith(swatches), textStyles);
      var updated := ApplyToEntries(injected, CleanAndInject(swatches, data, today));
      var reset := ApplyToEntries(updated, ResetWith(layerStyles + recoloured));
      Referenced(injected, swatches, layerStyles, recoloured, data, today) == Stages(updated, reset, ApplyToEntries(reset, RepairTextWith(recoloured))) &&
      (ReferencesSafe(injected, swatches, layerStyles, textStyles, data, today) <==>
        EntriesSafe(injected, CleanAndInject(swatches, data, today), InjectCanRun(swatches, data)) &&
        (forall k :: 0 <= k < |textStyles| ==> textStyles[k].value.textStyle.Some?) &&
        EntriesSafe(reset, RepairTextWith(recoloured), RepairCanRun(recoloured)))
  {
  }

  /** The first passes of step 5: clean-up and injection over allLayers, then the colour
      passes over the shared layer and text styles. */
  method CleanAndRecolor(output: SketchFile, swatches: seq<Swatch>, data: seq<(string, string)>, today: string) returns (ok: bool)
    requires output.layerStyles.objects != output.textStyles.objects
    modifies output`pages, output.layerStyles.objects, output.textStyles.objects
    ensures var textStyles := old(output.textStyles.objects.items);
      (ok <==> EntriesSafe(old(output.pages), CleanAndInject(swatches, data, today), InjectCanRun(swatches, data)) &&
               forall k :: 0 <= k < |textStyles| ==> textStyles[k].value.textStyle.Some?) &&
      (ok ==> output.pages == ApplyToEntries(old(output.pages), CleanAndInject(swatches, data, today)) &&
              output.layerStyles.objects.items == Map(RecolorSharedWith(swatches), old(output.layerStyles.objects.items)) &&
              output.textStyles.objects.items == Map(RecolorTextSharedWith(swatches), textStyles))
  {
    ok := VisitEntriesChecked(output, CleanAndInject(swatches, data, today), InjectCanRun(swatches, data));
    if !ok {
      return;
    }
    RecolorLayerStyles(output.layerStyles.objects, swatches);
    ok := RecolorTextStyles(output.textStyles.objects, swatches);
  }

  /** The last three passes of step 5: shared styles reset, text styles repaired, then
      the overrides of every instance repaired. */
  method ResetAndRepair(output: SketchFile, layerStyles: seq<SharedStyle>, textStyles: seq<SharedStyle>,
                        sourcePages: seq<Page>, sublayers: Layer -> seq<Layer>) returns (ok: bool)
    modifies output`pages
    ensures var reset := ApplyToEntries(old(output.pages), ResetWith(layerStyles + textStyles));
      (ok <==> EntriesSafe(reset, RepairTextWith(textStyles), RepairCanRun(textStyles))) &&
      (ok ==> output.pages == Overridden(ApplyToEntries(reset, RepairTextWith(textStyles)), sourcePages, sublayers))
  {
    VisitEntries(output, ResetWith(layerStyles + textStyles));
    ok := VisitEntriesChecked(output, RepairTextWith(textStyles), RepairCanRun(textStyles));
    if !ok {
      return;
    }
    VisitEntries(output, RepairInstancesWith(output.pages, sourcePages, sublayers));
  }

  /** mergeDocuments.ts: the collections, the symbols (the source's masters, then the
      theme's), then the references. `false` where the source throws: a text layer
      without an attributed string, or a placeholder hit with no first run to resize; a
      merged text style without encoded attributes; a text layer whose previous style
      name matches no text style. The three documents' style and swatch collections are
      distinct objects. Layers are values here, so an injected master is a copy of the
      source's, and the override repair reads the source's pages as they were before
      the injections. */
  method MergeDocuments(source: SketchFile, theme: SketchFile, output: SketchFile,
                        data: seq<(string, string)>, today: string, freshPageID: string,
                        sublayers: Layer -> seq<Layer>) returns (ok: bool)
    requires output != source && output != theme
    requires source.swatches.objects != theme.swatches.objects
    requires source.layerStyles.objects != theme.layerStyles.objects
    modifies output`pages, output`swatches, output`layerStyles, output`textStyles
    modifies source.swatches.objects, theme.swatches.objects, source.layerStyles.objects, theme.layerStyles.objects
    ensures output.swatches.objects.items == MergeByName(old(source.swatches.objects.items), old(theme.swatches.objects.items), AdoptSourceID)
    ensures var swatches := output.swatches.objects.items;
      var layerStyles := Map(RecolorSharedWith(swatches),
                             MergeByName(old(source.layerStyles.objects.items), old(theme.layerStyles.objects.items), AdoptSourceID));
      var textStyles := MergeByName(old(source.textStyles.objects.items), old(theme.textStyles.objects.items), TagNameWithSourceID);
      var injected := InjectAll(InjectAll(old(output.pages), Filter(Flatten(old(source.pages)), IsMaster), freshPageID),
                                Filter(Flatten(old(theme.pages)), IsMaster), freshPageID);
      (ok <==> ReferencesSafe(injected, swatches, layerStyles, textStyles, data, today)) &&
      (ok ==> output.layerStyles.objects.items == layerStyles &&
              output.textStyles.objects.items == Map(RecolorTextSharedWith(swatches), textStyles) &&
              output.pages == Overridden(Referenced(injected, swatches, layerStyles, output.textStyles.objects.items, data, today).texts,
                                         old(source.pages), sublayers))
  {
    ghost var injected := InjectAll(InjectAll(output.pages, Filter(Flatten(source.pages), IsMaster), freshPageID),
                                Filter(Flatten(theme.pages), IsMaster), freshPageID);
    MergeCollections(source, theme, output);
    InjectSymbols(source, theme, output, freshPageID);
    assert output.pages == injected;
    ok := UpdateReferences(output, source.pages, data, today, sublayers);
  }

  /** Step 4: every symbol master of the source, then every one of the theme, is
      injected into the output with injectSymbol.ts. */
  method InjectSymbols(source: SketchFile, theme: SketchFile, output: SketchFile, freshPageID: string)
    requires output != source && output != theme
    modifies output`pages
    ensures output.pages == InjectAll(InjectAll(old(output.pages), Filter(Flatten(source.pages), IsMaster), freshPageID),
                                      Filter(Flatten(theme.pages), IsMaster), freshPageID)
  {
    var sourceMasters := AllSymbolMasters(source);
    InjectMasters(output, sourceMasters, freshPageID);
    var themeMasters := AllSymbolMasters(theme);
    InjectMasters(output, themeMasters, freshPageID);
  }

  // index.ts

  /** The pages' top-level layers, page after page. */
  function TopLayers(pages: seq<Page>): seq<Layer>
    decreases |pages|
  {
    if pages == [] then [] else TopLayers(pages[..|pages| - 1]) + pages[|pages| - 1].layers
  }

  /** A layer is among the pages' top-level layers iff some page holds it at the top. */
  lemma {:induction false} InTopLayers(pages: seq<Page>, x: Layer)
    ensures x in TopLayers(pages) <==> exists i, j :: 0 <= i < |pages| && 0 <= j < |pages[i].layers| && pages[i].layers[j] == x
    decreases |pages|
  {
    if pages != [] {
      var n := |pages| - 1;
      var front := pages[..n];
      InTopLayers(front, x);
      assert TopLayers(pages) == TopLayers(front) + pages[n].layers;
      if x in TopLayers(front) {
        var i, j :| 0 <= i < |front| && 0 <= j < |front[i].layers| && front[i].layers[j] == x;
        assert pages[i].layers[j] == x;
      } else if x in pages[n].layers {
        var j :| 0 <= j < |pages[n].layers| && pages[n].layers[j] == x;
      }
      if exists i, j :: 0 <= i < |pages| && 0 <= j < |pages[i].layers| && pages[i].layers[j] == x {
        var i, j :| 0 <= i < |pages| && 0 <= j < |pages[i].layers| && pages[i].layers[j] == x;
        if i < n {
          assert front[i].layers[j] == x;
        } else {
          assert x in pages[n].layers;
        }
      }
    }
  }

  /** The symbol masters among the pages' top-level layers, page by page. */
  function TopMasters(pages: seq<Page>): (r: seq<Layer>)
    ensures r == Filter(TopLayers(pages), IsMaster)
    decreases |pages|
  {
    if pages == [] then []
    else
      var n := |pages| - 1;
      FilterAppend(TopLayers(pages[..n]), pages[n].layers, IsMaster);
      TopMasters(pages[..n]) + Filter(pages[n].layers, IsMaster)
  }

  /** The index.ts masters are exactly the top-level symbol masters of the pages. */
  lemma TopMastersMembers(pages: seq<Page>, x: Layer)
    ensures x in TopMasters(pages) <==>
      IsMaster(x) && exists i, j :: 0 <= i < |pages| && 0 <= j < |pages[i].layers| && pages[i].layers[j] == x
  {
    InTopLayers(pages, x);
    if IsMaster(x) && x in TopLayers(pages) {
      FilterComplete(TopLayers(pages), IsMaster, x);
    }
  }

  function InjectSharedWith(freshPageID: string, place: seq<Layer> -> (Coord, Coord)): (seq<Page>, Layer) -> seq<Page>
  {
    (pages: seq<Page>, symbol: Layer) => InjectShared(pages, symbol, freshPageID, place)
  }

  /** `symbols.forEach(symbol => output = injectSymbol(symbol, output))` with the
      injectSymbol of index.ts. */
  function InjectSharedAll(pages: seq<Page>, symbols: seq<Layer>, freshPageID: string, place: seq<Layer> -> (Coord, Coord)): seq<Page>
  {
    Fold(pages, symbols, InjectSharedWith(freshPageID, place))
  }

  /** Steps 1 to 3 of index.ts: each merger writes into the source's own list, and the
      ids are taken over only with `reuseStyleID`. */
  method MergeCollectionsWithOption(source: SketchFile, theme: SketchFile, output: SketchFile, reuseStyleID: bool)
    requires output != theme
    requires source.swatches.objects != theme.swatches.objects
    requires source.layerStyles.objects != theme.layerStyles.objects
    requires source.textStyles.objects != theme.textStyles.objects
    requires {source.layerStyles.objects, theme.layerStyles.objects} !! {source.textStyles.objects, theme.textStyles.objects}
    modifies output`swatches, output`layerStyles, output`textStyles
    modifies source.swatches.objects, theme.swatches.objects, source.layerStyles.objects, theme.layerStyles.objects
    modifies source.textStyles.objects, theme.textStyles.objects
    ensures var policy := if reuseStyleID then AdoptSourceID else KeepOwnID;
      output.layerStyles.kind == "sharedStyleContainer" && output.layerStyles.objects == old(source.layerStyles.objects) &&
      output.layerStyles.objects.items == MergeByName(old(source.layerStyles.objects.items), old(theme.layerStyles.objects.items), policy) &&
      output.textStyles.kind == "sharedTextStyleContainer" && output.textStyles.objects == old(source.textStyles.objects) &&
      output.textStyles.objects.items == MergeByName(old(source.textStyles.objects.items), old(theme.textStyles.objects.items), policy) &&
      output.swatches == old(source.swatches) &&
      output.swatches.objects.items == MergeByName(old(source.swatches.objects.items), old(theme.swatches.objects.items), policy)
  {
    var layerStyles, textStyles := MergeStyleLists(source.layerStyles, theme.layerStyles, source.textStyles, theme.textStyles, reuseStyleID);
    var swatches := MergeColorsWithOption(source.swatches, theme.swatches, reuseStyleID);
    output.swatches, output.layerStyles, output.textStyles := swatches, layerStyles, textStyles;
  }

  /** Steps 1 and 2 of index.ts: the layer styles, then the text styles. */
  method MergeStyleLists(sourceLayers: Container<Style>, themeLayers: Container<Style>,
                         sourceTexts: Container<Style>, themeTexts: Container<Style>, reuseStyleID: bool)
    returns (layerStyles: Container<Style>, textStyles: Container<Style>)
    requires sourceLayers.objects != themeLayers.objects && sourceTexts.objects != themeTexts.objects
    requires {sourceLayers.objects, themeLayers.objects} !! {sourceTexts.objects, themeTexts.objects}
    modifies sourceLayers.objects, themeLayers.objects, sourceTexts.objects, themeTexts.objects
    ensures var policy := if reuseStyleID then AdoptSourceID else KeepOwnID;
      layerStyles.kind == "sharedStyleContainer" && layerStyles.objects == sourceLayers.objects &&
      layerStyles.objects.items == MergeByName(old(sourceLayers.objects.items), old(themeLayers.objects.items), policy) &&
      textStyles.kind == "sharedTextStyleContainer" && textStyles.objects == sourceTexts.objects &&
      textStyles.objects.items == MergeByName(old(sourceTexts.objects.items), old(themeTexts.objects.items), policy)
  {
    layerStyles := MergeStyles(sourceLayers, themeLayers, "sharedStyleContainer", reuseStyleID);
    textStyles := MergeStyles(sourceTexts, themeTexts, "sharedTextStyleContainer", reuseStyleID);
  }

  /** `page.layers.forEach(symbol => ...)` for one theme page. */
  method InjectPageMasters(output: SketchFile, layers: seq<Layer>, freshPageID: string, place: seq<Layer> -> (Coord, Coord))
    modifies output`pages
    ensures output.pages == InjectSharedAll(old(output.pages), Filter(layers, IsMaster), freshPageID, place)
  {
    var j := 0;
    while j < |layers|
      invariant 0 <= j <= |layers|
      invariant output.pages == InjectSharedAll(old(output.pages), Filter(layers[..j], IsMaster), freshPageID, place)
    {
      assert layers[..j + 1][..j] == layers[..j] && layers[..j + 1][j] == layers[j];
      if layers[j].kind == SymbolMaster {
        assert Filter(layers[..j + 1], IsMaster) == Filter(layers[..j], IsMaster) + [layers[j]];
        FoldAppend(old(output.pages), Filter(layers[..j], IsMaster), layers[j], InjectSharedWith(freshPageID, place));
        var _ := InjectSymbolShared(layers[j], output, freshPageID, place);
      } else {
        assert Filter(layers[..j + 1], IsMaster) == Filter(layers[..j], IsMaster);
      }
      j := j + 1;
    }
    assert layers[..j] == layers;
  }

  /** Step 4 of index.ts: every top-level symbol master of the theme, page by page. */
  method InjectThemeMasters(output: SketchFile, themePages: seq<Page>, freshPageID: string, place: seq<Layer> -> (Coord, Coord))
    modifies output`pages
    ensures output.pages == InjectSharedAll(old(output.pages), TopMasters(themePages), freshPageID, place)
  {
    var i := 0;
    while i < |themePages|
      invariant 0 <= i <= |themePages|
      invariant output.pages == InjectSharedAll(old(output.pages), TopMasters(themePages[..i]), freshPageID, place)
    {
      assert themePages[..i + 1][..i] == themePages[..i];
      FoldConcat(old(output.pages), TopMasters(themePages[..i]), Filter(themePages[i].layers, IsMaster), InjectSharedWith(freshPageID, place));
      InjectPageMasters(output, themePages[i].layers, freshPageID, place);
      i := i + 1;
    }
    assert themePages[..i] == themePages;
  }

  /** mergeDocuments of index.ts: the layer styles, the text styles, the swatches, then
      every top-level symbol master of the theme, page by page. */
  method MergeDocumentsInPlace(source: SketchFile, theme: SketchFile, output: SketchFile, reuseStyleID: bool,
                               freshPageID: string, place: seq<Layer> -> (Coord, Coord))
    requires output != theme
    requires source.swatches.objects != theme.swatches.objects
    requires source.layerStyles.objects != theme.layerStyles.objects
    requires source.textStyles.objects != theme.textStyles.objects
    requires {source.layerStyles.objects, theme.layerStyles.objects} !! {source.textStyles.objects, theme.textStyles.objects}
    modifies output, source.swatches.objects, theme.swatches.objects, source.layerStyles.objects, theme.layerStyles.objects
    modifies source.textStyles.objects, theme.textStyles.objects
    ensures var policy := if reuseStyleID then AdoptSourceID else KeepOwnID;
      output.layerStyles.objects.items == MergeByName(old(source.layerStyles.objects.items), old(theme.layerStyles.objects.items), policy) &&
      output.textStyles.objects.items == MergeByName(old(source.textStyles.objects.items), old(theme.textStyles.objects.items), policy) &&
      output.swatches.objects.items == MergeByName(old(source.swatches.objects.items), old(theme.swatches.objects.items), policy)
    ensures output.pages == InjectSharedAll(old(output.pages), TopMasters(old(theme.pages)), freshPageID, place)
  {
    MergeCollectionsWithOption(source, theme, output, reuseStyleID);
    InjectThemeMasters(output, theme.pages, freshPageID, place);
  }
}
