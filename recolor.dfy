/** cleanupColorsInLayer: every colour of a layer tree that is tagged with a swatch is
    brought back in line with that swatch. */
module Recolor {
  import opened Seqs
  import opened Sketch
  import opened Lookups

  /** The rule for fills, borders, shadows and text runs: a colour whose `swatchID` is
      set and resolves, and whose channels differ from the swatch's, becomes the
      swatch's colour tagged with the swatch's id; any other colour is left alone. */
  function ReconcileColor(c: Color, swatches: seq<Swatch>): (r: Color)
    ensures r.swatchID == c.swatchID
    ensures MatchingSwatch(c, swatches).None? ==> r == c
    ensures MatchingSwatch(c, swatches).Some? ==> ColorsAreEqual(r, MatchingSwatch(c, swatches).value.value)
  {
    if c.swatchID.None? then c
    else
      match MatchingSwatch(c, swatches)
      case None => c
      case Some(swatch) =>
        if !ColorsAreEqual(c, swatch.value) then swatch.value.(swatchID := Some(swatch.id)) else c
  }

  /** The rule for an artboard's or slice's background: whenever the swatch resolves,
      the background becomes its colour, equal or not. */
  function ReconcileBackground(c: Color, swatches: seq<Swatch>): (r: Color)
    ensures r.swatchID == c.swatchID
    ensures MatchingSwatch(c, swatches).None? ==> r == c
    ensures MatchingSwatch(c, swatches).Some? ==> ColorsAreEqual(r, MatchingSwatch(c, swatches).value.value)
  {
    match MatchingSwatch(c, swatches)
    case None => c
    case Some(swatch) => swatch.value.(swatchID := Some(swatch.id))
  }

  /** The two rules are written differently but agree on every colour: rewriting a
      colour whose channels already match its swatch changes nothing, and an untagged
      colour never resolves. */
  lemma BackgroundRuleAgrees(c: Color, swatches: seq<Swatch>)
    ensures ReconcileBackground(c, swatches) == ReconcileColor(c, swatches)
  {
  }

  /** Reconciling twice is reconciling once. */
  lemma ReconcileColorIdempotent(c: Color, swatches: seq<Swatch>)
    ensures ReconcileColor(ReconcileColor(c, swatches), swatches) == ReconcileColor(c, swatches)
  {
    MatchingSwatchIgnoresChannels(c, ReconcileColor(c, swatches), swatches);
  }

  /** Only flat-colour fills (`fillType` 0) are reconciled on layers. */
  function ReconcileFill(f: Fill, swatches: seq<Swatch>): (r: Fill)
    ensures r.fillType == f.fillType
    ensures f.fillType != 0 ==> r == f
    ensures f.fillType == 0 ==> r.color == ReconcileColor(f.color, swatches)
  {
    if f.fillType == 0 then f.(color := ReconcileColor(f.color, swatches)) else f
  }

  function ReconcileBorder(b: Border, swatches: seq<Swatch>): Border
  {
    b.(color := ReconcileColor(b.color, swatches))
  }

  function ReconcileShadow(s: Shadow, swatches: seq<Swatch>): Shadow
  {
    s.(color := ReconcileColor(s.color, swatches))
  }

  function ReconcileRun(a: StringAttribute, swatches: seq<Swatch>): StringAttribute
  {
    match a.color
    case None => a
    case Some(c) => a.(color := Some(ReconcileColor(c, swatches)))
  }

  /** `xs?.forEach(...)`: a missing list stays missing. */
  function MapPresent<T>(f: T -> T, xs: Option<seq<T>>): (r: Option<seq<T>>)
    ensures r.None? <==> xs.None?
    ensures r.Some? ==> r.value == Map(f, xs.value)
  {
    match xs
    case None => None
    case Some(s) => Some(Map(f, s))
  }

  /** A layer style with its fills, borders, shadows and inner shadows reconciled. */
  function CleanStyle(s: Style, swatches: seq<Swatch>): Style
  {
    s.(fills := MapPresent(f => ReconcileFill(f, swatches), s.fills),
       borders := MapPresent(b => ReconcileBorder(b, swatches), s.borders),
       shadows := MapPresent(x => ReconcileShadow(x, swatches), s.shadows),
       innerShadows := MapPresent(x => ReconcileShadow(x, swatches), s.innerShadows))
  }

  function CleanText(t: Option<AttributedString>, swatches: seq<Swatch>): Option<AttributedString>
  {
    match t
    case None => None
    case Some(a) => Some(a.(attributes := Map(x => ReconcileRun(x, swatches), a.attributes)))
  }

  /** Artboards and slices with `hasBackgroundColor` have their background reconciled. */
  predicate HasReconciledBackground(l: Layer)
  {
    (l.kind == Slice || l.kind == Artboard) && l.hasBackgroundColor
  }

  /** The layer tree after cleanupColorsInLayer: children of groups, symbol masters and
      artboards first, at every depth, then the layer's own colours. */
  function Cleaned(l: Layer, swatches: seq<Swatch>): (r: Layer)
    ensures r.kind == l.kind && |r.layers| == |l.layers|
    decreases l
  {
    var children := if IsContainer(l.kind) then seq(|l.layers|, i requires 0 <= i < |l.layers| => Cleaned(l.layers[i], swatches)) else l.layers;
    l.(layers := children,
       style := CleanStyle(l.style, swatches),
       attributedString := CleanText(l.attributedString, swatches),
       backgroundColor := if HasReconciledBackground(l) then ReconcileBackground(l.backgroundColor, swatches) else l.backgroundColor)
  }

  /** cleanupColorsInLayer: the children's pass and then one `forEach` per colour list,
      each overwriting colours in place. */
  method CleanupColorsInLayer(layer: Layer, swatches: Container<Color>) returns (r: Layer)
    ensures r == Cleaned(layer, swatches.objects.items)
    decreases layer
  {
    var sw := swatches.objects.items;
    r := layer;
    if IsContainer(layer.kind) {
      var children := layer.layers;
      var i := 0;
      while i < |children|
        invariant 0 <= i <= |children| == |layer.layers|
        invariant forall k :: 0 <= k < i ==> children[k] == Cleaned(layer.layers[k], sw)
        invariant forall k :: i <= k < |children| ==> children[k] == layer.layers[k]
      {
        var sublayer := layer.layers[i];
        sublayer := CleanupColorsInLayer(sublayer, swatches);
        children := children[i := sublayer];
        i := i + 1;
      }
      r := r.(layers := children);
    }
    var style := CleanupStyle(r.style, sw);
    r := r.(style := style);
    if r.attributedString.Some? {
      var runs := UpdateEach(r.attributedString.value.attributes, x => ReconcileRun(x, sw));
      r := r.(attributedString := Some(r.attributedString.value.(attributes := runs)));
    }
    if HasReconciledBackground(r) {
      match MatchingSwatch(r.backgroundColor, sw) {
        case None =>
        case Some(swatch) =>
          r := r.(backgroundColor := swatch.value.(swatchID := Some(swatch.id)));
      }
    }
  }

  /** The four `style?.<list>?.forEach` passes of cleanupColorsInLayer. */
  method CleanupStyle(s: Style, sw: seq<Swatch>) returns (style: Style)
    ensures style == CleanStyle(s, sw)
  {
    style := s;
    if style.fills.Some? {
      var fills := UpdateEach(style.fills.value, f => ReconcileFill(f, sw));
      style := style.(fills := Some(fills));
    }
    if style.borders.Some? {
      var borders := UpdateEach(style.borders.value, b => ReconcileBorder(b, sw));
      style := style.(borders := Some(borders));
    }
    if style.shadows.Some? {
      var shadows := UpdateEach(style.shadows.value, x => ReconcileShadow(x, sw));
      style := style.(shadows := Some(shadows));
    }
    if style.innerShadows.Some? {
      var innerShadows := UpdateEach(style.innerShadows.value, x => ReconcileShadow(x, sw));
      style := style.(innerShadows := Some(innerShadows));
    }
  }

  // Properties.

  /** Mapping `f` and then `g` is mapping `g` alone when `g` absorbs `f`. */
  lemma MapPresentAbsorb<T>(f: T -> T, g: T -> T, xs: Option<seq<T>>)
    requires forall x :: g(f(x)) == g(x)
    ensures MapPresent(g, MapPresent(f, xs)) == MapPresent(g, xs)
  {
    if xs.Some? {
      var s := xs.value;
      assert Map(g, Map(f, s)) == Map(g, s) by {
        forall i | 0 <= i < |s| ensures Map(g, Map(f, s))[i] == Map(g, s)[i] {
          assert Map(f, s)[i] == f(s[i]);
        }
      }
    }
  }

  lemma CleanStyleIdempotent(s: Style, swatches: seq<Swatch>)
    ensures CleanStyle(CleanStyle(s, swatches), swatches) == CleanStyle(s, swatches)
  {
    forall c | true ensures ReconcileColor(ReconcileColor(c, swatches), swatches) == ReconcileColor(c, swatches) {
      ReconcileColorIdempotent(c, swatches);
    }
    var fill := (f: Fill) => ReconcileFill(f, swatches);
    var border := (b: Border) => ReconcileBorder(b, swatches);
    var shadow := (x: Shadow) => ReconcileShadow(x, swatches);
    MapPresentAbsorb(fill, fill, s.fills);
    MapPresentAbsorb(border, border, s.borders);
    MapPresentAbsorb(shadow, shadow, s.shadows);
    MapPresentAbsorb(shadow, shadow, s.innerShadows);
  }

  lemma CleanTextIdempotent(t: Option<AttributedString>, swatches: seq<Swatch>)
    ensures CleanText(CleanText(t, swatches), swatches) == CleanText(t, swatches)
  {
    forall c | true ensures ReconcileColor(ReconcileColor(c, swatches), swatches) == ReconcileColor(c, swatches) {
      ReconcileColorIdempotent(c, swatches);
    }
    if t.Some? {
      var run := (x: StringAttribute) => ReconcileRun(x, swatches);
      MapPresentAbsorb(run, run, Some(t.value.attributes));
    }
  }

  /** Running the pass twice gives the same layer as running it once. */
  lemma {:induction false} CleanedIdempotent(l: Layer, swatches: seq<Swatch>)
    ensures Cleaned(Cleaned(l, swatches), swatches) == Cleaned(l, swatches)
    decreases l
  {
    var once := Cleaned(l, swatches);
    CleanStyleIdempotent(l.style, swatches);
    CleanTextIdempotent(l.attributedString, swatches);
    ReconcileColorIdempotent(l.backgroundColor, swatches);
    BackgroundRuleAgrees(l.backgroundColor, swatches);
    BackgroundRuleAgrees(ReconcileBackground(l.backgroundColor, swatches), swatches);
    if IsContainer(l.kind) {
      forall i | 0 <= i < |l.layers| ensures Cleaned(once.layers[i], swatches) == once.layers[i] {
        CleanedIdempotent(l.layers[i], swatches);
      }
    }
  }

  /** The layer with every colour replaced by `blank`: what the pass may not change. */
  function Uncoloured(l: Layer, blank: Color): Layer
    decreases l
  {
    l.(layers := seq(|l.layers|, i requires 0 <= i < |l.layers| => Uncoloured(l.layers[i], blank)),
       style := UncolouredStyle(l.style, blank),
       attributedString := match l.attributedString
         case None => None
         case Some(a) => Some(a.(attributes := Map((x: StringAttribute) => x.(color := if x.color.Some? then Some(blank) else None), a.attributes))),
       backgroundColor := blank)
  }

  function UncolouredStyle(s: Style, blank: Color): Style
  {
    s.(fills := MapPresent((f: Fill) => f.(color := blank), s.fills),
       borders := MapPresent((b: Border) => b.(color := blank), s.borders),
       shadows := MapPresent((x: Shadow) => x.(color := blank), s.shadows),
       innerShadows := MapPresent((x: Shadow) => x.(color := blank), s.innerShadows))
  }

  /** Only colour fields change: erase the colours and the layer before and after the
      pass are the same, at every depth. */
  lemma {:induction false} CleanedChangesOnlyColours(l: Layer, swatches: seq<Swatch>, blank: Color)
    ensures Uncoloured(Cleaned(l, swatches), blank) == Uncoloured(l, blank)
    decreases l
  {
    var r := Cleaned(l, swatches);
    MapPresentAbsorb((f: Fill) => ReconcileFill(f, swatches), (f: Fill) => f.(color := blank), l.style.fills);
    MapPresentAbsorb((b: Border) => ReconcileBorder(b, swatches), (b: Border) => b.(color := blank), l.style.borders);
    MapPresentAbsorb((x: Shadow) => ReconcileShadow(x, swatches), (x: Shadow) => x.(color := blank), l.style.shadows);
    MapPresentAbsorb((x: Shadow) => ReconcileShadow(x, swatches), (x: Shadow) => x.(color := blank), l.style.innerShadows);
    if l.attributedString.Some? {
      MapPresentAbsorb((x: StringAttribute) => ReconcileRun(x, swatches),
        (x: StringAttribute) => x.(color := if x.color.Some? then Some(blank) else None),
        Some(l.attributedString.value.attributes));
    }
    forall i | 0 <= i < |l.layers| ensures Uncoloured(r.layers[i], blank) == Uncoloured(l.layers[i], blank) {
      if IsContainer(l.kind) {
        CleanedChangesOnlyColours(l.layers[i], swatches, blank);
      }
    }
  }
}
