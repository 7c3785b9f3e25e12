/** resetStyle: every layer bound to a shared style gets that style's keys copied back
    into its own style. */
module Restyle {
  import opened Seqs
  import opened Sketch
  import opened Lookups

  /** `layer.style[key] = value[key]` for a key the canonical value may lack. */
  function Pick<T>(canonical: Option<T>, own: Option<T>): (r: Option<T>)
    ensures canonical.Some? ==> r == canonical
    ensures canonical.None? ==> r == own
  {
    if canonical.Some? then canonical else own
  }

  /** The `Object.keys(matchingStyle.value).forEach` loop: every key of the shared
      style's value except `do_objectID` is copied, and `do_objectID` becomes the shared
      style's own id (a style value always has keys, so the loop body runs). */
  function CopyStyle(own: Style, shared: SharedStyle): (r: Style)
    ensures r.id == shared.id
    ensures r.fills == Pick(shared.value.fills, own.fills) && r.borders == Pick(shared.value.borders, own.borders)
    ensures r.shadows == Pick(shared.value.shadows, own.shadows) && r.innerShadows == Pick(shared.value.innerShadows, own.innerShadows)
    ensures r.textStyle == Pick(shared.value.textStyle, own.textStyle)
    ensures forall k :: k in shared.value.extra && k != "do_objectID" ==> k in r.extra && r.extra[k] == shared.value.extra[k]
    ensures forall k :: k in own.extra && k !in shared.value.extra ==> k in r.extra && r.extra[k] == own.extra[k]
    ensures r.extra.Keys <= own.extra.Keys + shared.value.extra.Keys
  {
    Style(shared.id,
      Pick(shared.value.fills, own.fills),
      Pick(shared.value.borders, own.borders),
      Pick(shared.value.shadows, own.shadows),
      Pick(shared.value.innerShadows, own.innerShadows),
      Pick(shared.value.textStyle, own.textStyle),
      own.extra + Copied(shared.value.extra))
  }

  /** `if (layer.sharedStyleID)`: set and not the empty string. */
  predicate HasSharedStyle(l: Layer)
  {
    l.sharedStyleID.Some? && l.sharedStyleID.value != ""
  }

  /** The layer after resetStyle: children of symbol masters, artboards and groups
      first, at every depth; then, when the layer's shared style resolves, its keys. */
  function Reset(l: Layer, styles: seq<SharedStyle>): (r: Layer)
    ensures r.kind == l.kind && |r.layers| == |l.layers| && r.sharedStyleID == l.sharedStyleID
    ensures IsContainer(l.kind) ==> forall i :: 0 <= i < |l.layers| ==> r.layers[i] == Reset(l.layers[i], styles)
    ensures !IsContainer(l.kind) ==> r.layers == l.layers
    ensures !HasSharedStyle(l) || MatchingLayerStyle(l.sharedStyleID.value, styles).None? ==>
      r == l.(layers := r.layers)
    ensures HasSharedStyle(l) && MatchingLayerStyle(l.sharedStyleID.value, styles).Some? ==>
      r == l.(layers := r.layers, style := CopyStyle(l.style, MatchingLayerStyle(l.sharedStyleID.value, styles).value))
    decreases l
  {
    var children := if IsContainer(l.kind) then seq(|l.layers|, i requires 0 <= i < |l.layers| => Reset(l.layers[i], styles)) else l.layers;
    var l' := l.(layers := children);
    if !HasSharedStyle(l') then l'
    else
      match MatchingLayerStyle(l'.sharedStyleID.value, styles)
      case None => l'
      case Some(shared) => l'.(style := CopyStyle(l'.style, shared), sharedStyleID := Some(shared.id))
  }

  /** resetStyle. */
  method ResetStyle(layer: Layer, styles: seq<SharedStyle>) returns (r: Layer)
    ensures r == Reset(layer, styles)
    decreases layer
  {
    r := layer;
    if IsContainer(layer.kind) {
      var children := layer.layers;
      var i := 0;
      while i < |children|
        invariant 0 <= i <= |children| == |layer.layers|
        invariant forall k :: 0 <= k < i ==> children[k] == Reset(layer.layers[k], styles)
        invariant forall k :: i <= k < |children| ==> children[k] == layer.layers[k]
      {
        var sublayer := ResetStyle(layer.layers[i], styles);
        children := children[i := sublayer];
        i := i + 1;
      }
      r := r.(layers := children);
    }
    if r.sharedStyleID.Some? && r.sharedStyleID.value != "" {
      var matchingStyle := MatchingLayerStyle(r.sharedStyleID.value, styles);
      if matchingStyle.Some? {
        var style := CopyStyleKeys(r.style, matchingStyle.value);
        r := r.(style := style, sharedStyleID := Some(matchingStyle.value.id));
      }
    }
  }

  /** The key loop, over the keys the style datatype names and then the others. */
  method CopyStyleKeys(own: Style, shared: SharedStyle) returns (style: Style)
    ensures style == CopyStyle(own, shared)
  {
    var value := shared.value;
    style := own;
    if value.fills.Some? { style := style.(fills := value.fills); }
    if value.borders.Some? { style := style.(borders := value.borders); }
    if value.shadows.Some? { style := style.(shadows := value.shadows); }
    if value.innerShadows.Some? { style := style.(innerShadows := value.innerShadows); }
    if value.textStyle.Some? { style := style.(textStyle := value.textStyle); }
    var extra := CopyExtraKeys(own.extra, value.extra);
    style := style.(id := shared.id, extra := extra);
  }

  /** The keys outside the style datatype's named fields, one at a time. */
  method CopyExtraKeys(own: map<string, Prop>, value: map<string, Prop>) returns (extra: map<string, Prop>)
    ensures extra == own + Copied(value)
  {
    var keys := value.Keys;
    extra := own;
    while keys != {}
      invariant keys <= value.Keys
      invariant extra == own + Copied(value - keys)
      decreases keys
    {
      var key :| key in keys;
      if key != "do_objectID" {
        CopiedStep(value, keys, key);
        extra := extra[key := value[key]];
      }
      keys := keys - {key};
    }
    assert value - keys == value;
  }

  /** The keys of a style value the reset copies: all but `do_objectID`. */
  function Copied(value: map<string, Prop>): (r: map<string, Prop>)
    ensures forall k :: k in r <==> k in value && k != "do_objectID"
    ensures forall k :: k in r ==> r[k] == value[k]
  {
    map k | k in value && k != "do_objectID" :: value[k]
  }

  lemma CopiedStep(value: map<string, Prop>, keys: set<string>, key: string)
    requires key in keys && key in value && key != "do_objectID"
    ensures Copied(value - (keys - {key})) == Copied(value - keys)[key := value[key]]
  {
  }

  /** After a reset, a layer bound to a resolving style agrees with it on every key the
      style has, and carries the style's id. */
  predicate AgreesWith(s: Style, shared: SharedStyle)
  {
    s.id == shared.id &&
    (shared.value.fills.Some? ==> s.fills == shared.value.fills) &&
    (shared.value.borders.Some? ==> s.borders == shared.value.borders) &&
    (shared.value.shadows.Some? ==> s.shadows == shared.value.shadows) &&
    (shared.value.innerShadows.Some? ==> s.innerShadows == shared.value.innerShadows) &&
    (shared.value.textStyle.Some? ==> s.textStyle == shared.value.textStyle) &&
    (forall k :: k in shared.value.extra && k != "do_objectID" ==> k in s.extra && s.extra[k] == shared.value.extra[k])
  }

  lemma ResetEstablishesAgreement(l: Layer, styles: seq<SharedStyle>)
    requires HasSharedStyle(l) && MatchingLayerStyle(l.sharedStyleID.value, styles).Some?
    ensures AgreesWith(Reset(l, styles).style, MatchingLayerStyle(l.sharedStyleID.value, styles).value)
  {
  }

  /** Every layer of a tree that is bound to a resolving style agrees with it, at every
      depth the reset reaches: the layer itself and, inside symbol masters, artboards
      and groups, its children. */
  predicate AgreesBelow(l: Layer, styles: seq<SharedStyle>)
    decreases l
  {
    (HasSharedStyle(l) && MatchingLayerStyle(l.sharedStyleID.value, styles).Some? ==>
      AgreesWith(l.style, MatchingLayerStyle(l.sharedStyleID.value, styles).value)) &&
    (IsContainer(l.kind) ==> forall i :: 0 <= i < |l.layers| ==> AgreesBelow(l.layers[i], styles))
  }

  /** After resetStyle every bound layer of the tree agrees with its shared style. */
  lemma {:induction false} ResetAgreesEverywhere(l: Layer, styles: seq<SharedStyle>)
    ensures AgreesBelow(Reset(l, styles), styles)
    decreases l
  {
    var r := Reset(l, styles);
    if IsContainer(l.kind) {
      forall i | 0 <= i < |l.layers| ensures AgreesBelow(r.layers[i], styles) {
        ResetAgreesEverywhere(l.layers[i], styles);
      }
    }
  }

  /** Copying a style a second time changes nothing. */
  lemma CopyStyleIdempotent(own: Style, shared: SharedStyle)
    ensures CopyStyle(CopyStyle(own, shared), shared) == CopyStyle(own, shared)
  {
    var once := CopyStyle(own, shared);
    var twice := CopyStyle(once, shared);
    assert twice.extra == once.extra;
  }

  /** resetStyle is idempotent. */
  lemma {:induction false} ResetIdempotent(l: Layer, styles: seq<SharedStyle>)
    ensures Reset(Reset(l, styles), styles) == Reset(l, styles)
    decreases l
  {
    var once := Reset(l, styles);
    if IsContainer(l.kind) {
      forall i | 0 <= i < |l.layers| ensures Reset(once.layers[i], styles) == once.layers[i] {
        ResetIdempotent(l.layers[i], styles);
      }
    }
    if HasSharedStyle(l) && MatchingLayerStyle(l.sharedStyleID.value, styles).Some? {
      CopyStyleIdempotent(l.style, MatchingLayerStyle(l.sharedStyleID.value, styles).value);
    }
  }
}
