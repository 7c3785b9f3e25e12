/** colorsAreEqual, matchingLayerStyle and matchingSwatchForColorInSwatches. */
module Lookups {
  import opened Seqs
  import opened Sketch

  /** colorsAreEqual: the four channels agree; the swatch tag is not compared. */
  function ColorsAreEqual(a: Color, b: Color): (r: bool)
    ensures r <==> a.(swatchID := None) == b.(swatchID := None)
  {
    a.alpha == b.alpha && a.red == b.red && a.green == b.green && a.blue == b.blue
  }

  lemma ColorsAreEqualSymmetric(a: Color, b: Color)
    ensures ColorsAreEqual(a, b) == ColorsAreEqual(b, a)
  {
  }

  /** matchingLayerStyle: the first shared style whose own `do_objectID` is `id`. */
  function MatchingLayerStyle(id: string, styles: seq<SharedStyle>): (r: Option<SharedStyle>)
    ensures r.Some? ==> r.value.id == id
    ensures r.Some? ==> exists k :: 0 <= k < |styles| && styles[k] == r.value &&
                                    (forall m :: 0 <= m < k ==> styles[m].id != id)
    ensures r.None? <==> forall s :: s in styles ==> s.id != id
  {
    First(styles, (s: SharedStyle) => s.id == id)
  }

  /** Only the styles' ids take part in the match: renaming styles or changing their
      values never changes which position matches. */
  lemma MatchingLayerStyleIgnoresNameAndValue(id: string, a: seq<SharedStyle>, b: seq<SharedStyle>)
    requires |a| == |b| && forall i :: 0 <= i < |a| ==> a[i].id == b[i].id
    ensures MatchingLayerStyle(id, a).Some? <==> MatchingLayerStyle(id, b).Some?
    ensures MatchingLayerStyle(id, a).Some? ==>
      FirstIndex(a, (s: SharedStyle) => s.id == id) == FirstIndex(b, (s: SharedStyle) => s.id == id)
  {
    IdIndexAgrees(id, a, b);
  }

  lemma {:induction false} IdIndexAgrees<V>(id: string, a: seq<Named<V>>, b: seq<Named<V>>)
    requires |a| == |b| && forall i :: 0 <= i < |a| ==> a[i].id == b[i].id
    ensures FirstIndex(a, (s: Named<V>) => s.id == id) == FirstIndex(b, (s: Named<V>) => s.id == id)
  {
    if a != [] && a[0].id != id {
      IdIndexAgrees(id, a[1..], b[1..]);
    }
  }

  /** matchingSwatchForColorInSwatches: the first swatch whose `do_objectID` is the
      colour's `swatchID`; a colour without a swatch tag matches nothing. */
  function MatchingSwatch(color: Color, swatches: seq<Swatch>): (r: Option<Swatch>)
    ensures r.Some? ==> color.swatchID == Some(r.value.id)
    ensures r.Some? ==> exists k :: 0 <= k < |swatches| && swatches[k] == r.value &&
                                    (forall m :: 0 <= m < k ==> color.swatchID != Some(swatches[m].id))
    ensures r.None? <==> color.swatchID.None? || forall s :: s in swatches ==> Some(s.id) != color.swatchID
  {
    First(swatches, (s: Swatch) => Some(s.id) == color.swatchID)
  }

  /** The colour's RGBA plays no part in the match: only its swatch tag does. */
  lemma MatchingSwatchIgnoresChannels(a: Color, b: Color, swatches: seq<Swatch>)
    requires a.swatchID == b.swatchID
    ensures MatchingSwatch(a, swatches) == MatchingSwatch(b, swatches)
  {
    FirstIndexCongruent(swatches, (s: Swatch) => Some(s.id) == a.swatchID, (s: Swatch) => Some(s.id) == b.swatchID);
  }
}
