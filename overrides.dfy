/** Override names. An override name is `<path>_<kind>`: the path is a `/`-separated
    list of layer ids inside a symbol, the kind says what is overridden. When a symbol
    master is replaced, the names its instances carry have to follow the new layer ids.
    Two historical versions rename the first path element by layer name
    (new-override-name.ts over a master's direct children, newOverrideName.ts over its
    `sublayers`); the merge pipeline repairs every element of the path instead. */
module Overrides {
  import opened Seqs
  import opened Strings
  import opened Sketch
  import opened Walker

  /** `j` is the first of `layers` with this id. */
  predicate FirstWithID(layers: seq<Layer>, id: string, j: int)
  {
    0 <= j < |layers| && layers[j].id == id && forall m :: 0 <= m < j ==> layers[m].id != id
  }

  /** `k` is the first of `layers` with this name. */
  predicate FirstWithName(layers: seq<Layer>, name: string, k: int)
  {
    0 <= k < |layers| && layers[k].name == name && forall m :: 0 <= m < k ==> layers[m].name != name
  }

  /** The tests of the two `filter` calls. */
  function WithID(id: string): Layer -> bool
  {
    (l: Layer) => l.id == id
  }

  function WithName(name: string): Layer -> bool
  {
    (l: Layer) => l.name == name
  }

  /** The first layer with an id, in the terms of `FirstIndex`. */
  lemma FirstWithIDIndex(layers: seq<Layer>, id: string)
    ensures forall j :: FirstWithID(layers, id, j) <==> FirstIndex(layers, WithID(id)) == Some(j)
  {
    var p := WithID(id);
    forall j | FirstWithID(layers, id, j) ensures FirstIndex(layers, p) == Some(j) {
      assert p(layers[j]);
    }
  }

  /** The first layer with a name, in the terms of `FirstIndex`. */
  lemma FirstWithNameIndex(layers: seq<Layer>, name: string)
    ensures forall k :: FirstWithName(layers, name, k) <==> FirstIndex(layers, WithName(name)) == Some(k)
  {
    var p := WithName(name);
    forall k | FirstWithName(layers, name, k) ensures FirstIndex(layers, p) == Some(k) {
      assert p(layers[k]);
    }
  }

  /** The id of the layer in `newLayers` that takes over from the layer named by the
      override: the first layer of `oldLayers` with the override's id gives a name, and the
      first layer of `newLayers` with that name gives the id. */
  function CounterpartID(oldName: string, oldLayers: seq<Layer>, newLayers: seq<Layer>): (r: Option<string>)
    ensures r.Some? ==>
      exists j, k :: 0 <= j < |oldLayers| && 0 <= k < |newLayers| &&
        oldLayers[j].id == Head(oldName, '_') && newLayers[k].name == oldLayers[j].name && newLayers[k].id == r.value
    ensures (forall j :: 0 <= j < |oldLayers| ==> oldLayers[j].id != Head(oldName, '_')) ==> r.None?
    ensures r.Some? <==>
      exists j, k :: FirstWithID(oldLayers, Head(oldName, '_'), j) && FirstWithName(newLayers, oldLayers[j].name, k)
    ensures forall j, k :: FirstWithID(oldLayers, Head(oldName, '_'), j) && FirstWithName(newLayers, oldLayers[j].name, k) ==>
      r == Some(newLayers[k].id)
  {
    var oldLayerID := Head(oldName, '_');
    FirstWithIDIndex(oldLayers, oldLayerID);
    match First(oldLayers, WithID(oldLayerID))
    case None => None
    case Some(oldLayer) =>
      FirstWithNameIndex(newLayers, oldLayer.name);
      match First(newLayers, WithName(oldLayer.name))
      case None => None
      case Some(newLayer) => Some(newLayer.id)
  }

  /** The renamed override: the counterpart's id, `_`, and the old kind (the text
      `undefined` when the old name had no `_`); the old name when there is no
      counterpart or its id is empty. */
  function RenameOverride(oldName: string, oldLayers: seq<Layer>, newLayers: seq<Layer>): (r: string)
    ensures CounterpartID(oldName, oldLayers, newLayers).None? ==> r == oldName
    ensures forall j, k :: FirstWithID(oldLayers, Head(oldName, '_'), j) && FirstWithName(newLayers, oldLayers[j].name, k) ==>
      r == if newLayers[k].id == "" then oldName else newLayers[k].id + "_" + Stringify(Second(oldName, '_'))
  {
    var newLayerID := CounterpartID(oldName, oldLayers, newLayers);
    if newLayerID.None? || newLayerID.value == "" then oldName
    else newLayerID.value + "_" + Stringify(Second(oldName, '_'))
  }

  /** new-override-name.ts: the layers searched are the masters' direct children. */
  function NewOverrideName(oldName: string, newSymbol: Layer, oldSymbol: Layer): (r: string)
    ensures (forall j :: 0 <= j < |oldSymbol.layers| ==> oldSymbol.layers[j].id != Head(oldName, '_')) ==> r == oldName
    ensures (forall j, k :: !(FirstWithID(oldSymbol.layers, Head(oldName, '_'), j) &&
                              FirstWithName(newSymbol.layers, oldSymbol.layers[j].name, k))) ==>
      r == oldName
    ensures forall j, k :: FirstWithID(oldSymbol.layers, Head(oldName, '_'), j) &&
                           FirstWithName(newSymbol.layers, oldSymbol.layers[j].name, k) && newSymbol.layers[k].id != "" ==>
      r == newSymbol.layers[k].id + "_" + Stringify(Second(oldName, '_'))
    ensures forall j, k :: FirstWithID(oldSymbol.layers, Head(oldName, '_'), j) &&
                           FirstWithName(newSymbol.layers, oldSymbol.layers[j].name, k) && newSymbol.layers[k].id == "" ==>
      r == oldName
  {
    RenameOverride(oldName, oldSymbol.layers, newSymbol.layers)
  }

  /** newOverrideName.ts: the layers searched are `sublayers` of each master, a helper
      that is not part of this model and is taken as a parameter. */
  function NewOverrideNameInSublayers(oldName: string, newSymbol: Layer, oldSymbol: Layer, sublayers: Layer -> seq<Layer>): (r: string)
    ensures (forall j :: 0 <= j < |sublayers(oldSymbol)| ==> sublayers(oldSymbol)[j].id != Head(oldName, '_')) ==> r == oldName
    ensures (forall j, k :: !(FirstWithID(sublayers(oldSymbol), Head(oldName, '_'), j) &&
                              FirstWithName(sublayers(newSymbol), sublayers(oldSymbol)[j].name, k))) ==>
      r == oldName
    ensures forall j, k :: FirstWithID(sublayers(oldSymbol), Head(oldName, '_'), j) &&
                           FirstWithName(sublayers(newSymbol), sublayers(oldSymbol)[j].name, k) && sublayers(newSymbol)[k].id != "" ==>
      r == sublayers(newSymbol)[k].id + "_" + Stringify(Second(oldName, '_'))
    ensures forall j, k :: FirstWithID(sublayers(oldSymbol), Head(oldName, '_'), j) &&
                           FirstWithName(sublayers(newSymbol), sublayers(oldSymbol)[j].name, k) && sublayers(newSymbol)[k].id == "" ==>
      r == oldName
  {
    RenameOverride(oldName, sublayers(oldSymbol), sublayers(newSymbol))
  }

  /** A renamed override keeps its kind and names the counterpart layer: splitting it on
      `_` gives exactly the new id and the old kind, whatever followed a second `_` in
      the old name being dropped. Layer ids are taken to hold no `_`. */
  lemma {:induction false} RenameKeepsKind(oldName: string, oldLayers: seq<Layer>, newLayers: seq<Layer>)
    requires forall k :: 0 <= k < |newLayers| ==> '_' !in newLayers[k].id
    ensures var r := RenameOverride(oldName, oldLayers, newLayers);
      r != oldName ==>
        Split(r, '_') == [Head(r, '_'), Stringify(Second(oldName, '_'))] &&
        Second(r, '_') == Some(Stringify(Second(oldName, '_'))) &&
        exists j, k :: 0 <= j < |oldLayers| && 0 <= k < |newLayers| &&
          oldLayers[j].id == Head(oldName, '_') && newLayers[k].name == oldLayers[j].name && newLayers[k].id == Head(r, '_')
  {
    var r := RenameOverride(oldName, oldLayers, newLayers);
    if r != oldName {
      var id := CounterpartID(oldName, oldLayers, newLayers).value;
      var kind := Stringify(Second(oldName, '_'));
      var j, k :| 0 <= j < |oldLayers| && 0 <= k < |newLayers| &&
        oldLayers[j].id == Head(oldName, '_') && newLayers[k].name == oldLayers[j].name && newLayers[k].id == id;
      assert '_' !in id;
      KindAvoidsUnderscore(oldName);
      PairSplits(id, kind);
    }
  }

  /** `<id>_<kind>` splits back into the id and the kind when neither holds `_`. */
  lemma PairSplits(id: string, kind: string)
    requires '_' !in id && '_' !in kind
    ensures var r := id + "_" + kind;
      Split(r, '_') == [id, kind] && Head(r, '_') == id && Second(r, '_') == Some(kind)
  {
    var parts := [id, kind];
    JoinPair(id, kind, '_');
    forall i | 0 <= i < |parts| ensures '_' !in parts[i] {
      assert parts[i] == if i == 0 then id else kind;
    }
    SplitJoin(parts, '_');
  }

  // The override repair of the merge pipeline.

  /** The new id for one path element: none when the element is one of the master's
      layer ids; otherwise the first layer of the output with the name of the source
      layer that has the element as its id, when both exist. */
  function RepairedComponent(component: string, layerIDs: seq<string>, sourcePages: seq<Page>, outputPages: seq<Page>): (r: Option<string>)
    ensures component in layerIDs ==> r.None?
    ensures GetElementByID(component, sourcePages).None? ==> r.None?
    ensures r.Some? ==>
      exists k :: 0 <= k < |Flatten(outputPages)| && Flatten(outputPages)[k].id == r.value &&
        Flatten(outputPages)[k].name == GetElementByID(component, sourcePages).value.name
  {
    if component in layerIDs then None
    else
      match GetElementByID(component, sourcePages)
      case None => None
      case Some(original) =>
        match First(Flatten(outputPages), WithName(original.name))
        case None => None
        case Some(counterpart) => Some(counterpart.id)
  }

  /** An element is replaced exactly when it is not one of the master's ids, the source
      has a layer with it as id, and the output has a layer with that layer's name; the
      replacement is then the id of the first such output layer. */
  lemma RepairedComponentFirst(component: string, layerIDs: seq<string>, sourcePages: seq<Page>, outputPages: seq<Page>)
    ensures var r := RepairedComponent(component, layerIDs, sourcePages, outputPages);
      r.Some? <==>
        component !in layerIDs && GetElementByID(component, sourcePages).Some? &&
        exists k :: FirstWithName(Flatten(outputPages), GetElementByID(component, sourcePages).value.name, k)
    ensures forall k ::
      (component !in layerIDs && GetElementByID(component, sourcePages).Some? &&
       FirstWithName(Flatten(outputPages), GetElementByID(component, sourcePages).value.name, k)) ==>
        RepairedComponent(component, layerIDs, sourcePages, outputPages) == Some(Flatten(outputPages)[k].id)
  {
    if component !in layerIDs && GetElementByID(component, sourcePages).Some? {
      var name := GetElementByID(component, sourcePages).value.name;
      FirstWithNameIndex(Flatten(outputPages), name);
      var found := FirstIndex(Flatten(outputPages), WithName(name));
      if found.Some? {
        assert RepairedComponent(component, layerIDs, sourcePages, outputPages) == Some(Flatten(outputPages)[found.value].id);
      } else {
        assert RepairedComponent(component, layerIDs, sourcePages, outputPages).None?;
      }
    }
  }

  /** An element with its repair applied. */
  function Patched(component: string, repair: Option<string>): string
  {
    match repair
    case None => component
    case Some(id) => id
  }

  /** The path elements after the repair. */
  function RepairedComponents(components: seq<string>, layerIDs: seq<string>, sourcePages: seq<Page>, outputPages: seq<Page>): (r: seq<string>)
    ensures |r| == |components|
    ensures forall i :: 0 <= i < |components| ==>
      r[i] == Patched(components[i], RepairedComponent(components[i], layerIDs, sourcePages, outputPages))
  {
    seq(|components|, i requires 0 <= i < |components| =>
      Patched(components[i], RepairedComponent(components[i], layerIDs, sourcePages, outputPages)))
  }

  /** Some element of the path has a replacement. */
  predicate AnyRepaired(components: seq<string>, layerIDs: seq<string>, sourcePages: seq<Page>, outputPages: seq<Page>)
  {
    Any(components, Repairable(layerIDs, sourcePages, outputPages))
  }

  function Repairable(layerIDs: seq<string>, sourcePages: seq<Page>, outputPages: seq<Page>): string -> bool
  {
    (component: string) => RepairedComponent(component, layerIDs, sourcePages, outputPages).Some?
  }

  /** Some element is repaired iff one of them has a replacement. */
  lemma AnyRepairedSome(components: seq<string>, layerIDs: seq<string>, sourcePages: seq<Page>, outputPages: seq<Page>)
    ensures AnyRepaired(components, layerIDs, sourcePages, outputPages) <==>
      exists i :: 0 <= i < |components| && RepairedComponent(components[i], layerIDs, sourcePages, outputPages).Some?
  {
    var p := Repairable(layerIDs, sourcePages, outputPages);
    assert forall i :: 0 <= i < |components| ==>
      (p(components[i]) <==> RepairedComponent(components[i], layerIDs, sourcePages, outputPages).Some?);
  }

  /** The override name after the repair: rebuilt from the repaired path and the old
      kind when an element changed, as it was otherwise. */
  function RepairedOverrideName(name: string, layerIDs: seq<string>, sourcePages: seq<Page>, outputPages: seq<Page>): string
  {
    var components := Split(Head(name, '_'), '/');
    if AnyRepaired(components, layerIDs, sourcePages, outputPages) then
      Join(RepairedComponents(components, layerIDs, sourcePages, outputPages), '/') + "_" + Stringify(Second(name, '_'))
    else name
  }

  /** A name none of whose path elements has a replacement is kept. */
  lemma UnrepairedNameKept(name: string, layerIDs: seq<string>, sourcePages: seq<Page>, outputPages: seq<Page>)
    requires forall c :: c in Split(Head(name, '_'), '/') ==> RepairedComponent(c, layerIDs, sourcePages, outputPages).None?
    ensures RepairedOverrideName(name, layerIDs, sourcePages, outputPages) == name
  {
    var components := Split(Head(name, '_'), '/');
    AnyRepairedSome(components, layerIDs, sourcePages, outputPages);
    assert !AnyRepaired(components, layerIDs, sourcePages, outputPages);
  }

  /** Once a path element has a replacement, the name is rebuilt from the repaired
      elements, `_`, and the old kind. */
  lemma RepairedNameRebuilt(name: string, layerIDs: seq<string>, sourcePages: seq<Page>, outputPages: seq<Page>, i: nat)
    requires i < |Split(Head(name, '_'), '/')|
    requires RepairedComponent(Split(Head(name, '_'), '/')[i], layerIDs, sourcePages, outputPages).Some?
    ensures RepairedOverrideName(name, layerIDs, sourcePages, outputPages) ==
      Join(RepairedComponents(Split(Head(name, '_'), '/'), layerIDs, sourcePages, outputPages), '/') + "_" + Stringify(Second(name, '_'))
  {
    var components := Split(Head(name, '_'), '/');
    AnyRepairedSome(components, layerIDs, sourcePages, outputPages);
    assert AnyRepaired(components, layerIDs, sourcePages, outputPages);
  }

  /** The `forEach` over the path elements, with its `updateOverride` flag. */
  method RepairOverrideName(name: string, layerIDs: seq<string>, sourcePages: seq<Page>, outputPages: seq<Page>) returns (r: string)
    ensures r == RepairedOverrideName(name, layerIDs, sourcePages, outputPages)
  {
    var components := Split(Head(name, '_'), '/');
    ghost var original := components;
    var overrideType := Second(name, '_');
    var updateOverride := false;
    for index := 0 to |components|
      invariant |components| == |original|
      invariant forall i :: 0 <= i < index ==> components[i] == Patched(original[i], RepairedComponent(original[i], layerIDs, sourcePages, outputPages))
      invariant forall i :: index <= i < |components| ==> components[i] == original[i]
      invariant updateOverride <==> AnyRepaired(original[..index], layerIDs, sourcePages, outputPages)
    {
      var replacement := RepairedComponent(components[index], layerIDs, sourcePages, outputPages);
      assert replacement == RepairedComponent(original[index], layerIDs, sourcePages, outputPages);
      AnyStep(original, index, Repairable(layerIDs, sourcePages, outputPages));
      if replacement.Some? {
        components := components[index := replacement.value];
        updateOverride := true;
      }
    }
    assert original[..|original|] == original;
    AnyRepairedSome(original, layerIDs, sourcePages, outputPages);
    if updateOverride {
      assert components == RepairedComponents(original, layerIDs, sourcePages, outputPages);
      r := Join(components, '/') + "_" + Stringify(overrideType);
    } else {
      r := name;
    }
  }


  /** A name whose path elements are all ids of the master's layers is left alone. */
  lemma KnownPathUnchanged(name: string, layerIDs: seq<string>, sourcePages: seq<Page>, outputPages: seq<Page>)
    requires forall c :: c in Split(Head(name, '_'), '/') ==> c in layerIDs
    ensures RepairedOverrideName(name, layerIDs, sourcePages, outputPages) == name
  {
  }

  /** No repaired path component holds a separator: an unrepaired one is a piece of the
      name's head, a repaired one is the id of an output layer. */
  lemma RepairedPiecesAvoid(name: string, components: seq<string>, layerIDs: seq<string>, sourcePages: seq<Page>, outputPages: seq<Page>)
    requires components == Split(Head(name, '_'), '/')
    requires forall l :: l in Flatten(outputPages) ==> '/' !in l.id && '_' !in l.id
    ensures var repaired := RepairedComponents(components, layerIDs, sourcePages, outputPages);
      forall i :: 0 <= i < |repaired| ==> '/' !in repaired[i] && '_' !in repaired[i]
  {
    var repaired := RepairedComponents(components, layerIDs, sourcePages, outputPages);
    forall i | 0 <= i < |repaired| ensures '/' !in repaired[i] && '_' !in repaired[i] {
      assert '_' !in components[i] by { SplitPiecesAvoid(Head(name, '_'), '/', '_', i); }
      match RepairedComponent(components[i], layerIDs, sourcePages, outputPages)
      case None =>
      case Some(id) =>
        var k :| 0 <= k < |Flatten(outputPages)| && Flatten(outputPages)[k].id == id;
        assert Flatten(outputPages)[k] in Flatten(outputPages);
    }
  }

  /** A repaired name keeps the number of path elements, keeps every element that was
      one of the master's layer ids, and keeps the kind. Layer ids are taken to hold
      neither `/` nor `_`. */
  lemma RepairKeepsShape(name: string, layerIDs: seq<string>, sourcePages: seq<Page>, outputPages: seq<Page>)
    requires forall l :: l in Flatten(outputPages) ==> '/' !in l.id && '_' !in l.id
    ensures var components := Split(Head(name, '_'), '/');
      var r := RepairedOverrideName(name, layerIDs, sourcePages, outputPages);
      var path := Split(Head(r, '_'), '/');
      path == RepairedComponents(components, layerIDs, sourcePages, outputPages) &&
      |path| == |components| &&
      (forall i :: 0 <= i < |components| && components[i] in layerIDs ==> path[i] == components[i]) &&
      (r != name ==> Second(r, '_') == Some(Stringify(Second(name, '_'))))
  {
    var components := Split(Head(name, '_'), '/');
    var r := RepairedOverrideName(name, layerIDs, sourcePages, outputPages);
    if AnyRepaired(components, layerIDs, sourcePages, outputPages) {
      var repaired := RepairedComponents(components, layerIDs, sourcePages, outputPages);
      RepairedPiecesAvoid(name, components, layerIDs, sourcePages, outputPages);
      KindAvoidsUnderscore(name);
      RebuiltName(repaired, Stringify(Second(name, '_')));
    }
  }

  /** A name rebuilt from separator-free path elements and a kind without `_` splits
      back into those elements and that kind. */
  lemma RebuiltName(repaired: seq<string>, kind: string)
    requires |repaired| >= 1
    requires forall i :: 0 <= i < |repaired| ==> '/' !in repaired[i] && '_' !in repaired[i]
    requires '_' !in kind
    ensures var r := Join(repaired, '/') + "_" + kind;
      Split(Head(r, '_'), '/') == repaired && Second(r, '_') == Some(kind)
  {
    var path := Join(repaired, '/');
    var r := path + "_" + kind;
    var parts := [path, kind];
    JoinAvoids(repaired, '/', '_');
    JoinPair(path, kind, '_');
    assert r == Join(parts, '_');
    forall i | 0 <= i < |parts| ensures '_' !in parts[i] {
      assert parts[i] == if i == 0 then path else kind;
    }
    SplitJoin(parts, '_');
    assert Head(r, '_') == path;
    SplitJoin(repaired, '/');
  }

  /** The kind part of an override name, or `undefined`, holds no `_`. */
  lemma KindAvoidsUnderscore(name: string)
    ensures '_' !in Stringify(Second(name, '_'))
  {
  }

  /** Joining pieces that avoid a character gives a text that avoids it, when the
      separator is a different character. */
  lemma {:induction false} JoinAvoids(parts: seq<string>, sep: char, c: char)
    requires c != sep && forall i :: 0 <= i < |parts| ==> c !in parts[i]
    ensures c !in Join(parts, sep)
  {
    if |parts| > 1 {
      JoinAvoids(parts[1..], sep, c);
      assert Join(parts, sep) == parts[0] + [sep] + Join(parts[1..], sep);
    }
  }

  /** The ids of these layers, in order. */
  function LayerIDs(layers: seq<Layer>): (r: seq<string>)
    ensures |r| == |layers| && forall i :: 0 <= i < |layers| ==> r[i] == layers[i].id
  {
    Map((l: Layer) => l.id, layers)
  }

  /** The instance after the repair: when it has overrides and a local master,
      `getSymbolMaster` in the output, every override name is repaired against the ids of
      that master's `sublayers`. */
  function RepairInstance(instance: Layer, outputPages: seq<Page>, sourcePages: seq<Page>, sublayers: Layer -> seq<Layer>): (r: Layer)
    ensures r == instance.(overrideValues := r.overrideValues)
    ensures |r.overrideValues| == |instance.overrideValues|
    ensures forall i :: 0 <= i < |instance.overrideValues| ==>
      r.overrideValues[i].value == instance.overrideValues[i].value
    ensures SymbolMasterFor(instance, outputPages).None? ==> r == instance
    ensures SymbolMasterFor(instance, outputPages).Some? ==>
      forall i :: 0 <= i < |instance.overrideValues| ==>
        r.overrideValues[i].overrideName ==
          RepairedOverrideName(instance.overrideValues[i].overrideName,
            LayerIDs(sublayers(SymbolMasterFor(instance, outputPages).value)), sourcePages, outputPages)
  {
    if |instance.overrideValues| == 0 then instance
    else
      match SymbolMasterFor(instance, outputPages)
      case None => instance
      case Some(master) =>
        var layerIDs := LayerIDs(sublayers(master));
        instance.(overrideValues := Map((o: OverrideValue) =>
          o.(overrideName := RepairedOverrideName(o.overrideName, layerIDs, sourcePages, outputPages)), instance.overrideValues))
  }
}
