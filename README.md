# sketch-fusion merge engine, modelled in Dafny

sketch-fusion merges a *theme* Sketch document into a *source* document. It takes
the theme's colour swatches, shared layer styles, shared text styles and symbol
masters. Then it re-synchronises every layer that refers to them:

- swatch-tagged colours take the swatch's current value;
- layers bound to a shared style get the style's keys copied back;
- `{{key}}` placeholders in text are replaced by data;
- orphaned text layers are rebound to a text style of the same name;
- override paths of symbol instances are rewritten to point at the injected masters.

The model covers the in-memory engine:

- **Tree walker and lookups** (`Walker`, `Lookups`): `allLayers`, which flattens the
  page/layer tree two levels deep, the filters and searches built on it, and the
  shared-style and swatch lookups.
- **Collection mergers** (`Collections`): `mergeColors`, `mergeLayerStyles`,
  `mergeStyles` and `mergeTextStyles`, together with the `mergeStyles` and
  `mergeColors` of `src/index.ts`. These are name-keyed merges that differ in how they
  treat ids. The lists they change in place are `ObjectList` objects, and a container
  (`Container`) holds a reference to one.
- **Re-sync passes** (`Recolor`, `Restyle`, `Dynamic`): `cleanupColorsInLayer`,
  `resetStyle` and `injectDynamicData`. Each is a recursive method proved equal to a
  recursive function, and the lemmas are proved about that function.
- **Symbol injection and override names** (`Inject`, `Overrides`):
  - `injectSymbol.ts` replaces the first same-named master anywhere in allLayers;
  - `inject-symbol.ts` replaces every same-named top-level master;
  - `injectSymbol` in `index.ts` overwrites only the keys the master already has;
  - the two override-name rewriters;
  - the override-path repair of `mergeDocuments.ts`.
- **Orchestrators** (`Merge`): `mergeDocuments` of `mergeDocuments.ts` and the older
  `mergeDocuments` of `index.ts`. They are methods on `SketchFile` objects, and each
  pass is proved against a function of the documents as they were before the merge.

Layers, pages, styles and swatches are values (datatypes). A layer records which of its optional keys are own properties holding `undefined` (`undefinedKeys`). Such a key reads as absent, but it is still visited by a `for...in` over the layer's own keys. A parsed document has none; copying keys in place, as `injectSymbol` does, can leave one behind. A document (`SketchFile`)
is an object whose `pages` field the passes reassign. The JavaScript passes mutate
shared layer objects through `allLayers(...).forEach`. `Walker.ApplyToEntries` models
that pass: each top-level entry is processed with its children, and then each direct
child is processed once more as an entry of its own.

Where the source throws a `TypeError`, the model returns `None` or `ok == false`
instead. Examples are a text layer without an attributed string, or a text style
without a `textStyle`. The contract then states exactly when that happens.

## Model

| member | source | states |
|---|---|---|
| Walker.AllLayers | src/allLayers.ts:3-20 | the result is the two-level flattening of the pages; the document is not modified |
| Walker.PushPage | src/allLayers.ts:5-16 | one page's pass appends that page's entries: each top-level layer, then its direct children |
| Walker.PushLayer | src/allLayers.ts:8-15 | one top-level layer appends itself, then its children when it is an artboard, symbol master or group |
| Walker.FlattenAppend | src/allLayers.ts:5-7 | pages are visited in order: flattening a concatenation of pages is the concatenation of their flattenings |
| Walker.FlattenLength | src/allLayers.ts:6-16 | the length is the sum over top-level layers of 1, plus the child count for an artboard, symbol master or group |
| Walker.Layout | src/allLayers.ts:5-16 | each top-level layer is emitted at its offset, followed immediately by its direct children, and the next top-level layer comes right after them |
| Walker.FlattenAround | src/allLayers.ts:5-16 | allLayers splits into the entries before a top-level layer, that layer's own entries, and the entries after it |
| Walker.NextTopOffset | src/allLayers.ts:8-15 | the next top-level layer's entries start right after this one's |
| Walker.PageBoundaries | src/allLayers.ts:5-16 | a page's entries start after all entries of the earlier pages, and the last page's end is the end of the result |
| Walker.PosOf | src/allLayers.ts:8-15 | every entry is a top-level layer or a direct child of one (never a grandchild), at a position whose offset is the entry's index |
| Walker.EntryAt | src/allLayers.ts:6-15 | every top-level layer and every direct child of a container is an entry, at its computed offset |
| Walker.AllSymbolMasters | src/allSymbolMasters.ts:5-15 | the result is exactly the symbol-master entries of allLayers, in order; the document is not modified |
| Walker.AllSymbolInstances | src/allSymbolInstances.ts:5-15 | the result is exactly the symbol-instance entries of allLayers, in order; the document is not modified |
| Walker.AllArtboards | src/allArtboards.ts:5-7 | a layer is in the result iff it is an artboard entry of allLayers; the result is no longer than allLayers |
| Walker.AllArtboardsAppend | src/allArtboards.ts:6 | the artboards keep allLayers order: those of earlier pages come first |
| Walker.GetElementByID | src/getElementByID.ts:4-7 | a found layer has the id and is the first entry of allLayers with it; nothing is found iff no entry has the id |
| Walker.GetElementByName | src/getElementByName.ts:5-11 | a found layer has the name and is the first entry with it; nothing is found iff no entry has the name |
| Walker.GetElementsByName | src/getElementByName.ts:13-19 | a layer is in the result iff it is an entry of allLayers with that name |
| Walker.ElementsByNameAppend | src/getElementByName.ts:18 | the matches keep allLayers order |
| Walker.ByNameIsHeadOfAllByName | src/getElementByName.ts:5-19 | getElementByName finds nothing iff getElementsByName is empty, and otherwise finds its first element |
| Walker.SymbolMasterFor | src/getSymbolMaster.ts:5-20 | a found layer is a symbol master of the document with the instance's symbolID |
| Walker.GetSymbolMaster | src/getSymbolMaster.ts:5-20 | the loop over allSymbolMasters, each match overwriting the last, computes `SymbolMasterFor`; nothing is modified |
| Walker.SymbolMasterForIsLast | src/getSymbolMaster.ts:5-20 | the master found is the LAST one in allSymbolMasters order with the instance's symbolID, and nothing is found iff no master has it |
| Walker.ApplyToEntries | src/mergeDocuments.ts:90-93 | an `allLayers(...).forEach` pass keeps the pages and the number of top-level layers, and applies the per-entry visit to each top-level layer |
| Walker.VisitEntries | src/mergeDocuments.ts:90-93 | the document's pages become the result of the pass over the old pages; only `pages` changes |
| Walker.ApplyToEntriesAt | src/mergeDocuments.ts:90-93 | for a pass that keeps the tree shape, a top-level entry is its visited self, and a direct child is processed once more after its parent's own processing |
| Walker.SetLayerAt | src/injectSymbol.ts:30-36 | writing one layer of the tree keeps the other pages, the other top-level layers and the page's id and name, and the position then holds the new layer |
| Walker.SetLayerAtElsewhere | src/injectSymbol.ts:30-36 | writing one layer leaves every other position's layer as it was, except that a parent sees its changed child |
| Lookups.ColorsAreEqual | src/colorsAreEqual.ts:3-13 | true iff the colours agree on every channel; the swatch id is ignored |
| Lookups.ColorsAreEqualSymmetric | src/colorsAreEqual.ts:7-12 | the comparison is symmetric |
| Lookups.MatchingLayerStyle | src/matchingLayerStyle.ts:3-11 | a found style has the id and is the first such in list order; nothing is found iff no style has that id |
| Lookups.MatchingLayerStyleIgnoresNameAndValue | src/matchingLayerStyle.ts:8 | two style lists with the same ids in the same order match at the same index, whatever their names and values |
| Lookups.MatchingSwatch | src/matchingSwatchForColorInSwatches.ts:3-13 | a found swatch's id is the colour's swatchID, and it is the first such swatch; nothing is found iff the colour has no swatchID or no swatch has it |
| Lookups.MatchingSwatchIgnoresChannels | src/matchingSwatchForColorInSwatches.ts:10-11 | two colours with the same swatchID find the same swatch, whatever their RGBA |
| Collections.NameMatch | src/mergeColors.ts:14-16 | a match is the first index of the combined list holding that name; there is none iff no entry has the name |
| Collections.MergeInto | src/mergeStyles.ts:24-45 | the in-place `forEach`: the list becomes the name-keyed merge of the old lists, and the theme entries get the ids the policy assigns |
| Collections.MergeColors | src/mergeColors.ts:3-28 | returns the source container itself, with its list updated to the merge that always adopts the replaced entry's id |
| Collections.MergeColorsWithOption | src/index.ts:144-172 | returns the source container, whose list is the merge that adopts the replaced id only when `reuseStyleID` is set |
| Collections.MergeLayerStyles | src/mergeLayerStyles.ts:3-35 | a new `sharedStyleContainer` whose list is the source's own list, updated to the merge that always adopts the replaced id |
| Collections.MergeStyles | src/mergeStyles.ts:7-47 | a new container of the given class whose list is the source's own list, merged with id reuse only under `reuseStyleID` (also used for the `mergeStyles` of src/index.ts:108-142) |
| Collections.MergeTextStyles | src/mergeTextStyles.ts:5-43 | a new `sharedTextStyleContainer` on a fresh list holding the renaming merge of copies; neither document's text styles change |
| Collections.LayersUsingStyle | src/mergeTextStyles.ts:45-50 | a layer is in the result iff it is a text entry of allLayers bound to that style id |
| Collections.MergeEntry | src/mergeColors.ts:13-26 | one loop body replaces the first same-named entry or pushes the theme entry, and updates the theme's own entry object alongside |
| Collections.MergeStep | src/mergeStyles.ts:24-45 | one more theme entry merged extends the merge and the adjusted theme list by exactly that entry |
| Collections.MergeOneShape | src/mergeColors.ts:13-26 | one theme entry grows the list by at most one, and an appended entry is the theme entry itself; entries of other names are kept |
| Collections.MergeOneKeepsLabels | src/mergeColors.ts:17-21 | without the text-style tag every position keeps its name, and with id adoption its id |
| Collections.MergeOneTakesEntry | src/mergeColors.ts:13-26 | without the text-style tag the theme entry's name and value are in the list after its step |
| Collections.MergeOneKeeps | src/mergeColors.ts:13-26 | a step keeps an entry of another name at its index |
| Collections.MergeByNameLength | src/mergeColors.ts:17-25 | the merged list is at least as long as the source list and at most as long as both together |
| Collections.MergeKeepsUnmatched | src/mergeColors.ts:13-26 | a source entry whose name no theme entry has keeps its value and index |
| Collections.MergeKeepsNames | src/mergeStyles.ts:24-45 | the source names stay at their indices, and every appended entry carries a theme name |
| Collections.MergeKeepsSourceIDs | src/mergeColors.ts:19-20 | with id adoption, every source index keeps its id and name |
| Collections.ThemeEntryWins | src/mergeColors.ts:13-26 | the last theme entry of each name ends in the result with its value, and unchanged when ids are not reused |
| Collections.MergeKeepsNamesUnique | src/mergeStyles.ts:24-45 | merging into a list with unique names keeps the names unique |
| Collections.MergeAppendsNewNames | src/mergeColors.ts:23-24 | theme entries with new, distinct names are appended in order, and their ids are left alone |
| Collections.KeepOwnIDLeavesThemeAlone | src/mergeStyles.ts:32-38 | without id reuse the theme entries keep their ids |
| Collections.TextStyleReplacement | src/mergeTextStyles.ts:34-39 | a matched text style replaces the entry at its index, keeps its own id, and is renamed to theme name + the tag + the replaced entry's id; other entries are kept |
| Recolor.ReconcileColor | src/cleanupColorsInLayer.ts:28-41 | a colour with no resolving swatch is unchanged; otherwise it takes the swatch's channels; the swatchID is kept |
| Recolor.ReconcileBackground | src/cleanupColorsInLayer.ts:138-155 | the background takes the swatch's value whenever the swatch resolves, and is otherwise unchanged |
| Recolor.BackgroundRuleAgrees | src/cleanupColorsInLayer.ts:138-155 | replacing unconditionally gives the same colour as replacing only when the channels differ |
| Recolor.ReconcileColorIdempotent | src/cleanupColorsInLayer.ts:28-41 | reconciling twice is reconciling once |
| Recolor.ReconcileFill | src/cleanupColorsInLayer.ts:23-58 | only a fill of fillType 0 has its colour reconciled; others are untouched; the fill type is kept |
| Recolor.CleanupColorsInLayer | src/cleanupColorsInLayer.ts:5-158 | the recursive in-place pass computes `Cleaned`: children first at every depth, then fills, borders, shadows, inner shadows, text runs and the background |
| Recolor.CleanupStyle | src/cleanupColorsInLayer.ts:23-119 | the style's four colour passes in order compute `CleanStyle` |
| Recolor.CleanStyleIdempotent | src/cleanupColorsInLayer.ts:23-119 | reconciling a style twice is reconciling it once |
| Recolor.CleanTextIdempotent | src/cleanupColorsInLayer.ts:123-134 | reconciling the text runs twice is reconciling them once |
| Recolor.CleanedIdempotent | src/cleanupColorsInLayer.ts:5-158 | the whole pass is idempotent on a layer tree |
| Recolor.CleanedChangesOnlyColours | src/cleanupColorsInLayer.ts:5-158 | with every colour blanked out, a layer is the same before and after the pass: only colour fields change |
| Restyle.CopyStyle | src/resetStyle.ts:18-24 | every key of the shared value except do_objectID is copied; keys the value lacks keep their own value; the style id becomes the shared style's own id |
| Restyle.Reset | src/resetStyle.ts:4-28 | the children of a symbol master, artboard or group are each reset in turn (other layers' children are untouched); a layer with no shared style id, or one that matches no style, is otherwise unchanged; a matching layer gets its style copied and keeps its sharedStyleID |
| Restyle.ResetStyle | src/resetStyle.ts:4-28 | the recursive pass computes `Reset` |
| Restyle.CopyStyleKeys | src/resetStyle.ts:18-24 | the key loop computes `CopyStyle` |
| Restyle.CopyExtraKeys | src/resetStyle.ts:18-23 | the loop over the remaining keys adds every key but do_objectID to the layer's own keys |
| Restyle.Copied | src/resetStyle.ts:19-20 | the keys copied are exactly the value's keys other than do_objectID, with their values |
| Restyle.ResetEstablishesAgreement | src/resetStyle.ts:14-25 | after the reset a bound layer agrees with its shared style on every key the style has, and carries its id |
| Restyle.CopyStyleIdempotent | src/resetStyle.ts:18-24 | copying a shared style twice is copying it once |
| Restyle.ResetAgreesEverywhere | src/resetStyle.ts:4-28 | after the reset, every layer of the tree the pass reaches that is bound to a resolving style agrees with it |
| Restyle.ResetIdempotent | src/resetStyle.ts:4-28 | resetStyle is idempotent on a layer tree |
| Dynamic.Token | src/injectDynamicData.ts:14 | the placeholder is the key wrapped in two braces on each side |
| Dynamic.SetFirstLength | src/injectDynamicData.ts:19 | only the first run's length changes |
| Dynamic.InjectText | src/injectDynamicData.ts:11-38 | the text is the keys' first-occurrence substitutions in order, then the date; after any substitution the first run spans the new text and other runs are untouched; with no hit nothing changes |
| Dynamic.Injected | src/injectDynamicData.ts:1-42 | kind and child count are kept, a non-container keeps its children, and of the layer itself only a text layer's attributed string changes, to the injected one |
| Dynamic.InjectedChangesOnlyText | src/injectDynamicData.ts:1-42 | at every depth, nothing but text layers' attributed strings changes |
| Dynamic.InjectDynamicData | src/injectDynamicData.ts:1-42 | succeeds iff every text layer has an attributed string that has a first run whenever one is rewritten, and then computes `Injected` |
| Dynamic.InjectIntoText | src/injectDynamicData.ts:11-38 | the key loop and the date step compute `InjectText`, failing exactly when a substitution meets an empty run list |
| Dynamic.NoHitKeepsText | src/injectDynamicData.ts:16 | when no placeholder occurs at its key's turn, the text is unchanged |
| Dynamic.SingleRunCoversText | src/injectDynamicData.ts:18-20 | a single run covering the text still covers it after the injection |
| Dynamic.GreetingExample | src/injectDynamicData.ts:13-20 | `Hello {{name}}` with name = World gives `Hello World` with a first run of length 11 |
| Overrides.CounterpartID | src/new-override-name.ts:14-21 | there is a result iff the first old layer with the override's head id exists and some new layer has its name; the result is then the id of the first such new layer |
| Overrides.RenameOverride | src/new-override-name.ts:24-28 | with no counterpart, or one with an empty id, the name is returned unchanged; otherwise it is the counterpart's id, `_`, and the old type tag |
| Strings.Head | src/new-override-name.ts:12 | `s.split(sep)[0]`: the prefix of `s` holding no separator, followed in `s` by a separator or by its end |
| Strings.Second | src/new-override-name.ts:13 | `s.split(sep)[1]`: absent exactly when `s` has no separator; otherwise the piece after the first separator, ending at the next separator or at the end of `s` |
| Overrides.NewOverrideName | src/new-override-name.ts:3-29 | among direct children: a name whose head id has no old child, or whose first such child's name no new child has, is unchanged; otherwise it becomes the first same-named new child's id, `_`, and the old type tag, or stays unchanged when that id is empty |
| Overrides.NewOverrideNameInSublayers | src/newOverrideName.ts:4-36 | the same over `sublayers` of each symbol: unchanged without a counterpart, otherwise the first same-named new sublayer's id, `_`, and the old type tag, or unchanged when that id is empty |
| Overrides.RenameKeepsKind | src/new-override-name.ts:12-27 | a rewritten name is the counterpart's id, `_`, and the old type tag; text after a second `_` is dropped |
| Overrides.RepairedComponent | src/mergeDocuments.ts:318-348 | a component among the master's sublayer ids, or one unknown in the source, is kept; a replacement is the id of an output layer named like the source layer |
| Overrides.RepairedComponentFirst | src/mergeDocuments.ts:322-348 | a component is replaced iff it is not a sublayer id, the source has a layer with it as id, and the output has a layer with that name; the replacement is the first such output layer's id |
| Overrides.RepairedComponents | src/mergeDocuments.ts:325-348 | the path keeps its component count, and each component is patched independently |
| Overrides.UnrepairedNameKept | src/mergeDocuments.ts:318-352 | a name none of whose path components has a replacement is kept as it was |
| Overrides.RepairedNameRebuilt | src/mergeDocuments.ts:318-352 | once a component has a replacement, the name is the repaired components joined by `/`, `_`, and the old type tag |
| Overrides.RepairOverrideName | src/mergeDocuments.ts:318-352 | the component loop with its `updateOverride` flag computes the repaired name |
| Overrides.KnownPathUnchanged | src/mergeDocuments.ts:322-326 | a path whose components are all sublayer ids of the master is not rewritten |
| Overrides.RepairKeepsShape | src/mergeDocuments.ts:318-352 | the repaired name's path splits into exactly the component-wise repairs, so it has as many components as before and keeps every known one, and a rewritten name keeps the type tag |
| Overrides.RepairInstance | src/mergeDocuments.ts:299-356 | only the override names change, their count and values are kept, and an instance with no local master is unchanged; with one, each name is repaired against the ids of the master's `sublayers` |
| Inject.OverwriteOwn | src/injectSymbol.ts:32-36 | every key the existing master owns takes the incoming value; a key the incoming symbol has no value for stays an own key holding `undefined` (it reads as absent); no key is added |
| Inject.OverwriteShared | src/index.ts:182-186 | keys both layers own take the incoming value (`undefined` included), keys only the master owns keep their value, and no key is added |
| Inject.OverwriteOwnAddsNoKey | src/injectSymbol.ts:32-36 | the loop over the master's own keys neither adds nor removes an own key, and no key is both valued and `undefined` afterwards |
| Inject.OverwriteSharedKeepsKeys | src/index.ts:182-186 | the loop over the incoming keys neither adds nor removes an own key of the master, nor, on layers without `undefined` keys, a key with a value |
| Inject.LaterOverwriteRefills | src/injectSymbol.ts:32-36 | a key the first injected symbol lacks survives as `undefined`, so a later injection (the theme's, mergeDocuments.ts:65-77) fills it with its value again |
| Inject.OverwriteOwnSameKeys | src/injectSymbol.ts:32-36 | overwriting a master that has values for exactly the incoming symbol's keys yields the incoming symbol (with the master's `undefined` keys the incoming one has no value for) |
| Inject.OverwriteOwnIdempotent | src/injectSymbol.ts:32-36 | overwriting twice with the same symbol is overwriting once |
| Inject.OverwriteSharedIdempotent | src/index.ts:182-186 | overwriting twice with the same symbol is overwriting once |
| Inject.SymbolPageName | src/injectSymbol.ts:12 | the page name defaults to `Symbols` and is never empty |
| Inject.PushToPage | src/injectSymbol.ts:41-108 | the symbol is appended to the first page of that name, others unchanged; with no such page, one empty page with the fresh id is appended first |
| Inject.AddToSymbolPage | src/injectSymbol.ts:41-108 | the find/create/push sequence computes `PushToPage`; only `pages` changes |
| Inject.PushedSymbolIsLast | src/injectSymbol.ts:108 | after the push the symbol is the last layer of the first page with the name |
| Inject.FirstMasterNamed | src/injectSymbol.ts:18-20 | finding by name among allSymbolMasters finds the first allLayers entry that is a master with that name |
| Inject.FoundAt | src/injectSymbol.ts:18-20 | the position found holds the first master with the name |
| Inject.InjectSymbol | src/injectSymbol.ts:7-111 | the method computes `InjectFirst` on the pages and returns the same document |
| Inject.InjectFirstKeepsPages | src/injectSymbol.ts:22-37 | when a master is found, every page keeps its id, name and number of top-level layers |
| Inject.InjectFirstPlacesMaster | src/injectSymbol.ts:30-36 | the found master is overwritten by the new symbol moved to its x and y |
| Inject.InjectFirstRebinds | src/injectSymbol.ts:24-28 | every instance of the old master elsewhere uses the new symbolID; every other layer keeps its symbolID |
| Inject.RebindAt | src/injectSymbol.ts:24-28 | the pass moves an instance of the old symbol id to the new one and leaves every other layer's symbolID alone |
| Inject.InjectFirstPushes | src/injectSymbol.ts:41-108 | with no same-named master, the symbol is pushed unchanged onto the symbols page |
| Inject.InjectFirstLeavesMaster | src/injectSymbol.ts:7-111 | afterwards a master with the symbol's name exists |
| Inject.LaterInjectionWins | src/mergeDocuments.ts:65-77 | of two same-named symbols injected in turn, the document holds a layer with the second's class, name, symbol id, children and style |
| Inject.RebindTop | src/inject-symbol.ts:22-43 | an instance of the replaced master gets every override renamed against the old master and the new symbol, and the new symbolID; any other layer is unchanged |
| Inject.RebindTops | src/inject-symbol.ts:22-43 | the instance pass over every page's top-level layers, keeping the page structure |
| Inject.RebindInstances | src/inject-symbol.ts:22-43 | the nested loop computes `RebindTops`; only `pages` changes |
| Inject.RebindTopsAt | src/inject-symbol.ts:22-43 | the instance pass keeps each page but for its top-level layers, and rebinds each of them |
| Inject.ReplaceAtFacts | src/inject-symbol.ts:13-53 | a same-named master at the visited position is overwritten; any non-instance elsewhere is untouched |
| Inject.ReplaceAtInstance | src/inject-symbol.ts:13-43 | seen from a top-level instance, one loop body rebinds it against the visited master when that is a same-named master, and leaves it alone otherwise |
| Inject.ReplaceStep | src/inject-symbol.ts:15-51 | one inner step computes `ReplaceAt` and reports whether the layer was a same-named master |
| Inject.ReplaceInPage | src/inject-symbol.ts:14-52 | one page's loop advances `ReplacedUpTo` and reports whether the page holds a same-named master |
| Inject.InjectSymbolEverywhere | src/inject-symbol.ts:6-125 | the method computes `InjectEvery` and returns the same document |
| Inject.ReplacedUpToShape | src/inject-symbol.ts:13-53 | the loop keeps the number of pages, each page's id, name and top-level count, and each top-level layer's class and name |
| Inject.ReplacedUpToStep | src/inject-symbol.ts:15-51 | one more inner step applies the loop body to the pages so far, at a layer whose class and name are as before the loop |
| Inject.ReplacedUpToOverwrites | src/inject-symbol.ts:13-53 | every same-named top-level master visited so far holds the overwritten master |
| Inject.ReplacedUpToKeeps | src/inject-symbol.ts:13-53 | every top-level layer that is neither an instance nor a visited same-named master is untouched |
| Inject.ReplacedUpToLeavesInstance | src/inject-symbol.ts:13-43 | a top-level instance stays as it was while no visited same-named master has its symbolID |
| Inject.ReplacedUpToRebindsInstance | src/inject-symbol.ts:13-43 | once the loop has visited the one same-named master with an instance's symbolID, the instance is rebound against it exactly once, given that no same-named master has the new symbol's id |
| Inject.ReplaceNext | src/inject-symbol.ts:15-51 | one inner step advances the loop by one layer and reports whether that layer was a same-named master |
| Inject.InjectEveryReplacesAll | src/inject-symbol.ts:13-53 | with a top-level match, EVERY same-named top-level master is overwritten, the structure is kept, and other non-instances are untouched |
| Inject.InjectEveryRebinds | src/inject-symbol.ts:13-43 | over the whole operation, a top-level instance bound to no same-named master is untouched; one bound to the single same-named master with its symbolID has every override renamed with `newOverrideName` against that master and uses the new symbol's id, given that no same-named master already has that id |
| Inject.InjectEveryPushes | src/inject-symbol.ts:55-122 | with no top-level match, the symbol is pushed onto the `Symbols` page |
| Inject.NoMatchNoChange | src/inject-symbol.ts:13-53 | with no top-level match, the loop changes nothing |
| Inject.ReplaceShared | src/index.ts:179-190 | a same-named top-level master has its existing keys overwritten; any other layer is unchanged |
| Inject.InjectShared | src/index.ts:174-257 | with a top-level match, every top-level layer goes through the overwrite and nothing is pushed; otherwise the placed symbol is pushed onto `Symbols` |
| Inject.ReplaceInTops | src/index.ts:179-190 | the loop over one page's top-level layers, reporting whether a same-named master was found |
| Inject.InjectSymbolShared | src/index.ts:174-257 | the method computes `InjectShared` and returns the same document |
| Inject.NoMatchSharedNoChange | src/index.ts:179-190 | with no top-level match, the overwrite loop changes nothing |
| Inject.InjectSharedIdempotent | src/index.ts:174-257 | with a top-level match, injecting the same symbol twice is injecting it once |
| Inject.ReplaceSharedIdempotent | src/index.ts:179-190 | overwriting one top-level layer twice is overwriting it once |
| Inject.ReplaceSharedKeepsTopMaster | src/index.ts:179-190 | after the overwrite a same-named top-level master is still there |
| Merge.VisitEntriesChecked | src/mergeDocuments.ts:260-296 | an entry pass that can throw succeeds iff it is safe on every entry it meets, and then computes the pass |
| Merge.VisitTopsChecked | src/mergeDocuments.ts:263-296 | the pass over one page's top-level layers succeeds iff each is safe, and then computes the visit |
| Merge.VisitTopChecked | src/mergeDocuments.ts:263-296 | one top-level layer and its children succeed iff the body is safe on each, and then compute the visit |
| Merge.RecolorFill | src/mergeDocuments.ts:97-112 | a fill's colour is reconciled as cleanupColorsInLayer reconciles a flat fill, whatever its fill type |
| Merge.RecolorStyle | src/mergeDocuments.ts:96-165 | fills, borders, shadows and inner shadows are reconciled, with no fillType filter; nothing else changes |
| Merge.RecolorTextStyle | src/mergeDocuments.ts:171-258 | the style's colours and the encoded text colour are reconciled |
| Merge.RecolorAgreesWithCleanupOnFlatFills | src/mergeDocuments.ts:96-165 | on a style whose fills are all flat, this pass agrees with cleanupColorsInLayer's style pass |
| Merge.RecolorTextStyleIdempotent | src/mergeDocuments.ts:171-258 | recolouring a text style twice is recolouring it once |
| Merge.RecolorLayerStyles | src/mergeDocuments.ts:96-165 | every shared layer style in the list is recoloured in place |
| Merge.RecolorTextStyles | src/mergeDocuments.ts:171-258 | succeeds iff every text style has a text style value, and then recolours every one in place |
| Merge.RepairedText | src/mergeDocuments.ts:260-296 | a text layer whose shared style resolves is untouched; an orphan with a previous style name adopts the first style of that name, with its id, style and every run's font, colour and paragraph style |
| Merge.RepairSettles | src/mergeDocuments.ts:260-296 | after the repair, the layer's shared style resolves, so it needs no further repair |
| Merge.OverridePassKeepsLayers | src/mergeDocuments.ts:299-356 | the override pass changes only override names (keeping count and values), never an instance's symbol, and leaves non-instances' overrides alone |
| Merge.OverridePassRepairsInstances | src/mergeDocuments.ts:299-356 | every instance at a position allLayers lists ends up repaired as `RepairInstance` states |
| Merge.InjectMasters | src/mergeDocuments.ts:65-77 | injecting a list of masters one by one folds `injectSymbol.ts` over the list, in order |
| Merge.MergeCollections | src/mergeDocuments.ts:40-59 | the output's swatches and layer styles are the source's containers merged with id adoption, its text styles the renaming merge; pages are untouched |
| Merge.InjectSymbols | src/mergeDocuments.ts:65-77 | the source's masters are injected, then the theme's, each in allSymbolMasters order |
| Merge.UpdateReferences | src/mergeDocuments.ts:84-356 | succeeds iff every throwing step is safe, and then the style lists are recoloured and the pages are the cleanup/inject, reset, text repair and override repair in order |
| Merge.CleanAndRecolor | src/mergeDocuments.ts:84-258 | the cleanup/inject pass and the colour passes over the style lists succeed iff no layer throws and every text style has a text style value, and then compute those passes |
| Merge.ResetAndRepair | src/mergeDocuments.ts:166-356 | the reset, the text repair and the override repair succeed iff no text layer makes the repair throw, and then compute those passes in order |
| Merge.ReferencesInStages | src/mergeDocuments.ts:84-356 | step 5 succeeds iff each throwing pass is safe on the pages the passes before it left |
| Merge.MergeDocuments | src/mergeDocuments.ts:29-356 | collections are merged before any injection, source masters before theme masters; it succeeds iff no pass throws, and then the output holds the composed passes |
| Merge.TopMasters | src/index.ts:37-43 | the result is the pages' top-level layers, page after page, filtered to the symbol masters, in order |
| Merge.InTopLayers | src/index.ts:37-43 | a layer is among the concatenated top-level layers iff some page holds it at the top |
| Merge.TopMastersMembers | src/index.ts:37-43 | a layer is among the collected masters iff it is a symbol master at the top of some page |
| Merge.MergeCollectionsWithOption | src/index.ts:16-34 | the layer and text styles go through mergeStyles and the swatches through mergeColors, all with id reuse only under `reuseStyleID`; pages are untouched |
| Merge.MergeStyleLists | src/index.ts:16-28 | the layer styles and then the text styles are merged into the source's own lists, with id reuse only under `reuseStyleID` |
| Merge.InjectPageMasters | src/index.ts:37-43 | a page's symbol masters are injected in order with the `index.ts` injector |
| Merge.InjectThemeMasters | src/index.ts:37-43 | all of the theme's top-level masters are injected, page by page, in order |
| Merge.MergeDocumentsInPlace | src/index.ts:11-43 | the output, which may be the source document itself, gets the three merged collections and then the theme's top-level masters injected |

## Left out

- I/O: the HTTP endpoint, the command line, file reading and writing, and zip
  repacking of assets. This covers `src/mergeDocuments.ts:358-409`, `src/index.ts:45-102`
  and `mergeFiles` in `src/index.ts:259-289`. The three documents are inputs held in
  memory.
- Console logging, everywhere.
- `config.json` and `data.json`. `reuseStyleID` and the substitution data are parameters.
  The data is a list of (key, value) pairs in the object's key order.
- The wall clock in `injectDynamicData`. The formatted date is the parameter `today`.
- `uuidv4()`. The id of a new symbols page is the parameter `freshPageID`.
- Of the fields set on a new page, only the id, name and layers are modelled.
- The placement of a new symbol by `index.ts`. It uses the float maxima of the existing
  frames, starting at `-Infinity`. It is the parameter `place`, a function of the page's
  layers.
- Colour channels and coordinates are opaque values compared with `==`. There is no
  floating point.
- `sublayers`: its definition is not part of this model, so it is a function parameter.
  `allTextLayers` is not part of this model either; the text repair is applied to the
  text entries of allLayers.
- `getElementByID`: `mergeDocuments.ts` imports it as a default export, but
  `getElementByID.ts` exports it only by name. The model takes the named function.
- Dynamic.InjectText: `String.prototype.replace` treats `$` patterns in the replacement
  specially. The model substitutes the value literally. String lengths are counted in
  characters, not UTF-16 code units.
- The JSON deep copy in `mergeTextStyles` is a value copy. Keys outside the modelled
  fields of a layer or style are a `map` of opaque values.
- Aliasing between objects is not modelled.
  - Layers, styles and swatches are values. A symbol that is injected is therefore
    copied, not shared with the theme document, and `newSymbol.frame` is changed on the
    copy only.
  - The mergers change the theme's entries' ids in place; `AdjustedTheme` states those
    new ids.
  - A text style that is recoloured after layers were reset through shared references is
    handled by reordering (see below).
- Inject.InjectEveryRebinds: when two same-named masters share an instance's symbolID, or a same-named master already has the new symbol's id, the loop can rebind an instance more than once. The lemma does not state the result in those cases; `ReplaceAtInstance` still states each step.
- Merge.UpdateReferences: when a pass throws, the model states only that the merge
  fails. It does not state the document as the source leaves it part-way through.
- Restyle.CopyStyle: `resetStyle` sets the style's id inside the loop over the shared
  value's keys. A value with no keys at all would therefore leave the id as it was.
  The model sets the id unconditionally, because a Sketch style value always has keys.
- Merge.MergeDocuments and Merge.UpdateReferences: `injectSymbol.ts` pushes the
  source's master objects themselves into the output (line 108). A later theme
  master with the same name overwrites such an object in place (lines 32-36), and so
  changes the source document too. The override repair then looks layers up in that
  altered source (`mergeDocuments.ts:327-330`). The model copies values, so the repair
  reads the source's pages as they were before the injections.

Behaviours of the code that the model follows, where a reader might expect otherwise:

- `injectSymbol.ts` copies every own property onto the existing master, including its
  `do_objectID`. The master therefore takes the incoming symbol's id; it does not keep
  its own.
- `mergeColors.ts` always adopts the replaced swatch's id, whatever `reuseStyleID` says.
  Only the `mergeColors` in `index.ts` reads the option.
- In `mergeDocuments.ts` the text-style colour pass (lines 171-258) runs after
  `resetStyle` (lines 166-168). The layers hold references to the same style objects,
  though, so the reset layers see the recoloured values. Because the model copies
  values, it recolours the text styles first and then resets, which produces the same
  result.
- `allLayers(...).forEach` visits each direct child of a container twice: once inside
  its parent's recursive pass, and once as an entry of its own. `Walker.ApplyToEntries`
  keeps this double visit.
