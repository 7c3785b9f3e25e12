/** mergeColors, mergeLayerStyles, mergeStyles and mergeTextStyles: the theme's swatches
    or shared styles are merged into the source's by name. Each theme entry, in order,
    looks for the first entry of the growing combined list with the same name; it takes
    that entry's place when there is one and is appended otherwise. The four variants
    differ only in what a replacing entry keeps of the entry it replaces. */
module Collections {
  import opened Seqs
  import opened Sketch
  import opened Walker

  /** What a theme entry that replaces a same-named entry takes from it:
      its `do_objectID` (mergeColors, mergeLayerStyles, and mergeStyles with
      `reuseStyleID`); nothing (mergeStyles without `reuseStyleID`); or nothing but a
      tag naming it, appended to the theme entry's own name (mergeTextStyles). */
  datatype IdPolicy = AdoptSourceID | KeepOwnID | TagNameWithSourceID

  /** The separator mergeTextStyles writes between a style's name and the id of the
      style it replaced. */
  const StyleTag: string := "💠💠💠💠💠💠"

  /** The entry a theme entry becomes when it replaces `current`. */
  function Replacement<V>(current: Named<V>, incoming: Named<V>, policy: IdPolicy): Named<V>
  {
    match policy
    case AdoptSourceID => incoming.(id := current.id)
    case KeepOwnID => incoming
    case TagNameWithSourceID => incoming.(name := incoming.name + StyleTag + current.id)
  }

  /** `find` by name followed by `indexOf`: the position of the first entry named `name`. */
  function NameMatch<V>(combined: seq<Named<V>>, name: string): (r: Option<nat>)
    ensures r.Some? ==> r.value < |combined| && combined[r.value].name == name
    ensures r.Some? ==> forall m :: 0 <= m < r.value ==> combined[m].name != name
    ensures r.None? <==> forall k :: 0 <= k < |combined| ==> combined[k].name != name
  {
    FirstIndex(combined, (e: Named<V>) => e.name == name)
  }

  /** The theme entry as it is after its own step of the loop. */
  function Adjusted<V>(combined: seq<Named<V>>, incoming: Named<V>, policy: IdPolicy): Named<V>
  {
    match NameMatch(combined, incoming.name)
    case None => incoming
    case Some(k) => Replacement(combined[k], incoming, policy)
  }

  /** One step of the loop. */
  function MergeOne<V>(combined: seq<Named<V>>, incoming: Named<V>, policy: IdPolicy): seq<Named<V>>
  {
    match NameMatch(combined, incoming.name)
    case None => combined + [incoming]
    case Some(k) => combined[k := Replacement(combined[k], incoming, policy)]
  }

  /** The combined list after the whole loop over `theme`. */
  function MergeByName<V>(combined: seq<Named<V>>, theme: seq<Named<V>>, policy: IdPolicy): seq<Named<V>>
  {
    if theme == [] then combined
    else
      var n := |theme| - 1;
      MergeOne(MergeByName(combined, theme[..n], policy), theme[n], policy)
  }

  /** The theme list after the loop: the loop renames or re-identifies the theme's own
      entry objects, which the theme container still holds. */
  function AdjustedTheme<V>(combined: seq<Named<V>>, theme: seq<Named<V>>, policy: IdPolicy): (r: seq<Named<V>>)
    ensures |r| == |theme|
  {
    if theme == [] then []
    else
      var n := |theme| - 1;
      AdjustedTheme(combined, theme[..n], policy) + [Adjusted(MergeByName(combined, theme[..n], policy), theme[n], policy)]
  }

  /** The `forEach` over the theme list shared by the four merges. The combined list
      and the theme list are distinct arrays. */
  method MergeInto<V>(combined: ObjectList<V>, theme: ObjectList<V>, policy: IdPolicy)
    requires combined != theme
    modifies combined, theme
    ensures combined.items == MergeByName(old(combined.items), old(theme.items), policy)
    ensures theme.items == AdjustedTheme(old(combined.items), old(theme.items), policy)
  {
    ghost var c0 := combined.items;
    ghost var t0 := theme.items;
    var i := 0;
    while i < |theme.items|
      invariant 0 <= i <= |theme.items| == |t0|
      invariant combined.items == MergeByName(c0, t0[..i], policy)
      invariant theme.items == AdjustedTheme(c0, t0[..i], policy) + t0[i..]
    {
      MergeStep(c0, t0, policy, i);
      var items, themeItems := MergeEntry(combined.items, theme.items, i, policy);
      combined.items := items;
      theme.items := themeItems;
      i := i + 1;
    }
    assert t0[..i] == t0;
  }

  /** The body of the `forEach`: the theme entry at `i` replaces the first same-named
      entry of `items`, or is pushed; the theme's entry object is updated alongside. */
  method MergeEntry<V>(items: seq<Named<V>>, themeItems: seq<Named<V>>, i: nat, policy: IdPolicy)
    returns (items': seq<Named<V>>, themeItems': seq<Named<V>>)
    requires i < |themeItems|
    ensures items' == MergeOne(items, themeItems[i], policy)
    ensures themeItems' == themeItems[i := Adjusted(items, themeItems[i], policy)]
  {
    var themeEntry := themeItems[i];
    items', themeItems' := items, themeItems;
    match NameMatch(items, themeEntry.name) {
      case None =>
        items' := items + [themeEntry];
      case Some(k) =>
        var entry := Replacement(items[k], themeEntry, policy);
        themeItems' := themeItems[i := entry];
        items' := items[k := entry];
    }
  }

  /** The loop's step, in terms of the prefixes of the theme list. */
  lemma MergeStep<V>(c: seq<Named<V>>, t: seq<Named<V>>, policy: IdPolicy, i: nat)
    requires i < |t|
    ensures MergeByName(c, t[..i + 1], policy) == MergeOne(MergeByName(c, t[..i], policy), t[i], policy)
    ensures AdjustedTheme(c, t[..i + 1], policy) + t[i + 1..] ==
      (AdjustedTheme(c, t[..i], policy) + t[i..])[i := Adjusted(MergeByName(c, t[..i], policy), t[i], policy)]
  {
    assert t[..i + 1][..i] == t[..i];
    var a := AdjustedTheme(c, t[..i], policy);
    var x := Adjusted(MergeByName(c, t[..i], policy), t[i], policy);
    assert AdjustedTheme(c, t[..i + 1], policy) == a + [x];
    UpdateAfterPrefix(a, t, i, x);
  }


  /** mergeColors (mergeColors.ts): the source container itself is returned, with the
      theme's swatches merged in; a replacing swatch always takes over the replaced
      swatch's id, which is written into the theme's own swatch object. */
  method MergeColors(source: Container<Color>, theme: Container<Color>) returns (r: Container<Color>)
    requires source.objects != theme.objects
    modifies source.objects, theme.objects
    ensures r == source
    ensures r.objects.items == MergeByName(old(source.objects.items), old(theme.objects.items), AdoptSourceID)
    ensures theme.objects.items == AdjustedTheme(old(source.objects.items), old(theme.objects.items), AdoptSourceID)
  {
    MergeInto(source.objects, theme.objects, AdoptSourceID);
    r := source;
  }

  /** mergeColors (index.ts): as above, but the id is taken over only with `reuseStyleID`. */
  method MergeColorsWithOption(source: Container<Color>, theme: Container<Color>, reuseStyleID: bool)
    returns (r: Container<Color>)
    requires source.objects != theme.objects
    modifies source.objects, theme.objects
    ensures r == source
    ensures var policy := if reuseStyleID then AdoptSourceID else KeepOwnID;
      r.objects.items == MergeByName(old(source.objects.items), old(theme.objects.items), policy) &&
      theme.objects.items == AdjustedTheme(old(source.objects.items), old(theme.objects.items), policy)
  {
    MergeInto(source.objects, theme.objects, if reuseStyleID then AdoptSourceID else KeepOwnID);
    r := source;
  }

  /** mergeLayerStyles: a new `sharedStyleContainer` whose list is the source's own
      array, with the theme's styles merged in; replacing styles take over the replaced
      style's id. */
  method MergeLayerStyles(source: Container<Style>, theme: Container<Style>) returns (r: Container<Style>)
    requires source.objects != theme.objects
    modifies source.objects, theme.objects
    ensures fresh(r) && r.kind == "sharedStyleContainer" && r.objects == source.objects
    ensures r.objects.items == MergeByName(old(source.objects.items), old(theme.objects.items), AdoptSourceID)
    ensures theme.objects.items == AdjustedTheme(old(source.objects.items), old(theme.objects.items), AdoptSourceID)
  {
    MergeInto(source.objects, theme.objects, AdoptSourceID);
    r := new Container("sharedStyleContainer", source.objects);
  }

  /** mergeStyles: a new container of class `kind` whose list is the source's own array,
      with the theme's styles merged in; replacing styles take over the replaced style's
      id only with `reuseStyleID`. */
  method MergeStyles(source: Container<Style>, theme: Container<Style>, kind: string, reuseStyleID: bool)
    returns (r: Container<Style>)
    requires source.objects != theme.objects
    modifies source.objects, theme.objects
    ensures fresh(r) && r.kind == kind && r.objects == source.objects
    ensures var policy := if reuseStyleID then AdoptSourceID else KeepOwnID;
      r.objects.items == MergeByName(old(source.objects.items), old(theme.objects.items), policy) &&
      theme.objects.items == AdjustedTheme(old(source.objects.items), old(theme.objects.items), policy)
  {
    MergeInto(source.objects, theme.objects, if reuseStyleID then AdoptSourceID else KeepOwnID);
    r := new Container(kind, source.objects);
  }

  /** mergeTextStyles: works on copies of both documents' text-style lists, so neither
      document changes; a replacing style keeps its own id and has the tag and the
      replaced style's id appended to its name. */
  method MergeTextStyles(source: SketchFile, theme: SketchFile) returns (r: Container<Style>)
    ensures fresh(r) && fresh(r.objects) && r.kind == "sharedTextStyleContainer"
    ensures r.objects.items == MergeByName(source.textStyles.objects.items, theme.textStyles.objects.items, TagNameWithSourceID)
  {
    var sourceCopy := new ObjectList(source.textStyles.objects.items);
    var themeCopy := new ObjectList(theme.textStyles.objects.items);
    MergeInto(sourceCopy, themeCopy, TagNameWithSourceID);
    r := new Container("sharedTextStyleContainer", sourceCopy);
  }

  /** layersUsingStyle: the text entries of allLayers bound to the shared style `id`. */
  function LayersUsingStyle(id: string, pages: seq<Page>): (r: seq<Layer>)
    ensures forall x :: x in r <==> x in Flatten(pages) && x.kind == Text && x.sharedStyleID == Some(id)
  {
    var p := (l: Layer) => l.kind == Text && l.sharedStyleID == Some(id);
    var r := Filter(Flatten(pages), p);
    forall x | x in Flatten(pages) && p(x) ensures x in r {
      FilterComplete(Flatten(pages), p, x);
    }
    r
  }

  // Properties of the merge.

  /** Names are unique in `s`. */
  predicate UniqueNames<V>(s: seq<Named<V>>)
  {
    forall a, b :: 0 <= a < b < |s| ==> s[a].name != s[b].name
  }

  /** A single step grows the list by at most one entry, which is then the theme entry
      itself, and keeps every entry of another name. */
  lemma MergeOneShape<V>(c: seq<Named<V>>, x: Named<V>, policy: IdPolicy)
    ensures var r := MergeOne(c, x, policy);
      |c| <= |r| <= |c| + 1 &&
      (forall k :: 0 <= k < |c| && c[k].name != x.name ==> r[k] == c[k]) &&
      (|r| == |c| + 1 ==> r[|c|] == x)
  {
  }

  /** Without the text-style tag a single step keeps every position's name, and with
      id reuse every position's id. */
  lemma MergeOneKeepsLabels<V>(c: seq<Named<V>>, x: Named<V>, policy: IdPolicy)
    ensures var r := MergeOne(c, x, policy);
      |c| <= |r| &&
      (policy != TagNameWithSourceID ==> forall k :: 0 <= k < |c| ==> r[k].name == c[k].name) &&
      (policy == AdoptSourceID ==> forall k :: 0 <= k < |c| ==> r[k].id == c[k].id)
  {
  }

  /** Without the text-style tag, the theme entry's name and value are in the list
      after its step (the entry itself when ids are kept). */
  lemma MergeOneTakesEntry<V>(c: seq<Named<V>>, x: Named<V>, policy: IdPolicy)
    requires policy != TagNameWithSourceID
    ensures exists k :: 0 <= k < |MergeOne(c, x, policy)| && Wins(MergeOne(c, x, policy)[k], x, policy)
  {
    var r := MergeOne(c, x, policy);
    match NameMatch(c, x.name)
    case None =>
      assert r == c + [x] && r[|c|] == x;
    case Some(k) =>
      assert r[k] == Replacement(c[k], x, policy);
  }

  /** The combined list never shrinks and grows by at most one entry per theme entry. */
  lemma {:induction false} MergeByNameLength<V>(c: seq<Named<V>>, t: seq<Named<V>>, policy: IdPolicy)
    ensures |c| <= |MergeByName(c, t, policy)| <= |c| + |t|
  {
    if t != [] {
      var n := |t| - 1;
      MergeByNameLength(c, t[..n], policy);
      MergeOneShape(MergeByName(c, t[..n], policy), t[n], policy);
    }
  }

  /** A source entry whose name no theme entry carries stays where it was, unchanged. */
  lemma {:induction false} MergeKeepsUnmatched<V>(c: seq<Named<V>>, t: seq<Named<V>>, policy: IdPolicy, k: nat)
    requires k < |c|
    requires forall i :: 0 <= i < |t| ==> t[i].name != c[k].name
    ensures k < |MergeByName(c, t, policy)| && MergeByName(c, t, policy)[k] == c[k]
  {
    if t != [] {
      var n := |t| - 1;
      MergeKeepsUnmatched(c, t[..n], policy, k);
      MergeOneShape(MergeByName(c, t[..n], policy), t[n], policy);
    }
  }

  /** Without the text-style tag, every source position keeps its name, and every entry
      past the source's is named after a theme entry. */
  lemma {:induction false} MergeKeepsNames<V>(c: seq<Named<V>>, t: seq<Named<V>>, policy: IdPolicy)
    requires policy != TagNameWithSourceID
    ensures var r := MergeByName(c, t, policy);
      |c| <= |r| &&
      (forall k :: 0 <= k < |c| ==> r[k].name == c[k].name) &&
      (forall k :: |c| <= k < |r| ==> exists i :: 0 <= i < |t| && r[k].name == t[i].name)
  {
    if t != [] {
      var n := |t| - 1;
      var prev := MergeByName(c, t[..n], policy);
      MergeKeepsNames(c, t[..n], policy);
      MergeOneShape(prev, t[n], policy);
      MergeOneKeepsLabels(prev, t[n], policy);
      var r := MergeByName(c, t, policy);
      forall k | |c| <= k < |r| ensures exists i :: 0 <= i < |t| && r[k].name == t[i].name {
        if k < |prev| {
          var i :| 0 <= i < n && prev[k].name == t[..n][i].name;
          assert r[k].name == t[i].name;
        } else {
          assert r[k] == t[n];
        }
      }
    }
  }

  /** When ids are reused, every source entry keeps its `do_objectID`: documents that
      refer to a source swatch or style by id still find an entry of that name. */
  lemma {:induction false} MergeKeepsSourceIDs<V>(c: seq<Named<V>>, t: seq<Named<V>>)
    ensures var r := MergeByName(c, t, AdoptSourceID);
      |c| <= |r| && forall k :: 0 <= k < |c| ==> r[k].id == c[k].id && r[k].name == c[k].name
  {
    if t != [] {
      var n := |t| - 1;
      MergeKeepsSourceIDs(c, t[..n]);
      MergeOneKeepsLabels(MergeByName(c, t[..n], AdoptSourceID), t[n], AdoptSourceID);
    }
  }

  /** `e` carries the theme entry `x`'s name and value (and is `x` itself when ids are
      kept). */
  ghost predicate Wins<V>(e: Named<V>, x: Named<V>, policy: IdPolicy)
  {
    e.name == x.name && e.value == x.value && (policy == KeepOwnID ==> e == x)
  }

  /** The theme wins: the last theme entry of each name is in the result with its own
      value under its own name (and is exactly that entry when ids are kept). */
  lemma {:induction false} ThemeEntryWins<V>(c: seq<Named<V>>, t: seq<Named<V>>, policy: IdPolicy, i: nat)
    requires policy != TagNameWithSourceID
    requires i < |t|
    requires forall j :: i < j < |t| ==> t[j].name != t[i].name
    ensures exists k :: 0 <= k < |MergeByName(c, t, policy)| && Wins(MergeByName(c, t, policy)[k], t[i], policy)
  {
    var n := |t| - 1;
    var prev := MergeByName(c, t[..n], policy);
    var r := MergeByName(c, t, policy);
    assert r == MergeOne(prev, t[n], policy);
    if i < n {
      ThemeEntryWins(c, t[..n], policy, i);
      var k :| 0 <= k < |prev| && Wins(prev[k], t[i], policy);
      assert t[n].name != t[i].name;
      MergeOneKeeps(prev, t[n], policy, k);
      assert 0 <= k < |r| && r[k] == prev[k];
      assert Wins(r[k], t[i], policy);
    } else {
      MergeOneTakesEntry(prev, t[n], policy);
      var k :| 0 <= k < |r| && Wins(r[k], t[n], policy);
      assert t[i] == t[n];
    }
  }

  /** A single step keeps an entry of another name in place. */
  lemma MergeOneKeeps<V>(c: seq<Named<V>>, x: Named<V>, policy: IdPolicy, k: nat)
    requires k < |c| && c[k].name != x.name
    ensures k < |MergeOne(c, x, policy)| && MergeOne(c, x, policy)[k] == c[k]
  {
  }

  /** Merging never introduces a duplicate name: when the source's names are unique, so
      are the combined list's. */
  lemma {:induction false} MergeKeepsNamesUnique<V>(c: seq<Named<V>>, t: seq<Named<V>>, policy: IdPolicy)
    requires policy != TagNameWithSourceID
    requires UniqueNames(c)
    ensures UniqueNames(MergeByName(c, t, policy))
  {
    if t != [] {
      var n := |t| - 1;
      var prev := MergeByName(c, t[..n], policy);
      MergeKeepsNamesUnique(c, t[..n], policy);
      MergeOneShape(prev, t[n], policy);
      MergeOneKeepsLabels(prev, t[n], policy);
      var r := MergeByName(c, t, policy);
      if NameMatch(prev, t[n].name).None? {
        forall a, b | 0 <= a < b < |r| ensures r[a].name != r[b].name {
          if b == |prev| {
            assert r[a] == prev[a];
          } else {
            assert r[a] == prev[a] && r[b] == prev[b];
          }
        }
      }
    }
  }

  /** Theme entries whose names are new, and unique among themselves, are appended in
      theme order and left as they are. */
  lemma {:induction false} MergeAppendsNewNames<V>(c: seq<Named<V>>, t: seq<Named<V>>, policy: IdPolicy)
    requires UniqueNames(t)
    requires forall i, k :: 0 <= i < |t| && 0 <= k < |c| ==> t[i].name != c[k].name
    ensures MergeByName(c, t, policy) == c + t
    ensures AdjustedTheme(c, t, policy) == t
  {
    if t != [] {
      var n := |t| - 1;
      MergeAppendsNewNames(c, t[..n], policy);
      assert NameMatch(c + t[..n], t[n].name).None? by {
        forall k | 0 <= k < |c + t[..n]| ensures (c + t[..n])[k].name != t[n].name {
          if k >= |c| { assert (c + t[..n])[k] == t[k - |c|]; }
        }
      }
      assert c + t[..n] + [t[n]] == c + t;
      assert t[..n] + [t[n]] == t;
    }
  }

  /** Without id reuse the theme's entries are left alone. */
  lemma {:induction false} KeepOwnIDLeavesThemeAlone<V>(c: seq<Named<V>>, t: seq<Named<V>>)
    ensures AdjustedTheme(c, t, KeepOwnID) == t
  {
    if t != [] {
      var n := |t| - 1;
      KeepOwnIDLeavesThemeAlone(c, t[..n]);
      assert t[..n] + [t[n]] == t;
    }
  }

  /** A text style that replaces one takes the tagged name and keeps its own id. */
  lemma TextStyleReplacement(c: seq<SharedStyle>, x: SharedStyle)
    requires NameMatch(c, x.name).Some?
    ensures var k := NameMatch(c, x.name).value; var r := MergeOne(c, x, TagNameWithSourceID);
      |r| == |c| && r[k] == Named(x.id, x.name + StyleTag + c[k].id, x.value) &&
      forall m :: 0 <= m < |c| && m != k ==> r[m] == c[m]
  {
  }
}
