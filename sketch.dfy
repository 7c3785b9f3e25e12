/** The part of the Sketch file format that the merge engine reads or writes.
    Layers, pages, styles and swatches are values; the collection containers and the
    document are objects, because the engine hands them around by reference and
    updates them in place. */
module Sketch {
  import opened Seqs

  /** One RGBA channel; the engine only compares channels with `===`. */
  type Channel(==, !new)
  /** A frame coordinate; the engine only copies coordinates. */
  type Coord(==, !new)
  /** Any JSON value that the engine copies without looking into it. */
  type Prop(==, !new)

  /** A colour, possibly tagged with the id of the swatch it was picked from. */
  datatype Color = Color(red: Channel, green: Channel, blue: Channel, alpha: Channel, swatchID: Option<string>)

  /** An entry of a shared collection: a swatch (value: a colour) or a shared style
      (value: a style), with its `do_objectID` and `name`. */
  datatype Named<V> = Named(id: string, name: string, value: V)
  type Swatch = Named<Color>
  type SharedStyle = Named<Style>

  /** `fillType` 0 is a flat colour, 1 a gradient, 4 a pattern. */
  datatype Fill = Fill(fillType: int, color: Color)
  datatype Border = Border(color: Color)
  datatype Shadow = Shadow(color: Color)

  /** The encoded attributes of a style's `textStyle`. */
  datatype TextStyle = TextStyle(color: Option<Color>, font: Option<Prop>, paragraphStyle: Option<Prop>)

  /** A style snapshot. A `None` list or text style is a key the object does not have;
      `extra` holds every other key (blur, context settings, ...). */
  datatype Style = Style(
    id: string,
    fills: Option<seq<Fill>>,
    borders: Option<seq<Border>>,
    shadows: Option<seq<Shadow>>,
    innerShadows: Option<seq<Shadow>>,
    textStyle: Option<TextStyle>,
    extra: map<string, Prop>)

  /** One style run of a text layer's attributed string. */
  datatype StringAttribute = StringAttribute(
    location: int, length: int,
    color: Option<Color>, font: Option<Prop>, paragraphStyle: Option<Prop>)

  datatype AttributedString = AttributedString(text: string, attributes: seq<StringAttribute>)

  /** An instance override: `overrideName` is `<id path>_<kind>`, the path joined by `/`. */
  datatype OverrideValue = OverrideValue(overrideName: string, value: Prop)

  datatype Frame = Frame(x: Coord, y: Coord, width: Coord, height: Coord)

  /** The `_class` tag of a layer. */
  datatype LayerClass = Artboard | Group | SymbolMaster | SymbolInstance | Text | Slice | Shape | Bitmap | Hotspot

  /** A key a layer object may or may not have. */
  datatype OptionalKey = SharedStyleIDKey | AttributedStringKey | UserInfoKey | ExtraKey(name: string)

  /** A layer. Fields the file format gives every layer the engine touches are always
      present; `sharedStyleID`, `attributedString`, `previousTextStyle` (the name kept in
      `userInfo.previousTextStyle`) and the keys of `extra` may be absent. A key can also
      be an own property holding `undefined`: it is then listed in `undefinedKeys`, and
      reads as absent (its field is `None`, its name is not a key of `extra`). A parsed
      document has no such key; copying properties in place can leave one behind. */
  datatype Layer = Layer(
    kind: LayerClass,
    id: string,
    name: string,
    frame: Frame,
    style: Style,
    sharedStyleID: Option<string>,
    layers: seq<Layer>,
    symbolID: string,
    overrideValues: seq<OverrideValue>,
    attributedString: Option<AttributedString>,
    hasBackgroundColor: bool,
    backgroundColor: Color,
    previousTextStyle: Option<string>,
    extra: map<string, Prop>,
    undefinedKeys: set<OptionalKey>)

  /** The layer has a value for the key. */
  predicate HasValue(l: Layer, x: OptionalKey)
  {
    match x
    case SharedStyleIDKey => l.sharedStyleID.Some?
    case AttributedStringKey => l.attributedString.Some?
    case UserInfoKey => l.previousTextStyle.Some?
    case ExtraKey(k) => k in l.extra
  }

  /** The optional keys the layer has with a value. */
  function OptionalKeys(l: Layer): (r: set<OptionalKey>)
    ensures forall x :: x in r <==> HasValue(l, x)
  {
    (if l.sharedStyleID.Some? then {SharedStyleIDKey} else {}) +
    (if l.attributedString.Some? then {AttributedStringKey} else {}) +
    (if l.previousTextStyle.Some? then {UserInfoKey} else {}) +
    set k | k in l.extra :: ExtraKey(k)
  }

  /** The optional keys that are own properties of the layer, `undefined` or not. */
  function OwnKeys(l: Layer): (r: set<OptionalKey>)
    ensures forall x :: x in r <==> HasValue(l, x) || x in l.undefinedKeys
  {
    OptionalKeys(l) + l.undefinedKeys
  }

  /** A key listed as `undefined` has no value. */
  predicate WellKeyed(l: Layer)
  {
    OptionalKeys(l) !! l.undefinedKeys
  }

  datatype Page = Page(id: string, name: string, layers: seq<Layer>)

  /** Groups, symbol masters and artboards own child layers. */
  predicate IsContainer(k: LayerClass)
  {
    k == Group || k == SymbolMaster || k == Artboard
  }

  /** A JavaScript array of collection entries, shared by reference. */
  class ObjectList<V> {
    var items: seq<Named<V>>

    constructor (items: seq<Named<V>>)
      ensures this.items == items
    {
      this.items := items;
    }
  }

  /** A `swatchContainer`, `sharedStyleContainer` or `sharedTextStyleContainer`. */
  class Container<V> {
    const kind: string
    const objects: ObjectList<V>

    constructor (kind: string, objects: ObjectList<V>)
      ensures this.kind == kind && this.objects == objects
    {
      this.kind := kind;
      this.objects := objects;
    }
  }

  /** `contents.document` of a parsed Sketch file. */
  class SketchFile {
    var pages: seq<Page>
    var swatches: Container<Color>
    var layerStyles: Container<Style>
    var textStyles: Container<Style>

    constructor (pages: seq<Page>, swatches: Container<Color>, layerStyles: Container<Style>, textStyles: Container<Style>)
      ensures this.pages == pages && this.swatches == swatches
      ensures this.layerStyles == layerStyles && this.textStyles == textStyles
    {
      this.pages := pages;
      this.swatches := swatches;
      this.layerStyles := layerStyles;
      this.textStyles := textStyles;
    }
  }
}
