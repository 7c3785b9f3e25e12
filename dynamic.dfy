/** injectDynamicData: `{{key}}` placeholders in text layers are replaced by the values
    of a data object, and `{{date}}` by the current date. The data object is the list of
    its (key, value) pairs in key order; the date text is a parameter. */
module Dynamic {
  import opened Seqs
  import opened Strings
  import opened Sketch

  /** The placeholder for `key`. */
  function Token(key: string): (r: string)
    ensures |r| == |key| + 4 && r[2..|r| - 2] == key
  {
    "{{" + key + "}}"
  }

  const DateToken: string := "{{date}}"

  /** The text after the key loop: each key in turn replaces the first occurrence of its
      placeholder in the text the earlier keys left. */
  function Substituted(text: string, data: seq<(string, string)>): string
    decreases |data|
  {
    if data == [] then text
    else
      var n := |data| - 1;
      ReplaceFirst(Substituted(text, data[..n]), Token(data[n].0), data[n].1)
  }

  /** Some key's placeholder occurred when its turn came. */
  predicate Hit(text: string, data: seq<(string, string)>)
    decreases |data|
  {
    if data == [] then false
    else
      var n := |data| - 1;
      Hit(text, data[..n]) || Includes(Substituted(text, data[..n]), Token(data[n].0))
  }

  /** `attributes[0].length = n`; every other run is left alone. */
  function SetFirstLength(runs: seq<StringAttribute>, n: int): (r: seq<StringAttribute>)
    ensures |r| == |runs|
    ensures |runs| > 0 ==> r[0] == runs[0].(length := n)
    ensures forall i :: 1 <= i < |runs| ==> r[i] == runs[i]
  {
    if runs == [] then runs else runs[0 := runs[0].(length := n)]
  }

  /** The attributed string of a text layer after the injection. */
  function InjectText(a: AttributedString, data: seq<(string, string)>, today: string): (r: AttributedString)
    ensures |r.attributes| == |a.attributes|
    ensures forall i :: 1 <= i < |a.attributes| ==> r.attributes[i] == a.attributes[i]
    ensures Hit(a.text, data) || Includes(Substituted(a.text, data), DateToken) ==>
      |a.attributes| > 0 ==> r.attributes[0] == a.attributes[0].(length := |r.text|)
    ensures !Hit(a.text, data) && !Includes(a.text, DateToken) ==> r == a
    ensures r.text == if Includes(Substituted(a.text, data), DateToken)
                      then ReplaceFirst(Substituted(a.text, data), DateToken, today)
                      else Substituted(a.text, data)
  {
    NoHitKeepsText(a.text, data);
    var t := Substituted(a.text, data);
    var a1 := if Hit(a.text, data) then a.(text := t, attributes := SetFirstLength(a.attributes, |t|)) else a;
    if Includes(t, DateToken) then
      var t2 := ReplaceFirst(t, DateToken, today);
      a1.(text := t2, attributes := SetFirstLength(a1.attributes, |t2|))
    else a1
  }

  /** The injection runs without throwing: every text layer has an attributed string,
      and it has a first run whenever that run's length is written. */
  predicate TextSafe(a: AttributedString, data: seq<(string, string)>)
  {
    |a.attributes| > 0 || (!Hit(a.text, data) && !Includes(Substituted(a.text, data), DateToken))
  }

  predicate InjectSafe(l: Layer, data: seq<(string, string)>)
    decreases l
  {
    (IsContainer(l.kind) ==> forall i :: 0 <= i < |l.layers| ==> InjectSafe(l.layers[i], data)) &&
    (l.kind == Text ==> l.attributedString.Some? && TextSafe(l.attributedString.value, data))
  }

  /** The layer after injectDynamicData: children of artboards, symbol masters and groups
      first, then the layer's own text when it is a text layer. */
  function Injected(l: Layer, data: seq<(string, string)>, today: string): (r: Layer)
    ensures r.kind == l.kind && |r.layers| == |l.layers|
    ensures !IsContainer(l.kind) ==> r.layers == l.layers
    ensures l.kind != Text || l.attributedString.None? ==> r == l.(layers := r.layers)
    ensures l.kind == Text && l.attributedString.Some? ==>
      r == l.(layers := r.layers, attributedString := Some(InjectText(l.attributedString.value, data, today)))
    decreases l
  {
    var children := if IsContainer(l.kind) then seq(|l.layers|, i requires 0 <= i < |l.layers| => Injected(l.layers[i], data, today)) else l.layers;
    var l' := l.(layers := children);
    if l.kind == Text && l.attributedString.Some? then
      l'.(attributedString := Some(InjectText(l.attributedString.value, data, today)))
    else l'
  }

  /** The layer tree with every text layer's attributed string erased. */
  function TextErased(l: Layer): Layer
    decreases l
  {
    l.(layers := seq(|l.layers|, i requires 0 <= i < |l.layers| => TextErased(l.layers[i])),
       attributedString := if l.kind == Text then None else l.attributedString)
  }

  /** The injection changes nothing but text layers' attributed strings, at every depth. */
  lemma {:induction false} InjectedChangesOnlyText(l: Layer, data: seq<(string, string)>, today: string)
    ensures TextErased(Injected(l, data, today)) == TextErased(l)
    decreases l
  {
    var r := Injected(l, data, today);
    forall i | 0 <= i < |l.layers| ensures TextErased(r.layers[i]) == TextErased(l.layers[i]) {
      if IsContainer(l.kind) {
        InjectedChangesOnlyText(l.layers[i], data, today);
      }
    }
  }

  /** injectDynamicData; `None` where the source throws. */
  method InjectDynamicData(layer: Layer, data: seq<(string, string)>, today: string) returns (r: Option<Layer>)
    ensures r.Some? <==> InjectSafe(layer, data)
    ensures r.Some? ==> r.value == Injected(layer, data, today)
    decreases layer
  {
    var result := layer;
    if IsContainer(layer.kind) {
      var children := layer.layers;
      var i := 0;
      while i < |children|
        invariant 0 <= i <= |children| == |layer.layers|
        invariant forall k :: 0 <= k < i ==> InjectSafe(layer.layers[k], data) && children[k] == Injected(layer.layers[k], data, today)
        invariant forall k :: i <= k < |children| ==> children[k] == layer.layers[k]
      {
        var sublayer := InjectDynamicData(layer.layers[i], data, today);
        if sublayer.None? {
          return None;
        }
        children := children[i := sublayer.value];
        i := i + 1;
      }
      result := result.(layers := children);
    }
    if layer.kind == Text {
      if layer.attributedString.None? {
        return None;
      }
      var a := InjectIntoText(layer.attributedString.value, data, today);
      if a.None? {
        return None;
      }
      result := result.(attributedString := a);
    }
    r := Some(result);
  }

  /** The key loop and the date keyword on one attributed string. */
  method InjectIntoText(a: AttributedString, data: seq<(string, string)>, today: string) returns (r: Option<AttributedString>)
    ensures r.Some? <==> TextSafe(a, data)
    ensures r.Some? ==> r.value == InjectText(a, data, today)
  {
    var text := a.text;
    var current := a;
    var k := 0;
    while k < |data|
      invariant 0 <= k <= |data|
      invariant text == Substituted(a.text, data[..k])
      invariant current == if Hit(a.text, data[..k]) then a.(text := text, attributes := SetFirstLength(a.attributes, |text|)) else a
      invariant |a.attributes| == 0 ==> !Hit(a.text, data[..k])
    {
      var (key, value) := data[k];
      assert data[..k + 1][..k] == data[..k];
      var pattern := Token(key);
      var replacement := ReplaceFirst(text, pattern, value);
      if Includes(text, pattern) {
        if |current.attributes| == 0 {
          HitPrefix(a.text, data, k + 1);
          return None;
        }
        current := current.(text := replacement, attributes := current.attributes[0 := current.attributes[0].(length := |replacement|)]);
        text := replacement;
      }
      k := k + 1;
    }
    assert data[..k] == data;
    if Includes(text, DateToken) {
      if |current.attributes| == 0 {
        return None;
      }
      var t2 := ReplaceFirst(text, DateToken, today);
      current := current.(text := t2, attributes := current.attributes[0 := current.attributes[0].(length := |t2|)]);
    }
    r := Some(current);
  }

  /** When no placeholder occurs at its turn, the key loop leaves the text as it was. */
  lemma {:induction false} NoHitKeepsText(text: string, data: seq<(string, string)>)
    ensures !Hit(text, data) ==> Substituted(text, data) == text
    decreases |data|
  {
    if data != [] {
      NoHitKeepsText(text, data[..|data| - 1]);
    }
  }

  /** A placeholder that occurs in a prefix of the data counts for the whole data. */
  lemma {:induction false} HitPrefix(text: string, data: seq<(string, string)>, k: nat)
    requires k <= |data| && Hit(text, data[..k])
    ensures Hit(text, data)
    decreases |data| - k
  {
    if k < |data| {
      var n := |data[..k + 1]| - 1;
      assert data[..k + 1][..n] == data[..k];
      HitPrefix(text, data, k + 1);
    } else {
      assert data[..k] == data;
    }
  }

  /** A layer with a single style run keeps that run covering the whole string. */
  lemma SingleRunCoversText(a: AttributedString, data: seq<(string, string)>, today: string)
    requires |a.attributes| == 1 && a.attributes[0].length == |a.text|
    ensures InjectText(a, data, today).attributes[0].length == |InjectText(a, data, today).text|
  {
    NoHitKeepsText(a.text, data);
  }

  /** `Hello {{name}}` with `name` set to `World` reads `Hello World`, and its first run
      is 11 characters long. */
  lemma GreetingExample(run: StringAttribute, today: string)
    ensures var r := InjectText(AttributedString("Hello {{name}}", [run]), [("name", "World")], today);
      r.text == "Hello World" && r.attributes == [run.(length := 11)]
  {
    var data := [("name", "World")];
    assert data[..0] == [];
    GreetingPlaceholderAt6();
    assert Substituted("Hello {{name}}", data) == "Hello World";
    assert Hit("Hello {{name}}", data);
    GreetingHasNoDate();
  }

  lemma GreetingPlaceholderAt6()
    ensures IndexOf("Hello {{name}}", Token("name")) == Some(6)
    ensures ReplaceFirst("Hello {{name}}", Token("name"), "World") == "Hello World"
  {
    var text := "Hello {{name}}";
    assert Token("name") == "{{name}}";
    assert text[6..14] == "{{name}}";
    assert OccursAt(text, Token("name"), 6);
    forall m: nat | m < 6 ensures !OccursAt(text, Token("name"), m) {
      assert text[m] != '{';
    }
    assert text[..6] + "World" + text[14..] == "Hello World";
  }

  lemma GreetingHasNoDate()
    ensures !Includes("Hello World", DateToken)
  {
    forall m: nat ensures !OccursAt("Hello World", DateToken, m) {
      if m + 8 <= 11 {
        assert DateToken[0] == '{' && "Hello World"[m..m + 8][0] == "Hello World"[m] != '{';
      }
    }
  }
}
