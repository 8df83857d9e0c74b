/**
 * The pure parts of the image in-place editor: the metadata toolbar template
 * and the `currentValue` matcher that copies toolbar inputs into the host's
 * field form.
 */
module ImageToolbar {
  import opened Wrappers

  /**
   * The metadata the info endpoint returns, with the four flags already read as
   * JavaScript truth values.
   */
  datatype Info = Info(
    alt: string,
    title: string,
    altField: bool,
    titleField: bool,
    altFieldRequired: bool,
    titleFieldRequired: bool)

  /** `<label for=target class="form-required"?>text</label>` */
  datatype Label = Label(target: string, text: string, formRequired: bool)

  /** `<input type="text" placeholder=… value=… name=… required?/>` */
  datatype Input = Input(name: string, placeholder: string, value: string, required: bool)

  /** One label followed by its input. */
  datatype Entry = Entry(caption: Label, input: Input)

  /** The `quickedit-image-field-info` form, entries in document order. */
  type Form = seq<Entry>

  predicate HasInput(form: Form, name: string)
  {
    exists i :: 0 <= i < |form| && form[i].input.name == name
  }

  /**
   * The toolbar template: an `alt` entry when `alt_field` is set, then a `title`
   * entry when `title_field` is set. Each input is required by its own flag, but
   * both labels take their `form-required` class from `alt_field_required`.
   */
  function Template(info: Info): (form: Form)
    ensures HasInput(form, "alt") <==> info.altField
    ensures HasInput(form, "title") <==> info.titleField
    ensures |form| == (if info.altField then 1 else 0) + (if info.titleField then 1 else 0)
    ensures forall i :: 0 <= i < |form| ==> form[i].input.name == "alt" || form[i].input.name == "title"
    ensures forall i, j :: 0 <= i < |form| && 0 <= j < |form| && form[i].input.name == "alt" && form[j].input.name == "title" ==> i < j
    ensures forall i :: 0 <= i < |form| ==> form[i].caption.target == form[i].input.name
    ensures forall i :: 0 <= i < |form| ==> form[i].caption.formRequired == info.altFieldRequired
    ensures forall i :: 0 <= i < |form| && form[i].input.name == "alt" ==>
              form[i].input == Input("alt", info.alt, info.alt, info.altFieldRequired) && form[i].caption.text == "Alt"
    ensures forall i :: 0 <= i < |form| && form[i].input.name == "title" ==>
              form[i].input == Input("title", info.title, info.title, info.titleFieldRequired) && form[i].caption.text == "Title"
  {
    var alt := if info.altField then [Entry(Label("alt", "Alt", info.altFieldRequired), Input("alt", info.alt, info.alt, info.altFieldRequired))] else [];
    var title := if info.titleField then [Entry(Label("title", "Title", info.altFieldRequired), Input("title", info.title, info.title, info.titleFieldRequired))] else [];
    var form := alt + title;
    assert info.altField ==> form[0].input.name == "alt";
    assert info.titleField ==> form[|alt|].input.name == "title";
    form
  }

  predicate EndsWith(s: string, suffix: string)
  {
    |suffix| <= |s| && s[|s| - |suffix|..] == suffix
  }

  /** No name ends in both `alt]` and `title]`. */
  lemma SuffixesExclusive(name: string)
    ensures !(EndsWith(name, "alt]") && EndsWith(name, "title]"))
  {
    var n := |name|;
    if EndsWith(name, "alt]") {
      assert name[n - 4..][2] == name[n - 2];
      if n >= 6 {
        assert name[n - 6..][4] == name[n - 2];
      }
    }
  }

  /**
   * The regular expression `/(alt|title)]$/` applied to a form input's name:
   * the captured attribute, or nothing.
   */
  function MatchedName(name: string): (m: Option<string>)
    ensures m == Some("alt") <==> EndsWith(name, "alt]")
    ensures m == Some("title") <==> EndsWith(name, "title]")
    ensures m == None <==> !EndsWith(name, "alt]") && !EndsWith(name, "title]")
  {
    SuffixesExclusive(name);
    if EndsWith(name, "alt]") then Some("alt")
    else if EndsWith(name, "title]") then Some("title")
    else None
  }

  /** The position of the first input called `name`, or `|form|` when there is none. */
  function IndexOfInput(form: Form, name: string): (k: nat)
    ensures k <= |form|
    ensures k < |form| ==> form[k].input.name == name
    ensures forall j :: 0 <= j < k ==> form[j].input.name != name
  {
    if |form| == 0 then 0
    else if form[0].input.name == name then 0
    else 1 + IndexOfInput(form[1..], name)
  }

  /**
   * The value the `currentValue` callback gives a host form input called `name`:
   * when the name ends in `alt]` or `title]`, the value of the first toolbar input
   * of that name, if the toolbar has one; otherwise nothing.
   */
  function CurrentValue(name: string, toolbar: Option<Form>): (r: Option<string>)
    ensures r.Some? <==> MatchedName(name).Some? && toolbar.Some? && HasInput(toolbar.value, MatchedName(name).value)
    ensures r.Some? ==> r.value == toolbar.value[IndexOfInput(toolbar.value, MatchedName(name).value)].input.value
  {
    match MatchedName(name)
    case None => None
    case Some(attribute) =>
      if toolbar.None? then None
      else
        var k := IndexOfInput(toolbar.value, attribute);
        if k < |toolbar.value| then Some(toolbar.value[k].input.value) else None
  }

  /** What typing `value` into the toolbar input called `name` leaves behind. */
  function SetInputValue(form: Form, name: string, value: string): (f: Form)
    ensures |f| == |form|
    ensures forall i :: 0 <= i < |form| ==>
              f[i].caption == form[i].caption && f[i].input == form[i].input.(value := f[i].input.value)
    ensures forall i :: 0 <= i < |form| ==>
              f[i].input.value == if form[i].input.name == name then value else form[i].input.value
  {
    seq(|form|, i requires 0 <= i < |form| =>
      if form[i].input.name == name then form[i].(input := form[i].input.(value := value)) else form[i])
  }

  /** The first input of a name depends on the inputs' names only. */
  lemma IndexOfInputByNames(f: Form, g: Form, name: string)
    requires |f| == |g|
    requires forall i :: 0 <= i < |f| ==> f[i].input.name == g[i].input.name
    ensures IndexOfInput(f, name) == IndexOfInput(g, name)
  {
  }

  /**
   * Round trip: after the user types `value` into the toolbar input that a host
   * input's name points at, `currentValue` hands exactly that value back.
   */
  lemma TypedValueIsCurrent(name: string, form: Form, value: string)
    requires MatchedName(name).Some? && HasInput(form, MatchedName(name).value)
    ensures CurrentValue(name, Some(SetInputValue(form, MatchedName(name).value, value))) == Some(value)
  {
    var attribute := MatchedName(name).value;
    var typed := SetInputValue(form, attribute, value);
    IndexOfInputByNames(form, typed, attribute);
    var k := IndexOfInput(form, attribute);
    assert k < |form| by {
      var i :| 0 <= i < |form| && form[i].input.name == attribute;
      assert !(i < k);
    }
    assert typed[k].input.name == attribute;
  }

  /**
   * On a freshly rendered toolbar, `currentValue` gives the alt text to a name
   * ending in `alt]` iff the alt field exists, the title to a name ending in
   * `title]` iff the title field exists, and nothing to any other name.
   */
  lemma CurrentValueOfTemplate(name: string, info: Info)
    ensures CurrentValue(name, Some(Template(info))) ==
              if EndsWith(name, "alt]") then (if info.altField then Some(info.alt) else None)
              else if EndsWith(name, "title]") then (if info.titleField then Some(info.title) else None)
              else None
  {
    var form := Template(info);
    match MatchedName(name)
    case None =>
    case Some(attribute) =>
      var k := IndexOfInput(form, attribute);
      if k < |form| {
        assert form[k].input.name == attribute;
      }
  }
}
