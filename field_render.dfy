/** The decisions output() takes while rendering a field, apart from the
    markup it prints: which text goes in the description and tooltip slots
    and how each is wrapped, which type and class a text-like input gets,
    which options show as selected, and how a checkbox joins its row. */
module FieldRender {
  import opened PhpValues
  import opened SettingsPage

  /** The schema's `tooltip` key: the flag true or false (false when the key is
      missing), or a tooltip text. */
  datatype Tooltip = Flag(on: bool) | Hint(text: string)

  /** The description shown beside the input and the tip shown as help. */
  datatype Slots = Slots(description: string, tip: string)

  /** Which slot the `desc` text and the tooltip fill. */
  function ResolveSlots(desc: string, tooltip: Tooltip): (r: Slots)
    ensures tooltip == Flag(true) ==> r == Slots("", desc)
    ensures tooltip.Hint? && !EmptyString(tooltip.text) ==> r == Slots(desc, tooltip.text)
    ensures tooltip != Flag(true) && !(tooltip.Hint? && !EmptyString(tooltip.text)) ==>
              r == (if EmptyString(desc) then Slots("", "") else Slots(desc, ""))
    ensures r.description == desc || r.description == ""
    ensures r.tip != "" ==> r.tip == desc || (tooltip.Hint? && r.tip == tooltip.text)
  {
    if tooltip == Flag(true) then Slots("", desc)
    else if tooltip.Hint? && !EmptyString(tooltip.text) then Slots(desc, tooltip.text)
    else if !EmptyString(desc) then Slots(desc, "")
    else Slots("", "")
  }

  /** How a slot is printed: not at all, as its text unwrapped and
      unfiltered, as a paragraph, inline, or as a help icon whose data-tip
      carries the text. */
  datatype Markup = Absent | Raw(text: string) | Paragraph(html: string) | Inline(html: string) | HelpIcon(text: string)

  /** The description slot. The wrapping tests read the slot as a boolean, so
      "0", which PHP reads as false, is printed as it is; "" prints nothing.
      Any other text is filtered by wp_kses_post, inline for a checkbox and in
      a paragraph for every other type. */
  function DescriptionMarkup(f: Filters, fieldType: string, description: string): (m: Markup)
    ensures m.Absent? <==> description == ""
    ensures m.Raw? <==> description == "0"
    ensures m.Raw? ==> m.text == description
    ensures m.Inline? <==> !EmptyString(description) && fieldType == "checkbox"
    ensures !EmptyString(description) ==> (m.Paragraph? || m.Inline?) && m.html == f.ksesPost(description)
  {
    if description == "" then Absent
    else if description == "0" then Raw(description)
    else if fieldType == "checkbox" then Inline(f.ksesPost(description))
    else Paragraph(f.ksesPost(description))
  }

  /** The tip slot: nothing when it is "", "0" printed as it is, an
      unfiltered paragraph for a checkbox, a help icon for every other type. */
  function TipMarkup(fieldType: string, tip: string): (m: Markup)
    ensures m.Absent? <==> tip == ""
    ensures m.Raw? <==> tip == "0"
    ensures m.Raw? ==> m.text == tip
    ensures m.HelpIcon? <==> !EmptyString(tip) && fieldType != "checkbox"
    ensures m == Paragraph(tip) <==> !EmptyString(tip) && fieldType == "checkbox"
    ensures m.HelpIcon? ==> m.text == tip
  {
    if tip == "" then Absent
    else if tip == "0" then Raw(tip)
    else if fieldType == "checkbox" then Paragraph(tip)
    else HelpIcon(tip)
  }

  /** A desc of "0" is printed as it is in whichever slot it lands: beside a
      tooltip text it is the description, with the tooltip flag set it is the
      tip; with no tooltip it is dropped. */
  lemma ZeroDescription(f: Filters, fieldType: string, tooltip: Tooltip)
    ensures tooltip.Hint? && !EmptyString(tooltip.text) ==>
              DescriptionMarkup(f, fieldType, ResolveSlots("0", tooltip).description) == Raw("0")
    ensures tooltip == Flag(true) ==> TipMarkup(fieldType, ResolveSlots("0", tooltip).tip) == Raw("0")
    ensures tooltip == Flag(false) ==> ResolveSlots("0", tooltip) == Slots("", "")
  {
  }

  /** The type and class attributes of a text, email, number, color or
      password input. */
  datatype InputAttrs = InputAttrs(inputType: string, cssClass: string)

  const DefaultClass: string := "regular-text"
  const ColourClass: string := "colorpick"

  /** The class a text-like input starts from: its own, or regular-text when
      that is empty. */
  function BaseClass(cssClass: string): (c: string)
    ensures !EmptyString(c)
  {
    if EmptyString(cssClass) then DefaultClass else cssClass
  }

  /** A colour field is rendered as a text input whose class has "colorpick"
      appended with no separator; other types keep their type and class. */
  function TextInputAttrs(fieldType: string, cssClass: string): (r: InputAttrs)
    ensures r.inputType != "color"
    ensures fieldType != "color" ==> r == InputAttrs(fieldType, BaseClass(cssClass))
    ensures fieldType == "color" ==> r.inputType == "text"
    ensures fieldType == "color" ==>
              |r.cssClass| > |ColourClass| && r.cssClass == BaseClass(cssClass) + ColourClass
    ensures !EmptyString(cssClass) ==> cssClass <= r.cssClass
    ensures EmptyString(cssClass) ==> DefaultClass <= r.cssClass
  {
    var base := BaseClass(cssClass);
    if fieldType == "color" then InputAttrs("text", base + ColourClass)
    else InputAttrs(fieldType, base)
  }

  /** An option key matches one element of a stored array: the same string,
      or the empty key against null. This is strict comparison, standing in
      for PHP's loose == (numeric strings such as "1" and "01" do not match). */
  predicate ElementMatches(key: string, v: Value) {
    match v
    case Str(s) => s == key
    case Null => key == ""
    case _ => false
  }

  /** in_array($key, $stored): some element of the stored array matches the
      key; false when the stored value is not an array. */
  predicate InArray(key: string, stored: Value) {
    match stored
    case List(xs) => key in xs
    case Dict(m) => exists k :: k in m && ElementMatches(key, m[k])
    case _ => false
  }

  /** The option lists whose entries carry a selected or checked state. */
  datatype Choice = SelectBox | MultiSelectBox | RadioGroup | CheckGroup

  /** Whether the option with the given key is shown selected. A select or
      multiselect tests membership when the stored value is an array and
      string equality otherwise; a radio group tests string equality; a
      multicheck group tests membership. */
  function OptionSelected(choice: Choice, stored: Value, key: string): (r: bool)
    ensures choice.RadioGroup? ==> (r <==> StringOf(stored) == key)
    ensures choice.CheckGroup? ==> (r <==> InArray(key, stored))
    ensures (choice.SelectBox? || choice.MultiSelectBox?) && IsArray(stored) ==> (r <==> InArray(key, stored))
    ensures (choice.SelectBox? || choice.MultiSelectBox?) && !IsArray(stored) ==> (r <==> StringOf(stored) == key)
    ensures stored.List? && !choice.RadioGroup? ==> (r <==> key in stored.items)
  {
    match choice
    case SelectBox => if IsArray(stored) then InArray(key, stored) else StringOf(stored) == key
    case MultiSelectBox => if IsArray(stored) then InArray(key, stored) else StringOf(stored) == key
    case RadioGroup => StringOf(stored) == key
    case CheckGroup => InArray(key, stored)
  }

  /** A checkbox is shown checked when its stored value is the string "yes". */
  predicate CheckboxChecked(stored: Value) {
    StringOf(stored) == "yes"
  }

  /** The classes a checkbox's row or fieldset can carry, in the order
      output() adds them. */
  const VisibilityClassNames: seq<string> := ["hidden_option", "hide_options_if_checked", "show_options_if_checked"]

  /** The position of a visibility class in that order. */
  function VisibilityRank(c: string): nat {
    if c == VisibilityClassNames[0] then 0
    else if c == VisibilityClassNames[1] then 1
    else 2
  }

  /** The classes of a checkbox's row or fieldset, from its hide_if_checked and
      show_if_checked keys (missing keys never match), in the order they are
      printed. */
  function VisibilityClasses(hideIfChecked: Option<string>, showIfChecked: Option<string>): (r: seq<string>)
    ensures "hidden_option" in r <==> hideIfChecked == Some("yes") || showIfChecked == Some("yes")
    ensures "hide_options_if_checked" in r <==> hideIfChecked == Some("option")
    ensures "show_options_if_checked" in r <==> showIfChecked == Some("option")
    ensures forall c :: c in r ==> c in VisibilityClassNames
    ensures forall i, j :: 0 <= i < j < |r| ==> VisibilityRank(r[i]) < VisibilityRank(r[j])
    ensures |r| <= 2
  {
    (if hideIfChecked == Some("yes") || showIfChecked == Some("yes") then ["hidden_option"] else [])
    + (if hideIfChecked == Some("option") then ["hide_options_if_checked"] else [])
    + (if showIfChecked == Some("option") then ["show_options_if_checked"] else [])
  }

  /** Whether a checkbox opens a new table row (alone or first of a group) and
      whether it closes it (alone or last of a group). */
  function CheckboxRowEdges(checkboxGroup: Option<string>): (r: (bool, bool))
    ensures checkboxGroup.None? ==> r == (true, true)
    ensures checkboxGroup.Some? ==> r == (checkboxGroup.value == "start", checkboxGroup.value == "end")
    ensures !(r.0 && r.1) ==> checkboxGroup.Some?
  {
    match checkboxGroup
    case None => (true, true)
    case Some(g) => (g == "start", g == "end")
  }

  /** The schema entries output() renders: those with a type, in order, each
      as often as it occurs. */
  function RenderedFields(fields: seq<Field>): (r: seq<Field>)
    ensures forall x :: x in r ==> x in fields && x.fieldType.Some?
    ensures forall x :: x in fields && x.fieldType.Some? ==> x in r
    ensures |r| <= |fields|
  {
    if fields == [] then []
    else
      var rest := RenderedFields(fields[1..]);
      if fields[0].fieldType.Some? then [fields[0]] + rest else rest
  }

  /** Every typed entry is rendered as often as it occurs in the schema, and
      no untyped entry is rendered. */
  lemma {:induction false} RenderedFieldsCount(fields: seq<Field>, x: Field)
    ensures multiset(RenderedFields(fields))[x] == if x.fieldType.Some? then multiset(fields)[x] else 0
  {
    if fields != [] {
      assert fields == [fields[0]] + fields[1..];
      assert multiset(fields) == multiset([fields[0]]) + multiset(fields[1..]);
      RenderedFieldsCount(fields[1..], x);
    }
  }

  /** Rendering keeps the schema's order: the entries of a concatenation are
      those of its first part followed by those of its second. */
  lemma {:induction false} RenderedFieldsAppend(a: seq<Field>, b: seq<Field>)
    ensures RenderedFields(a + b) == RenderedFields(a) + RenderedFields(b)
  {
    if a == [] {
      assert a + b == b;
    } else {
      assert a == [a[0]] + a[1..];
      assert a + b == [a[0]] + (a[1..] + b);
      var head := if a[0].fieldType.Some? then [a[0]] else [];
      RenderedFieldsAppend(a[1..], b);
      RenderedFieldsCons(a[0], a[1..] + b);
      RenderedFieldsCons(a[0], a[1..]);
      calc {
        RenderedFields(a + b);
        head + RenderedFields(a[1..] + b);
        head + (RenderedFields(a[1..]) + RenderedFields(b));
        (head + RenderedFields(a[1..])) + RenderedFields(b);
        RenderedFields(a) + RenderedFields(b);
      }
    }
  }

  /** Rendering a schema that starts with x: x if it has a type, then the
      rest. */
  lemma RenderedFieldsCons(x: Field, rest: seq<Field>)
    ensures RenderedFields([x] + rest) == (if x.fieldType.Some? then [x] else []) + RenderedFields(rest)
  {
    assert ([x] + rest)[0] == x && ([x] + rest)[1..] == rest;
  }

  /** The read output() evidently intends for a field's setting: get_option
      of a plain id, and for an id `name[key]` get_option of name, then key
      inside it (the un-slashed default when that key is missing or null). */
  function ReadSetting(f: Filters, page: Page, store: map<string, Value>, id: string, default: Value): (r: Value)
    ensures ParseId(id).Plain? ==> r == GetOption(f, page, store, id, default)
    ensures ParseId(id).Nested? && !IsArray(GetOption(f, page, store, ParseId(id).name, Dict(map[]))) ==>
              r == Unslash(f, default)
  {
    match ParseId(id)
    case Plain(x) => GetOption(f, page, store, x, default)
    case Nested(name, key) =>
      var entries := ArrayEntries(GetOption(f, page, store, name, Dict(map[])));
      if key in entries && !entries[key].Null? then entries[key] else Unslash(f, default)
  }
}
