/** What save promises across a whole schema: which field's value ends up
    under a key, how bracketed ids merge with what is stored, that checkbox
    content is ignored, and that what save writes is what get_option and the
    render decisions read back. */
module SaveProperties {
  import opened PhpValues
  import opened Options
  import opened SettingsPage
  import opened FieldRender

  /** The field writes the plain key `name` (its id is `name`, with no '['). */
  predicate WritesPlain(f: Filters, field: Field, name: string) {
    Target(f, field) == Some(name) && ParseId(field.id.value).Plain?
  }

  /** The key a field writes inside the array under `name`, if its id is
      `name[key]` and its type stores a value. */
  function NestedKeyOf(f: Filters, field: Field, name: string): Option<string> {
    if Target(f, field) == Some(name) && ParseId(field.id.value).Nested? then Some(ParseId(field.id.value).key)
    else None
  }

  /** The bracketed writes under `name` after one more field: its key now
      maps to its value, if it writes one. */
  function AddNestedWrite(f: Filters, earlier: map<string, Value>, field: Field, post: map<string, Posted>, name: string): map<string, Value> {
    match NestedKeyOf(f, field, name)
    case None => earlier
    case Some(k) => earlier[k := FieldValue(f, FieldKind(f, field), field.id.value, post).value]
  }

  /** Reference definition of the bracketed writes under `name`: each key the
      schema's `name[key]` fields set, with the value of the last such field. */
  function NestedWrites(f: Filters, fields: seq<Field>, post: map<string, Posted>, name: string): map<string, Value>
    decreases |fields|
  {
    if fields == [] then map[]
    else
      var n := |fields| - 1;
      AddNestedWrite(f, NestedWrites(f, fields[..n], post, name), fields[n], post, name)
  }

  /** A field with a plain id whose value no later field overwrites leaves its
      own value in the update map: the last field with a given id wins. */
  lemma {:induction false} LastPlainWriteWins(f: Filters, fields: seq<Field>, post: map<string, Posted>, store: map<string, Value>, j: nat)
    requires j < |fields|
    requires fields[j].id.Some? && '[' !in fields[j].id.value
    requires !FieldKind(f, fields[j]).Custom?
    requires forall i :: j < i < |fields| ==> Target(f, fields[i]) != Some(fields[j].id.value)
    ensures fields[j].id.value in Accumulate(f, fields, post, store)
    ensures Some(Accumulate(f, fields, post, store)[fields[j].id.value])
            == FieldValue(f, FieldKind(f, fields[j]), fields[j].id.value, post)
  {
    var n := |fields| - 1;
    AccumulateNext(f, fields, n, post, store);
    assert fields[..n + 1] == fields;
    if j < n {
      LastPlainWriteWins(f, fields[..n], post, store, j);
      assert Target(f, fields[n]) != Some(fields[j].id.value);
    }
  }

  /** For a name no field writes as a plain id, the update map holds an entry
      exactly when some `name[key]` field stores a value, and that entry is the
      array read from the top-level store entry `name` (an empty array when it
      is missing or not an array) with every bracketed write applied over it:
      stored keys that no field writes are kept. */
  lemma {:induction false} NestedMerge(f: Filters, fields: seq<Field>, post: map<string, Posted>, store: map<string, Value>, name: string)
    requires forall i :: 0 <= i < |fields| ==> !WritesPlain(f, fields[i], name)
    ensures name in Accumulate(f, fields, post, store) <==> NestedWrites(f, fields, post, name) != map[]
    ensures name in Accumulate(f, fields, post, store) ==>
              Accumulate(f, fields, post, store)[name]
              == Dict(ArrayEntries(OldTopLevel(store, name)) + NestedWrites(f, fields, post, name))
    decreases |fields|
  {
    if fields != [] {
      var n := |fields| - 1;
      var prefix := fields[..n];
      assert forall i :: 0 <= i < |prefix| ==> prefix[i] == fields[i];
      NestedMerge(f, prefix, post, store, name);
      AccumulateNext(f, fields, n, post, store);
      assert fields[..n + 1] == fields;
      assert !WritesPlain(f, fields[n], name);
      NestedMergeLast(f, Accumulate(f, prefix, post, store), NestedWrites(f, prefix, post, name), fields[n], post, store, name);
    }
  }

  /** The relation NestedMerge states, carried over one more field. */
  lemma NestedMergeLast(f: Filters, before: map<string, Value>, earlier: map<string, Value>, field: Field,
                        post: map<string, Posted>, store: map<string, Value>, name: string)
    requires !WritesPlain(f, field, name)
    requires name in before <==> earlier != map[]
    requires name in before ==> before[name] == Dict(ArrayEntries(OldTopLevel(store, name)) + earlier)
    ensures var after := Step(f, before, field, post, store);
            var writes := AddNestedWrite(f, earlier, field, post, name);
            && (name in after <==> writes != map[])
            && (name in after ==> after[name] == Dict(ArrayEntries(OldTopLevel(store, name)) + writes))
  {
    match NestedKeyOf(f, field, name)
    case None =>
      NestedUntouched(f, before, field, post, store, name);
    case Some(k) =>
      var v := FieldValue(f, FieldKind(f, field), field.id.value, post).value;
      assert ParseId(field.id.value) == Nested(name, k);
      assert Step(f, before, field, post, store) == Place(before, Nested(name, k), v, store);
      NestedWriteStep(before, earlier, store, name, k, v);
  }

  /** A field that writes neither `name` nor `name[...]` leaves the update
      map's entry for name as it was. */
  lemma NestedUntouched(f: Filters, before: map<string, Value>, field: Field, post: map<string, Posted>,
                        store: map<string, Value>, name: string)
    requires !WritesPlain(f, field, name) && NestedKeyOf(f, field, name).None?
    ensures var after := Step(f, before, field, post, store);
            (name in after <==> name in before) && (name in before ==> after[name] == before[name])
  {
    assert Target(f, field) != Some(name);
  }

  /** A write `name[k] = v` applied to an update map related to the earlier
      bracketed writes relates it to those writes plus k. */
  lemma NestedWriteStep(before: map<string, Value>, earlier: map<string, Value>, store: map<string, Value>,
                        name: string, k: string, v: Value)
    requires name in before <==> earlier != map[]
    requires name in before ==> before[name] == Dict(ArrayEntries(OldTopLevel(store, name)) + earlier)
    ensures var after := Place(before, Nested(name, k), v, store);
            name in after && after[name] == Dict(ArrayEntries(OldTopLevel(store, name)) + earlier[k := v])
  {
    var stored := ArrayEntries(OldTopLevel(store, name));
    if name in before {
      assert ArrayEntries(NestedBase(before, store, name)) == stored + earlier;
      assert (stored + earlier)[k := v] == stored + earlier[k := v];
    } else {
      assert ArrayEntries(NestedBase(before, store, name)) == stored;
      assert stored[k := v] == stored + earlier[k := v];
    }
  }

  /** Keys stored under `name` that no bracketed field writes survive save's
      merge unchanged. */
  lemma MergeKeepsUnwrittenKeys(f: Filters, fields: seq<Field>, post: map<string, Posted>, store: map<string, Value>, name: string, k: string)
    requires forall i :: 0 <= i < |fields| ==> !WritesPlain(f, fields[i], name)
    requires name in Accumulate(f, fields, post, store)
    requires k in ArrayEntries(OldTopLevel(store, name)) && k !in NestedWrites(f, fields, post, name)
    ensures Accumulate(f, fields, post, store)[name].Dict?
    ensures k in Accumulate(f, fields, post, store)[name].entries
    ensures Accumulate(f, fields, post, store)[name].entries[k] == ArrayEntries(OldTopLevel(store, name))[k]
  {
    NestedMerge(f, fields, post, store, name);
  }

  /** The entry a plain value v ends as once the bracketed writes w follow
      it: v itself when there are none; otherwise v read as an array (a
      non-array as an empty one) with w laid over it. */
  function Overlay(v: Value, w: map<string, Value>): Value {
    if w == map[] then v else Dict(ArrayEntries(v) + w)
  }

  /** When field j is the last to write `name` as a plain id, the bracketed
      `name[key]` fields after it start from its value in the update map, not
      from the store: the entry is that value with their writes laid over it,
      and what the store held under name is lost. */
  lemma {:induction false} PlainThenNested(f: Filters, fields: seq<Field>, post: map<string, Posted>, store: map<string, Value>, name: string, j: nat)
    requires j < |fields| && WritesPlain(f, fields[j], name)
    requires forall i :: j < i < |fields| ==> !WritesPlain(f, fields[i], name)
    ensures name in Accumulate(f, fields, post, store)
    ensures Accumulate(f, fields, post, store)[name]
            == Overlay(FieldValue(f, FieldKind(f, fields[j]), fields[j].id.value, post).value,
                       NestedWrites(f, fields[j + 1..], post, name))
    decreases |fields|
  {
    var n := |fields| - 1;
    var v := FieldValue(f, FieldKind(f, fields[j]), fields[j].id.value, post).value;
    var prefix := fields[..n];
    if j == n {
      assert fields[j + 1..] == [];
      PlainWrite(f, Accumulate(f, prefix, post, store), fields[j], post, store, name);
    } else {
      assert prefix[j] == fields[j];
      assert forall i :: j < i < |prefix| ==> prefix[i] == fields[i];
      PlainThenNested(f, prefix, post, store, name, j);
      PlainThenNestedStep(f, fields, prefix, Accumulate(f, prefix, post, store), Accumulate(f, fields, post, store),
                          post, store, name, j, v);
    }
  }

  /** A field that writes `name` as a plain id sets the entry to its value. */
  lemma PlainWrite(f: Filters, before: map<string, Value>, field: Field, post: map<string, Posted>, store: map<string, Value>, name: string)
    requires WritesPlain(f, field, name)
    ensures var after := Step(f, before, field, post, store);
            name in after && after[name] == FieldValue(f, FieldKind(f, field), field.id.value, post).value
            && !after[name].Null?
  {
    assert ParseId(field.id.value) == Plain(name);
  }

  /** One more field after the plain write: the step from the update map of
      the prefix to that of the whole schema keeps the overlay relation. */
  lemma PlainThenNestedStep(f: Filters, fields: seq<Field>, prefix: seq<Field>, before: map<string, Value>, after: map<string, Value>,
                            post: map<string, Posted>, store: map<string, Value>, name: string, j: nat, v: Value)
    requires j + 1 < |fields| && prefix == fields[..|fields| - 1]
    requires !WritesPlain(f, fields[|fields| - 1], name) && !v.Null?
    requires name in before && before[name] == Overlay(v, NestedWrites(f, prefix[j + 1..], post, name))
    requires after == Step(f, before, fields[|fields| - 1], post, store)
    ensures name in after && after[name] == Overlay(v, NestedWrites(f, fields[j + 1..], post, name))
  {
    NestedWritesSuffix(f, fields, prefix, post, name, j);
    PlainMergeLast(f, before, NestedWrites(f, prefix[j + 1..], post, name), v, fields[|fields| - 1], post, store, name);
  }

  /** The bracketed writes of the fields after j, unfolded at the last field. */
  lemma NestedWritesSuffix(f: Filters, fields: seq<Field>, prefix: seq<Field>, post: map<string, Posted>, name: string, j: nat)
    requires j + 1 < |fields| && prefix == fields[..|fields| - 1]
    ensures NestedWrites(f, fields[j + 1..], post, name)
            == AddNestedWrite(f, NestedWrites(f, prefix[j + 1..], post, name), fields[|fields| - 1], post, name)
  {
    var tail := fields[j + 1..];
    assert tail[..|tail| - 1] == prefix[j + 1..];
    assert tail[|tail| - 1] == fields[|fields| - 1];
  }

  /** The relation PlainThenNested states, carried over one more field. */
  lemma PlainMergeLast(f: Filters, before: map<string, Value>, earlier: map<string, Value>, v: Value, field: Field,
                       post: map<string, Posted>, store: map<string, Value>, name: string)
    requires !WritesPlain(f, field, name) && !v.Null?
    requires name in before && before[name] == Overlay(v, earlier)
    ensures var after := Step(f, before, field, post, store);
            name in after && after[name] == Overlay(v, AddNestedWrite(f, earlier, field, post, name))
  {
    var after := Step(f, before, field, post, store);
    match NestedKeyOf(f, field, name)
    case None =>
      NestedUntouched(f, before, field, post, store, name);
      assert AddNestedWrite(f, earlier, field, post, name) == earlier;
    case Some(k) =>
      var x := FieldValue(f, FieldKind(f, field), field.id.value, post).value;
      assert ParseId(field.id.value) == Nested(name, k);
      assert after == Place(before, Nested(name, k), x, store);
      assert NestedBase(before, store, name) == Overlay(v, earlier);
      OverlayWrite(v, earlier, k, x);
      var writes := earlier[k := x];
      assert AddNestedWrite(f, earlier, field, post, name) == writes;
      assert k in writes;
      assert after[name] == Dict(ArrayEntries(v) + writes);
  }

  /** One more bracketed write over an overlay is the overlay of one more
      write. */
  lemma OverlayWrite(v: Value, earlier: map<string, Value>, k: string, x: Value)
    ensures ArrayEntries(Overlay(v, earlier))[k := x] == ArrayEntries(v) + earlier[k := x]
  {
    if earlier == map[] {
      assert ArrayEntries(v)[k := x] == ArrayEntries(v) + map[][k := x];
    } else {
      assert (ArrayEntries(v) + earlier)[k := x] == ArrayEntries(v) + earlier[k := x];
    }
  }

  /** A plain field `group` sent as "x" and then a field `group[k]`: the entry
      is an array holding only k, whatever the store held under group. */
  lemma PlainThenNestedExample(f: Filters, store: map<string, Value>)
    requires f.sanitizeTitle("text") == "text"
    ensures var acc := Accumulate(f, [Field(Some("group"), Some("text")), Field(Some("group[k]"), Some("text"))],
                                  map["group" := One("x")], store);
            "group" in acc && acc["group"] == Dict(map["k" := Str("")])
  {
    var fields := [Field(Some("group"), Some("text")), Field(Some("group[k]"), Some("text"))];
    var post := map["group" := One("x")];
    PlainThenNestedFields(f, fields, post);
    PlainThenNested(f, fields, post, store, "group", 0);
    var v := FieldValue(f, FieldKind(f, fields[0]), fields[0].id.value, post).value;
    var w := NestedWrites(f, fields[0 + 1..], post, "group");
    assert w == map["k" := Str("")];
    assert "k" in w;
    assert ArrayEntries(v) == map[];
    assert ArrayEntries(v) + w == w;
    assert Overlay(v, w) == Dict(w);
  }

  /** The two fields of that example: the first writes group plainly, the
      second writes k inside it and stores the empty string. */
  lemma PlainThenNestedFields(f: Filters, fields: seq<Field>, post: map<string, Posted>)
    requires f.sanitizeTitle("text") == "text"
    requires fields == [Field(Some("group"), Some("text")), Field(Some("group[k]"), Some("text"))]
    requires post == map["group" := One("x")]
    ensures WritesPlain(f, fields[0], "group") && !WritesPlain(f, fields[1], "group")
    ensures FieldValue(f, FieldKind(f, fields[0]), fields[0].id.value, post).value.Str?
    ensures NestedWrites(f, fields[1..], post, "group") == map["k" := Str("")]
  {
    TextLikeTypes();
    PlainGroupField(f, fields[0]);
    GroupKField(f, fields[1], post);
    assert fields[1..] == [fields[1]];
    assert [fields[1]][..0] == [];
  }

  lemma PlainGroupField(f: Filters, field: Field)
    requires f.sanitizeTitle("text") == "text" && field == Field(Some("group"), Some("text"))
    ensures WritesPlain(f, field, "group") && FieldKind(f, field) == SingleLine
  {
    TextLikeTypes();
    assert ParseId("group") == Plain("group");
  }

  lemma GroupKField(f: Filters, field: Field, post: map<string, Posted>)
    requires f.sanitizeTitle("text") == "text" && field == Field(Some("group[k]"), Some("text"))
    requires post == map["group" := One("x")]
    ensures !WritesPlain(f, field, "group") && NestedKeyOf(f, field, "group") == Some("k")
    ensures FieldValue(f, FieldKind(f, field), field.id.value, post) == Some(Str(""))
  {
    TextLikeTypes();
    assert FieldKind(f, field) == SingleLine;
    assert "group[k]" == "group" + "[" + "k" + "]" + "";
    ParseIdOfBracketed("group", "k", "");
    assert "group[k]" !in post;
  }

  /** Two submissions that differ only in what they send for checkbox fields
      (and fields of types save does not handle) give the same update map:
      a checkbox stores "yes" whatever was sent. */
  predicate DifferOnlyInCheckboxContent(f: Filters, fields: seq<Field>, post1: map<string, Posted>, post2: map<string, Posted>) {
    && post1.Keys == post2.Keys
    && forall i :: 0 <= i < |fields| ==> ContentIrrelevant(f, fields[i], post1, post2)
  }

  /** The field's id is sent identically in both submissions, or the field
      is a checkbox or of a type save does not handle. */
  predicate ContentIrrelevant(f: Filters, field: Field, post1: map<string, Posted>, post2: map<string, Posted>) {
    field.id.None? || field.id.value !in post1 || field.id.value !in post2 ||
    post1[field.id.value] == post2[field.id.value] ||
    FieldKind(f, field).Checkbox? || FieldKind(f, field).Custom?
  }

  lemma {:induction false} CheckboxContentIgnored(f: Filters, fields: seq<Field>, post1: map<string, Posted>, post2: map<string, Posted>, store: map<string, Value>)
    requires DifferOnlyInCheckboxContent(f, fields, post1, post2)
    ensures Accumulate(f, fields, post1, store) == Accumulate(f, fields, post2, store)
    decreases |fields|
  {
    if fields != [] {
      var n := |fields| - 1;
      var prefix := fields[..n];
      assert forall i :: 0 <= i < |prefix| ==> prefix[i] == fields[i];
      CheckboxContentIgnored(f, prefix, post1, post2, store);
      AccumulateNext(f, fields, n, post1, store);
      AccumulateNext(f, fields, n, post2, store);
      assert fields[..n + 1] == fields;
      var field := fields[n];
      if field.id.Some? {
        var id := field.id.value;
        assert FieldValue(f, FieldKind(f, field), id, post1) == FieldValue(f, FieldKind(f, field), id, post2);
      }
    }
  }

  /** What save writes under a key is what get_option then reads for it, in
      both modes (un-slashed as every read is). */
  lemma SaveThenGetOption(f: Filters, page: Page, store: map<string, Value>, post: map<string, Posted>, name: string, default: Value)
    requires name in Accumulate(f, page.settings, post, store)
    ensures GetOption(f, page, SaveResult(f, page, store, post, true), name, default)
            == Unslash(f, Accumulate(f, page.settings, post, store)[name])
  {
    var update := Accumulate(f, page.settings, post, store);
    var after := SaveResult(f, page, store, post, true);
    if !page.singleOption {
      assert GroupEntries(page, after) == update;
    }
  }

  /** Saving a checkbox field (the last one writing its id) and reading it back
      shows it checked exactly when its id was submitted, as long as
      stripslashes leaves "yes" and "no" as they are. */
  lemma CheckboxSaveThenRender(f: Filters, page: Page, store: map<string, Value>, post: map<string, Posted>, j: nat, default: Value)
    requires j < |page.settings|
    requires page.settings[j].id.Some? && '[' !in page.settings[j].id.value
    requires FieldKind(f, page.settings[j]).Checkbox?
    requires forall i :: j < i < |page.settings| ==> Target(f, page.settings[i]) != Some(page.settings[j].id.value)
    requires f.stripSlashes("yes") == "yes" && f.stripSlashes("no") == "no"
    ensures CheckboxChecked(GetOption(f, page, SaveResult(f, page, store, post, true), page.settings[j].id.value, default))
            <==> page.settings[j].id.value in post
  {
    var id := page.settings[j].id.value;
    LastPlainWriteWins(f, page.settings, post, store, j);
    SaveThenGetOption(f, page, store, post, id, default);
  }

  /** Saving a multiselect field (the last one writing its id) and rendering
      it back marks an option selected exactly when its key is one of the
      saved strings, as read back through get_option. */
  lemma MultiselectSaveThenRender(f: Filters, page: Page, store: map<string, Value>, post: map<string, Posted>, j: nat, key: string)
    requires j < |page.settings|
    requires page.settings[j].id.Some? && '[' !in page.settings[j].id.value
    requires FieldKind(f, page.settings[j]).Multiselect?
    requires forall i :: j < i < |page.settings| ==> Target(f, page.settings[i]) != Some(page.settings[j].id.value)
    ensures var id := page.settings[j].id.value;
            var saved := FieldValue(f, Multiselect, id, post).value.items;
            OptionSelected(MultiSelectBox, GetOption(f, page, SaveResult(f, page, store, post, true), id, List([])), key)
            <==> exists i :: 0 <= i < |saved| && key == f.stripSlashes(saved[i])
  {
    var id := page.settings[j].id.value;
    LastPlainWriteWins(f, page.settings, post, store, j);
    SaveThenGetOption(f, page, store, post, id, List([]));
    var saved := FieldValue(f, Multiselect, id, post).value.items;
    var read := MapStrings(f.stripSlashes, saved);
    assert key in read <==> exists i :: 0 <= i < |saved| && key == f.stripSlashes(saved[i]) by {
      if key in read {
        var i :| 0 <= i < |read| && read[i] == key;
        assert key == f.stripSlashes(saved[i]);
      }
    }
  }

  // ---------------------------------------------------------------------
  // Worked examples

  /** The update map of a one-field schema is that field's step. */
  lemma OneFieldSchema(f: Filters, field: Field, post: map<string, Posted>, store: map<string, Value>)
    ensures Accumulate(f, [field], post, store) == Step(f, map[], field, post, store)
  {
    AccumulateNext(f, [field], 0, post, store);
    assert [field][..1] == [field];
    assert [field][..0] == [];
  }

  lemma TextLikeTypes()
    ensures KindOf("color") == SingleLine && KindOf("text") == SingleLine
  {
    assert "color" in SingleLineTypes && "text" in SingleLineTypes;
  }

  /** The update map of the one-field colour schema. */
  lemma ColourUpdate(f: Filters, field: Field, post: map<string, Posted>)
    requires f.sanitizeTitle("color") == "color"
    requires field == Field(Some("color_x"), Some("color")) && post == map["color_x" := One("#123456")]
    ensures Accumulate(f, [field], post, map[]) == map["color_x" := Str(f.sanitizeText(f.stripSlashes("#123456")))]
  {
    TextLikeTypes();
    assert FieldKind(f, field) == SingleLine;
    assert ParseId("color_x") == Plain("color_x");
    OneFieldSchema(f, field, post, map[]);
  }

  /** A colour field saved in group mode: the group blob becomes the one entry
      holding the sanitised colour. */
  lemma ColourFieldExample(f: Filters)
    requires f.sanitizeTitle("color") == "color"
    ensures var page := Page("general", false, [Field(Some("color_x"), Some("color"))]);
            var after := SaveResult(f, page, map[], map["color_x" := One("#123456")], true);
            after == map["erp_settings_general" := Dict(map["color_x" := Str(f.sanitizeText(f.stripSlashes("#123456")))])]
  {
    var field := Field(Some("color_x"), Some("color"));
    var page := Page("general", false, [field]);
    var post := map["color_x" := One("#123456")];
    ColourUpdate(f, field, post);
    GroupSave(f, page, map[], post);
    GeneralOptionId(page);
  }

  /** A colour field with no class of its own renders as a text input whose
      class is regular-text with colorpick appended. */
  lemma ColourInputExample()
    ensures TextInputAttrs("color", "") == InputAttrs("text", "regular-textcolorpick")
  {
    assert DefaultClass + ColourClass == "regular-textcolorpick";
  }

  /** In group mode a save with a valid nonce and a non-empty update map
      replaces the group blob with it. */
  lemma GroupSave(f: Filters, page: Page, store: map<string, Value>, post: map<string, Posted>)
    requires !page.singleOption && Accumulate(f, page.settings, post, store) != map[]
    ensures SaveResult(f, page, store, post, true) == store[OptionId(page) := Dict(Accumulate(f, page.settings, post, store))]
  {
  }

  lemma GeneralOptionId(page: Page)
    requires page.id == "general"
    ensures OptionId(page) == "erp_settings_general"
  {
  }

  /** The update map of a one-field schema with the id group[key1], over a
      store whose top-level entry "group" is the given value, for a request
      that sent "new" in that field. PHP files it under $_POST['group'], so
      save finds nothing under the whole id and stores the empty string. */
  lemma GroupKey1Update(f: Filters, field: Field, post: map<string, Posted>, store: map<string, Value>)
    requires f.sanitizeTitle("text") == "text"
    requires field == Field(Some("group[key1]"), Some("text")) && post == map["group" := Many(["new"])]
    ensures Accumulate(f, [field], post, store)
            == map["group" := Dict(ArrayEntries(OldTopLevel(store, "group"))["key1" := Str("")])]
  {
    GroupKey1Field(f, field, post);
    OneFieldSchema(f, field, post, store);
  }

  /** The group[key1] text field parses to its name and key and, absent from
      the submission, stores the empty string. */
  lemma GroupKey1Field(f: Filters, field: Field, post: map<string, Posted>)
    requires f.sanitizeTitle("text") == "text"
    requires field == Field(Some("group[key1]"), Some("text")) && post == map["group" := Many(["new"])]
    ensures ParseId(field.id.value) == Nested("group", "key1")
    ensures FieldValue(f, FieldKind(f, field), field.id.value, post) == Some(Str(""))
  {
    TextLikeTypes();
    assert FieldKind(f, field) == SingleLine;
    assert "group[key1]" == "group" + "[" + "key1" + "]" + "";
    ParseIdOfBracketed("group", "key1", "");
    assert "group[key1]" != "group";
  }

  /** A bracketed field saved beside a stored array keeps that array's other
      keys (single-option mode, where the array is its own store entry); the
      key it writes holds the missing-field value, whatever was typed. */
  lemma NestedMergeExample(f: Filters)
    requires f.sanitizeTitle("text") == "text"
    ensures var page := Page("general", true, [Field(Some("group[key1]"), Some("text"))]);
            var store := map["group" := Dict(map["key2" := Str("v2")])];
            var after := SaveResult(f, page, store, map["group" := Many(["new"])], true);
            after == map["group" := Dict(map["key1" := Str(""), "key2" := Str("v2")])]
  {
    var field := Field(Some("group[key1]"), Some("text"));
    var page := Page("general", true, [field]);
    var post := map["group" := Many(["new"])];
    var store := map["group" := Dict(map["key2" := Str("v2")])];
    GroupKey1Update(f, field, post, store);
    SingleOptionSave(f, page, store, post);
    MergedExampleMaps(store, Str(""));
  }

  lemma MergedExampleMaps(store: map<string, Value>, saved: Value)
    requires store == map["group" := Dict(map["key2" := Str("v2")])]
    ensures var merged := map["group" := Dict(ArrayEntries(OldTopLevel(store, "group"))["key1" := saved])];
            store + merged == map["group" := Dict(map["key1" := saved, "key2" := Str("v2")])]
  {
    assert map["key2" := Str("v2")]["key1" := saved] == map["key1" := saved, "key2" := Str("v2")];
  }

  /** In single-option mode a save with a valid nonce lays the update map over
      the store. */
  lemma SingleOptionSave(f: Filters, page: Page, store: map<string, Value>, post: map<string, Posted>)
    requires page.singleOption
    ensures SaveResult(f, page, store, post, true) == store + Accumulate(f, page.settings, post, store)
  {
    var update := Accumulate(f, page.settings, post, store);
    if update == map[] {
      assert store + update == store;
    }
  }

  /** In group mode the old array for `name[key]` is still read from the
      top-level store entry `name`, not from the group blob: an array stored
      inside the blob loses the keys no field writes. */
  lemma GroupModeReadsTopLevelExample(f: Filters)
    requires f.sanitizeTitle("text") == "text"
    ensures var page := Page("general", false, [Field(Some("group[key1]"), Some("text"))]);
            var store := map["erp_settings_general" := Dict(map["group" := Dict(map["key2" := Str("v2")])])];
            var after := SaveResult(f, page, store, map["group" := Many(["new"])], true);
            after["erp_settings_general"] == Dict(map["group" := Dict(map["key1" := Str("")])])
  {
    var page := Page("general", false, [Field(Some("group[key1]"), Some("text"))]);
    var store := map["erp_settings_general" := Dict(map["group" := Dict(map["key2" := Str("v2")])])];
    GeneralOptionId(page);
    assert "group" != "erp_settings_general";
    assert OldTopLevel(store, "group") == Dict(map[]);
    GroupKey1Update(f, Field(Some("group[key1]"), Some("text")), map["group" := Many(["new"])], store);
  }

  // ---------------------------------------------------------------------
  // Bracketed ids against the submission and the render

  /** The submission as PHP builds $_POST from a form: a field named
      `name[key]` is filed under `name`, so no top-level key contains '['. */
  predicate ParsedPost(post: map<string, Posted>) {
    forall k :: k in post ==> '[' !in k
  }

  /** save looks a field up under its whole id. For a bracketed id a parsed
      submission never has that key, so the field always stores the value
      its type stores when nothing was sent. */
  lemma BracketedFieldsReadMissing(f: Filters, field: Field, post: map<string, Posted>)
    requires ParsedPost(post)
    requires field.id.Some? && '[' in field.id.value && !FieldKind(f, field).Custom?
    ensures FieldValue(f, FieldKind(f, field), field.id.value, post) == Some(MissingValue(FieldKind(f, field)))
  {
  }

  /** No key of the update map contains '[': plain ids have none and a
      bracketed id writes the name before its '['. */
  lemma TargetsHaveNoBracket(f: Filters, fields: seq<Field>)
    ensures forall name :: name in Targets(f, fields) ==> '[' !in name
  {
    forall name | name in Targets(f, fields)
      ensures '[' !in name
    {
      var fd :| fd in fields && Target(f, fd).Some? && Target(f, fd).value == name;
      assert name == ParseId(fd.id.value).name;
    }
  }

  /** output() reads a setting with get_option of the field's whole id. In
      group mode, after a save that wrote anything, the group option has no
      key containing '[', so a bracketed field always renders its default. */
  lemma BracketedIdRendersDefault(f: Filters, page: Page, store: map<string, Value>, post: map<string, Posted>, id: string, default: Value)
    requires !page.singleOption && '[' in id && Targets(f, page.settings) != {}
    ensures GetOption(f, page, SaveResult(f, page, store, post, true), id, default) == Unslash(f, default)
  {
    TargetsHaveNoBracket(f, page.settings);
    assert GroupEntries(page, SaveResult(f, page, store, post, true)) == Accumulate(f, page.settings, post, store);
  }

  /** After save, the corrected read of `name[key]` returns, un-slashed, the
      text save stored for key inside the array under name, in both modes. */
  lemma SaveThenReadNested(f: Filters, page: Page, store: map<string, Value>, post: map<string, Posted>,
                           name: string, key: string, s: string, default: Value)
    requires '[' !in name && ']' !in key
    requires name in Accumulate(f, page.settings, post, store)
    requires Accumulate(f, page.settings, post, store)[name].Dict?
    requires key in Accumulate(f, page.settings, post, store)[name].entries
    requires Accumulate(f, page.settings, post, store)[name].entries[key] == Str(s)
    ensures ReadSetting(f, page, SaveResult(f, page, store, post, true), name + "[" + key + "]", default)
            == Str(f.stripSlashes(s))
  {
    var id := name + "[" + key + "]";
    assert name + "[" + key + "]" + "" == id;
    ParseIdOfBracketed(name, key, "");
    var after := SaveResult(f, page, store, post, true);
    var saved := Accumulate(f, page.settings, post, store)[name];
    SaveThenGetOption(f, page, store, post, name, Dict(map[]));
    UnslashedEntry(f, saved.entries, key, s);
    assert GetOption(f, page, after, name, Dict(map[])) == Unslash(f, saved);
  }

  /** Un-slashing an array un-slashes the text under each key. */
  lemma UnslashedEntry(f: Filters, m: map<string, Value>, key: string, s: string)
    requires key in m && m[key] == Str(s)
    ensures var entries := ArrayEntries(Unslash(f, Dict(m)));
            key in entries && entries[key] == Str(f.stripSlashes(s))
  {
  }
}
