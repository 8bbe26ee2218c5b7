/** The settings page class: how a submitted form becomes writes to the option
    store (save), and how one setting is read back (get_option). */
module SettingsPage {
  import opened PhpValues
  import opened Options

  /** One entry of the settings schema, reduced to the two keys save reads:
      the field's id and its type. Either may be missing from the entry. */
  datatype Field = Field(id: Option<string>, fieldType: Option<string>)

  /** A settings page: its id, whether every field is its own store entry
      (single-option mode) or all live in one group blob, and the schema that
      get_settings returns. */
  datatype Page = Page(id: string, singleOption: bool, settings: seq<Field>)

  const OptionPrefix: string := "erp_settings_"

  /** get_option_id: the store key of the page's group blob. */
  function OptionId(page: Page): (r: string)
    ensures |r| == |OptionPrefix| + |page.id|
    ensures r[..|OptionPrefix|] == OptionPrefix && r[|OptionPrefix|..] == page.id
  {
    OptionPrefix + page.id
  }

  // ---------------------------------------------------------------------
  // Reading a setting

  /** The entries of the page's group blob; a blob that is missing or is not
      an array has none. */
  function GroupEntries(page: Page, store: map<string, Value>): map<string, Value> {
    ArrayEntries(StoredOr(store, OptionId(page), Dict(map[])))
  }

  /** Whether the group blob holds a non-null value for the name (isset). */
  predicate InGroup(page: Page, store: map<string, Value>, name: string) {
    var entries := GroupEntries(page, store);
    name in entries && !entries[name].Null?
  }

  /** The un-slashing get_option applies to what it found: each element of an
      array, or the value itself; a null result stays null. */
  function Unslash(f: Filters, v: Value): Value {
    match v
    case Null => Null
    case Str(s) => Str(f.stripSlashes(s))
    case List(xs) => List(MapStrings(f.stripSlashes, xs))
    case Dict(m) => Dict(map k | k in m :: StripSlashesOf(f, m[k]))
  }

  /** get_option(name, default). In single-option mode it reads the store key
      `name`; in group mode it reads `name` inside the group blob. Either way
      a missing (or, in the blob, null) entry gives the default, and the
      result is un-slashed, the default included. */
  function GetOption(f: Filters, page: Page, store: map<string, Value>, name: string, default: Value): (r: Value)
    ensures page.singleOption && name in store ==> r == Unslash(f, store[name])
    ensures page.singleOption && name !in store ==> r == Unslash(f, default)
    ensures !page.singleOption && InGroup(page, store, name) ==> r == Unslash(f, GroupEntries(page, store)[name])
    ensures !page.singleOption && !InGroup(page, store, name) ==> r == Unslash(f, default)
  {
    var found :=
      if page.singleOption then StoredOr(store, name, default)
      else if InGroup(page, store, name) then GroupEntries(page, store)[name]
      else default;
    Unslash(f, found)
  }

  // ---------------------------------------------------------------------
  // The value one field contributes on save

  /** The branches of save's switch on the field type. SingleLine is the case
      shared by text, email, number, select, color, password,
      single_select_page, image and radio; Custom is the default branch, which
      only runs a hook. */
  datatype Kind = Checkbox | Textarea | Multicheck | SingleLine | Multiselect | Custom

  const SingleLineTypes: set<string> :=
    {"text", "email", "number", "select", "color", "password", "single_select_page", "image", "radio"}

  function KindOf(t: string): (k: Kind)
    ensures k.Checkbox? <==> t == "checkbox"
    ensures k.Textarea? <==> t == "textarea"
    ensures k.Multicheck? <==> t == "multicheck"
    ensures k.Multiselect? <==> t == "multiselect"
    ensures k.Custom? <==> t !in SingleLineTypes + {"checkbox", "textarea", "multicheck", "multiselect"}
    ensures k.SingleLine? <==> t in SingleLineTypes
  {
    if t == "checkbox" then Checkbox
    else if t == "textarea" then Textarea
    else if t == "multicheck" then Multicheck
    else if t in SingleLineTypes then SingleLine
    else if t == "multiselect" then Multiselect
    else Custom
  }

  /** The branch a field takes: its type after sanitize_title, or the empty
      string when it has none. */
  function FieldKind(f: Filters, field: Field): Kind {
    KindOf(if field.fieldType.Some? then f.sanitizeTitle(field.fieldType.value) else "")
  }

  /** What a field whose id is absent from the submission stores. */
  function MissingValue(kind: Kind): Value
    requires !kind.Custom?
  {
    match kind
    case Checkbox => Str("no")
    case Textarea => Str("")
    case SingleLine => Str("")
    case Multicheck => List([])
    case Multiselect => List([])
  }

  /** stripslashes of the submitted value, read as a string. A submitted list
      makes stripslashes return null, which the next filter reads as "". */
  function PostedText(f: Filters, p: Posted): string {
    match p
    case One(s) => f.stripSlashes(s)
    case Many(_) => ""
  }

  /** The submitted value cast to an array, each element un-slashed. */
  function PostedList(f: Filters, p: Posted): seq<string> {
    match p
    case One(s) => [f.stripSlashes(s)]
    case Many(xs) => MapStrings(f.stripSlashes, xs)
  }

  /** The option value save derives for a field of the given kind and id from
      the submission: None for the default branch, which stores nothing. */
  function FieldValue(f: Filters, kind: Kind, id: string, post: map<string, Posted>): (r: Option<Value>)
    ensures r.None? <==> kind.Custom?
    ensures r.Some? ==> !r.value.Null?
    ensures id !in post && !kind.Custom? ==> r == Some(MissingValue(kind))
    ensures id in post && kind.Checkbox? ==> r == Some(Str("yes"))
    ensures id in post && kind.Textarea? ==> r == Some(Str(f.ksesPost(f.trim(PostedText(f, post[id])))))
    ensures id in post && kind.SingleLine? ==> r == Some(Str(f.sanitizeText(PostedText(f, post[id]))))
    ensures id in post && (kind.Multicheck? || kind.Multiselect?) ==>
              r.Some? && r.value.List? && |r.value.items| == |PostedList(f, post[id])| &&
              forall i :: 0 <= i < |r.value.items| ==> r.value.items[i] == f.sanitizeText(PostedList(f, post[id])[i])
  {
    match kind
    case Custom => None
    case Checkbox => Some(Str(if id in post then "yes" else "no"))
    case Textarea =>
      Some(Str(if id in post then f.ksesPost(f.trim(PostedText(f, post[id]))) else ""))
    case SingleLine =>
      Some(Str(if id in post then f.sanitizeText(PostedText(f, post[id])) else ""))
    case Multicheck =>
      Some(List(if id in post then MapStrings(f.sanitizeText, PostedList(f, post[id])) else []))
    case Multiselect =>
      Some(List(if id in post then MapStrings(f.sanitizeText, PostedList(f, post[id])) else []))
  }

  // ---------------------------------------------------------------------
  // Field ids: plain names and `name[key]`

  /** The update-map entry an id addresses: the id itself, or for an id
      containing '[' the name before it and the key up to the next ']'. */
  datatype OptionKey = Plain(name: string) | Nested(name: string, key: string)

  /** The index of the first c in s, or |s| when there is none. */
  function IndexOf(s: string, c: char): (i: nat)
    ensures i <= |s|
    ensures forall j :: 0 <= j < i ==> s[j] != c
    ensures i < |s| ==> s[i] == c
  {
    if s == [] then 0
    else if s[0] == c then 0
    else 1 + IndexOf(s[1..], c)
  }

  /** parse_str on a field id, keeping the first-level key only, which is all
      save reads of it. */
  function ParseId(id: string): (k: OptionKey)
    ensures k.Plain? <==> '[' !in id
    ensures k.Plain? ==> k.name == id
    ensures k.Nested? ==> '[' !in k.name && ']' !in k.key && k.name + "[" + k.key <= id
  {
    var i := IndexOf(id, '[');
    if i == |id| then Plain(id)
    else
      var rest := id[i + 1..];
      var j := IndexOf(rest, ']');
      assert id[..i] + "[" + rest[..j] == id[..i + 1 + j];
      Nested(id[..i], rest[..j])
  }

  /** An id written `name[key]`, with anything after the ']', parses back to
      its name and key. */
  lemma ParseIdOfBracketed(name: string, key: string, tail: string)
    requires '[' !in name && ']' !in key
    ensures ParseId(name + "[" + key + "]" + tail) == Nested(name, key)
  {
    var id := name + "[" + key + "]" + tail;
    assert id[|name|] == '[';
    assert forall j :: 0 <= j < |name| ==> id[j] == name[j];
    var rest := id[|name| + 1..];
    assert rest == key + "]" + tail;
    assert rest[|key|] == ']';
    assert forall j :: 0 <= j < |key| ==> rest[j] == key[j];
  }

  // ---------------------------------------------------------------------
  // Building the update map

  /** The update-map key a field writes: none for an entry without an id or
      whose type falls to the default branch; otherwise the id's name. */
  function Target(f: Filters, field: Field): Option<string> {
    if field.id.None? || FieldKind(f, field).Custom? then None
    else Some(ParseId(field.id.value).name)
  }

  /** The keys the fields of a schema write. */
  function Targets(f: Filters, fields: seq<Field>): set<string> {
    set fd | fd in fields && Target(f, fd).Some? :: Target(f, fd).value
  }

  /** The value global get_option reads for `name[key]` fields when the update
      map has nothing for `name` yet: the top-level store entry, or an empty
      array. */
  function OldTopLevel(store: map<string, Value>, name: string): Value {
    StoredOr(store, name, Dict(map[]))
  }

  /** The array a bracketed write starts from: the update map's non-null entry
      for the name, otherwise the top-level store entry. */
  function NestedBase(update: map<string, Value>, store: map<string, Value>, name: string): Value {
    if name in update && !update[name].Null? then update[name] else OldTopLevel(store, name)
  }

  /** Records one field's value in the update map: a plain id overwrites its
      entry; `name[key]` sets key inside the array under name, after turning a
      non-array into an empty array. */
  function Place(update: map<string, Value>, key: OptionKey, v: Value, store: map<string, Value>): map<string, Value> {
    match key
    case Plain(x) => update[x := v]
    case Nested(name, k) => update[name := Dict(ArrayEntries(NestedBase(update, store, name))[k := v])]
  }

  /** One iteration of save's loop over the schema. */
  function Step(f: Filters, update: map<string, Value>, field: Field, post: map<string, Posted>, store: map<string, Value>): (r: map<string, Value>)
    ensures r.Keys == update.Keys + (if Target(f, field).Some? then {Target(f, field).value} else {})
    ensures forall k :: k in update && Target(f, field) != Some(k) ==> r[k] == update[k]
    ensures (forall k :: k in update ==> !update[k].Null?) ==> forall k :: k in r ==> !r[k].Null?
  {
    if field.id.None? then update
    else
      var v := FieldValue(f, FieldKind(f, field), field.id.value, post);
      if v.None? then update else Place(update, ParseId(field.id.value), v.value, store)
  }

  /** The update map after save's loop has run over the fields. It has an
      entry exactly for the keys the fields target, and none is null. */
  function Accumulate(f: Filters, fields: seq<Field>, post: map<string, Posted>, store: map<string, Value>): (r: map<string, Value>)
    ensures r.Keys == Targets(f, fields)
    ensures forall k :: k in r ==> !r[k].Null?
    decreases |fields|
  {
    if fields == [] then map[]
    else
      var n := |fields| - 1;
      var prefix := fields[..n];
      assert fields == prefix + [fields[n]];
      assert Targets(f, fields) == Targets(f, prefix) + (if Target(f, fields[n]).Some? then {Target(f, fields[n]).value} else {});
      Step(f, Accumulate(f, prefix, post, store), fields[n], post, store)
  }

  /** The update map after one more field is one more step. */
  lemma AccumulateNext(f: Filters, fields: seq<Field>, i: nat, post: map<string, Posted>, store: map<string, Value>)
    requires i < |fields|
    ensures Accumulate(f, fields[..i + 1], post, store) == Step(f, Accumulate(f, fields[..i], post, store), fields[i], post, store)
  {
    assert fields[..i + 1][..i] == fields[..i];
  }

  // ---------------------------------------------------------------------
  // Committing

  /** The store after the update map is committed: nothing when it is empty;
      each entry as its own store key in single-option mode; otherwise the
      whole map as the group blob, replacing what was there. */
  function Commit(page: Page, store: map<string, Value>, update: map<string, Value>): (r: map<string, Value>)
    ensures update == map[] ==> r == store
    ensures update != map[] && page.singleOption ==>
              r.Keys == store.Keys + update.Keys &&
              forall k :: k in r ==> r[k] == if k in update then update[k] else store[k]
    ensures update != map[] && !page.singleOption ==>
              r.Keys == store.Keys + {OptionId(page)} && r[OptionId(page)] == Dict(update) &&
              forall k :: k in store && k != OptionId(page) ==> r[k] == store[k]
  {
    if update == map[] then store
    else if page.singleOption then store + update
    else store[OptionId(page) := Dict(update)]
  }

  /** The store after save. A missing or invalid nonce changes nothing; otherwise
      only the keys the schema targets (single-option mode) or the group blob
      (group mode) can change. */
  function SaveResult(f: Filters, page: Page, store: map<string, Value>, post: map<string, Posted>, nonceValid: bool): (r: map<string, Value>)
    ensures !nonceValid ==> r == store
    ensures nonceValid && Targets(f, page.settings) == {} ==> r == store
    ensures page.singleOption ==> r.Keys == store.Keys + (if nonceValid then Targets(f, page.settings) else {})
    ensures page.singleOption ==> forall k :: k in store && k !in Targets(f, page.settings) ==> k in r && r[k] == store[k]
    ensures !page.singleOption ==> r.Keys <= store.Keys + {OptionId(page)}
    ensures !page.singleOption ==> forall k :: k in store && k != OptionId(page) ==> k in r && r[k] == store[k]
    ensures nonceValid && page.singleOption ==>
              forall k :: k in Targets(f, page.settings) ==> r[k] == Accumulate(f, page.settings, post, store)[k]
    ensures nonceValid && !page.singleOption && Targets(f, page.settings) != {} ==>
              OptionId(page) in r && r[OptionId(page)] == Dict(Accumulate(f, page.settings, post, store))
  {
    if !nonceValid then store
    else Commit(page, store, Accumulate(f, page.settings, post, store))
  }

  /** save(): when the nonce is valid, walks the schema building the update
      map, then commits it to the store. */
  method Save(f: Filters, page: Page, store: OptionStore, post: map<string, Posted>, nonceValid: bool)
    modifies store
    ensures store.options == SaveResult(f, page, old(store.options), post, nonceValid)
  {
    if nonceValid {
      var update := CollectUpdates(f, page.settings, post, store);
      WriteUpdates(page, store, update);
    }
  }

  /** save's loop over the schema: the update map it builds. The store is
      only read, for the old value of a bracketed id's name. */
  method CollectUpdates(f: Filters, fields: seq<Field>, post: map<string, Posted>, store: OptionStore) returns (update: map<string, Value>)
    ensures update == Accumulate(f, fields, post, store.options)
  {
    update := map[];
    var i := 0;
    while i < |fields|
      invariant 0 <= i <= |fields|
      invariant update == Accumulate(f, fields[..i], post, store.options)
    {
      update := ApplyField(f, update, fields[i], post, store);
      AccumulateNext(f, fields, i, post, store.options);
      i := i + 1;
    }
    assert fields[..i] == fields;
  }

  /** The body of save's loop for one schema entry: skip an entry without an
      id, derive the value by type, and record it under the id or, for
      `name[key]`, under key inside the array kept for name. */
  method ApplyField(f: Filters, update: map<string, Value>, field: Field, post: map<string, Posted>, store: OptionStore) returns (next: map<string, Value>)
    ensures next == Step(f, update, field, post, store.options)
  {
    next := update;
    if field.id.Some? {
      var id := field.id.value;
      var optionValue := FieldValue(f, FieldKind(f, field), id, post);
      if optionValue.Some? {
        match ParseId(id)
        case Plain(x) =>
          next := next[x := optionValue.value];
        case Nested(name, key) =>
          if name !in next || next[name].Null? {
            next := next[name := store.Get(name, Dict(map[]))];
          }
          if !IsArray(next[name]) {
            next := next[name := Dict(map[])];
          }
          next := next[name := Dict(ArrayEntries(next[name])[key := optionValue.value])];
      }
    }
  }

  /** The end of save: an empty update map writes nothing; in single-option
      mode each entry is written as its own option; otherwise the map is
      written as the group blob. */
  method WriteUpdates(page: Page, store: OptionStore, update: map<string, Value>)
    modifies store
    ensures store.options == Commit(page, old(store.options), update)
  {
    if update != map[] {
      if page.singleOption {
        var pending := update.Keys;
        while pending != {}
          invariant pending <= update.Keys
          invariant store.options == old(store.options) + map k | k in update.Keys - pending :: update[k]
          decreases pending
        {
          var name :| name in pending;
          store.Update(name, update[name]);
          pending := pending - {name};
        }
        assert (map k | k in update.Keys :: update[k]) == update;
      } else {
        store.Update(OptionId(page), Dict(update));
      }
    }
  }
}
