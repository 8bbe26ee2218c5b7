# Settings page model (wp-erp `ERP_Settings_Page`)

This project models the base settings page class of the WP ERP plugin,
`ERP_Settings_Page` in `includes/framework/class-settings-page.php`, and
proves what it promises:

- **save** turns a form submission into writes to the WordPress option store.
  It walks the page's settings schema, derives one value per field from its
  type and the request body, and collects them in an update map. A bracketed
  id `name[key]` sets `key` inside an array kept for `name`, merged over the
  array already stored. Then the map is committed: nothing when it is empty;
  one option per entry when the page keeps every setting as its own option
  (single-option mode); otherwise the whole map as one option named
  `erp_settings_<page id>` (group mode).
- **get_option** reads one setting back: from its own option or from inside
  the group option, falling back to a default, and un-slashes the result.
- **get_option_id** names the group option.
- **output**'s decisions, apart from the markup it prints: which text fills
  the description and tooltip slots and how each is wrapped, the type and
  class of text-like inputs (the colour picker case), which choice shows as
  selected or checked, a checkbox's visibility classes and row edges, and
  which schema entries are rendered.

Modules:

- `PhpValues` (`php_values.dfy`) holds PHP values (null, string, list of
  strings, string-keyed array), the request body's entries, and the
  WordPress string filters. The filters are uninterpreted functions passed
  in a `Filters` value. A list seen as a PHP array has its elements under
  the decimal keys "0", "1", ….
- `Options` (`option_store.dfy`) is the option store: a class whose
  `options` map `update_option` changes in place.
- `SettingsPage` (`settings_page.dfy`) covers `get_option_id`,
  `get_option` and `save`:
  - `Save` is an imperative method on the store. It collects the update
    map with a loop (`CollectUpdates`, `ApplyField`) and writes it with a
    loop (`WriteUpdates`).
  - Each method is proved against a specification function: `Step`,
    `Accumulate`, `Commit` and `SaveResult`.
- `FieldRender` (`field_render.dfy`) holds the pure decisions of `output`.
- `SaveProperties` (`save_properties.dfy`) holds the lemmas that relate
  several operations:
  - the last plain write wins;
  - the bracketed merge against a reference fold;
  - checkbox content is ignored;
  - save followed by get_option or by a render decision reads back what
    was saved;
  - bracketed ids against the parsed request and the render (see Findings);
  - worked examples.

The request body is `$_POST` as PHP builds it from the form: a map from
top-level names to what was sent, a string or a list of strings. save
looks each field up under its whole id. PHP files a field named
`name[key]` under `name`, so no top-level name contains '['
(`SaveProperties.ParsedPost`). A field with a bracketed id is therefore
never found in the request, and save stores the value its type stores when
nothing was sent (`SaveProperties.BracketedFieldsReadMissing`). The general
save lemmas hold for any request map; the examples use parsed ones. Nonce
verification is a boolean input. Hooks (`do_action`) do nothing.

Where the code and its documentation differ, the model follows the code:
- get_option un-slashes the default as well as a stored value.
- PHP reads the string "0" as empty and as false. With no tooltip, a
  `desc` of "0" is dropped and both slots are empty. With the tooltip flag
  set, "0" becomes the tip. Beside a tooltip text, "0" is the description.
  Either way the wrapping tests read it as false, so it is printed as it
  is, unwrapped and unfiltered.

## Model

| member | source | states |
|---|---|---|
| SettingsPage.OptionId | includes/framework/class-settings-page.php:26-28 | the group option's name is `erp_settings_` followed by exactly the page id |
| SettingsPage.GetOption | includes/framework/class-settings-page.php:627-647 | single-option mode reads the option `name`, group mode reads `name` inside the group option (a null entry counts as absent); a missing setting gives the default; the result, default included, is un-slashed element by element |
| SettingsPage.KindOf | includes/framework/class-settings-page.php:68-139 | checkbox, textarea, multicheck and multiselect each reach exactly their own branch; the nine text-like types share one branch; every other type falls to the default branch |
| SettingsPage.FieldValue | includes/framework/class-settings-page.php:68-139 | exactly the default branch stores nothing; a checkbox stores "yes" when its id was sent; a missing id stores "", "no" or an empty list by type; a sent value is un-slashed and sanitised, element by element for the list types; no stored value is null |
| SettingsPage.ParseId | includes/framework/class-settings-page.php:143-158 | an id without '[' is a plain key; otherwise its name is the text before the first '[' and its key the text up to the next ']' |
| SettingsPage.ParseIdOfBracketed | includes/framework/class-settings-page.php:143-158 | an id written `name[key]...` parses back to that name and key |
| SettingsPage.Step | includes/framework/class-settings-page.php:58-166 | one schema entry adds exactly its target key (none for an entry without an id or of an unhandled type) and leaves every other entry of the update map as it was |
| SettingsPage.Accumulate | includes/framework/class-settings-page.php:52-170 | the update map has an entry exactly for the keys the schema targets, and none of them is null |
| SettingsPage.AccumulateNext | includes/framework/class-settings-page.php:58-170 | the update map after one more entry is one more loop step |
| SettingsPage.Commit | includes/framework/class-settings-page.php:173-184 | an empty update map writes nothing; single-option mode writes each entry as its own option; group mode replaces the group option with the map and changes no other option |
| SettingsPage.SaveResult | includes/framework/class-settings-page.php:51-186 | a bad nonce or a schema with no targets leaves the store unchanged; only targeted options (single-option mode) or the group option (group mode) change, and they hold the update map's values |
| SettingsPage.Save | includes/framework/class-settings-page.php:48-187 | the store after save is the SaveResult of the store before it |
| SettingsPage.CollectUpdates | includes/framework/class-settings-page.php:55-170 | the loop over the schema builds exactly the update map Accumulate defines |
| SettingsPage.ApplyField | includes/framework/class-settings-page.php:58-169 | the loop body, with its in-place nested assignment, performs exactly one Step |
| SettingsPage.WriteUpdates | includes/framework/class-settings-page.php:173-185 | the loop of update_option calls leaves the store as Commit defines |
| Options.OptionStore.Update | includes/framework/class-settings-page.php:178 | update_option sets one option and changes no other |
| PhpValues.Decimal | includes/framework/class-settings-page.php:154-160 | an index key is one character exactly for indices below ten |
| PhpValues.DecimalInjective | includes/framework/class-settings-page.php:154-160 | distinct list indices have distinct keys |
| PhpValues.ListEntries | includes/framework/class-settings-page.php:154-160 | a list seen as an array has exactly the keys of its indices |
| PhpValues.ListEntriesAt | includes/framework/class-settings-page.php:636 | every list element is found under its decimal index |
| PhpValues.MapStrings | includes/framework/class-settings-page.php:94 | array_map keeps the length and applies the filter to each element in place |
| FieldRender.ResolveSlots | includes/framework/class-settings-page.php:231-242 | tooltip true moves desc into the tip; a non-empty tooltip text is the tip beside desc; otherwise the tip is empty, and the description is desc, or empty when desc is "" or "0" |
| FieldRender.DescriptionMarkup | includes/framework/class-settings-page.php:244-250 | "" prints nothing; "0" is printed as it is (the tests read it as false); any other text is filtered by wp_kses_post, inline for a checkbox and a paragraph for every other type |
| FieldRender.TipMarkup | includes/framework/class-settings-page.php:252-260 | "" prints nothing; "0" is printed as it is; a checkbox's tip is an unfiltered paragraph; any other type gets a help icon carrying the tip |
| FieldRender.ZeroDescription | includes/framework/class-settings-page.php:231-260 | a desc of "0" is printed raw as the description beside a tooltip text, raw as the tip under the tooltip flag, and dropped when there is no tooltip |
| FieldRender.TextInputAttrs | includes/framework/class-settings-page.php:298-309 | no input is rendered with type color; a colour field becomes a text input; the class is the field's own or regular-text, and a colour field appends colorpick with no separator |
| FieldRender.OptionSelected | includes/framework/class-settings-page.php:406-413 | a select or multiselect tests membership when the stored value is an array and string equality otherwise; radios compare strings (line 449); multicheck tests membership (line 487) |
| FieldRender.VisibilityClasses | includes/framework/class-settings-page.php:504-520 | hidden_option appears when either key is "yes"; hide_options_if_checked and show_options_if_checked appear exactly for the value "option"; no other class appears, and those present keep that order (the order implode prints at line 524) |
| FieldRender.CheckboxRowEdges | includes/framework/class-settings-page.php:522-564 | a checkbox outside a group opens and closes its row; in a group only "start" opens and only "end" closes |
| FieldRender.RenderedFields | includes/framework/class-settings-page.php:212-217 | output renders only schema entries that have a type, and every typed entry |
| FieldRender.RenderedFieldsCount | includes/framework/class-settings-page.php:212-217 | a typed entry is rendered as often as it occurs in the schema; an untyped one never |
| FieldRender.RenderedFieldsAppend | includes/framework/class-settings-page.php:212-217 | rendering keeps schema order: the entries of a + b are those of a, then those of b |
| FieldRender.RenderedFieldsCons | includes/framework/class-settings-page.php:212-217 | a schema starting with x renders x first when it has a type, then the rest |
| FieldRender.ReadSetting | includes/framework/class-settings-page.php:300 | the corrected read of a field's setting (see Findings): a plain id reads exactly what get_option reads; for `name[key]`, when the setting `name` is not an array, the result is the un-slashed default |
| SaveProperties.LastPlainWriteWins | includes/framework/class-settings-page.php:162-165 | a plain-id field that no later field overwrites leaves its own value in the update map |
| SaveProperties.NestedMerge | includes/framework/class-settings-page.php:143-160 | when no field writes `name` as a plain id (PlainThenNested covers the other case): the entry for `name` exists exactly when some `name[key]` field stores a value, and it equals the array read from the top-level option `name` (empty if missing or not an array) with every bracketed write laid over it, later writes winning |
| SaveProperties.MergeKeepsUnwrittenKeys | includes/framework/class-settings-page.php:151-160 | when no field writes `name` as a plain id, stored keys that no bracketed field writes survive the merge unchanged |
| SaveProperties.PlainThenNested | includes/framework/class-settings-page.php:151-164 | when field j is the last to write `name` as a plain id, the entry is its value with the later bracketed writes laid over it. A non-array value counts as an empty array (lines 154-155). The store is not read, so what it held under `name` is lost |
| SaveProperties.PlainThenNestedStep | includes/framework/class-settings-page.php:151-160 | that relation carries over one more schema entry |
| SaveProperties.PlainMergeLast | includes/framework/class-settings-page.php:151-160 | one more entry that does not write `name` plainly keeps the value-plus-writes relation |
| SaveProperties.PlainWrite | includes/framework/class-settings-page.php:164 | a plain write of `name` sets its entry to the field's non-null value |
| SaveProperties.NestedWritesSuffix | includes/framework/class-settings-page.php:143-160 | the bracketed writes after field j unfold at the last field |
| SaveProperties.PlainThenNestedExample | includes/framework/class-settings-page.php:151-164 | a plain `group` sent as "x" followed by `group[k]` leaves `group` as an array holding only k, whatever the store held |
| SaveProperties.PlainThenNestedFields | includes/framework/class-settings-page.php:141-164 | in that example the first field writes `group` plainly with a text value, and the second writes only k, with the empty string |
| SaveProperties.PlainGroupField | includes/framework/class-settings-page.php:163-164 | the text field `group` writes the plain key group |
| SaveProperties.GroupKField | includes/framework/class-settings-page.php:143-160 | the text field `group[k]` writes k inside group and, absent from the request, stores the empty string |
| SaveProperties.NestedMergeLast | includes/framework/class-settings-page.php:151-160 | the merge relation carries over one more schema entry |
| SaveProperties.NestedWriteStep | includes/framework/class-settings-page.php:151-160 | one bracketed write sets its key over the previous writes and the stored array |
| SaveProperties.NestedUntouched | includes/framework/class-settings-page.php:141-165 | an entry that writes neither `name` nor `name[...]` leaves the entry for `name` as it was |
| SaveProperties.CheckboxContentIgnored | includes/framework/class-settings-page.php:71-79 | two submissions that send the same ids and differ only in checkbox content give the same update map |
| SaveProperties.SaveThenGetOption | includes/framework/class-settings-page.php:173-184 | after save, get_option of an updated key returns the saved value, un-slashed, in both modes |
| SaveProperties.CheckboxSaveThenRender | includes/framework/class-settings-page.php:71-79 | after save, a checkbox with a plain id renders checked exactly when its id was in the submission (line 548); bracketed ids are excluded because output reads them back under the whole id (see Findings) |
| SaveProperties.MultiselectSaveThenRender | includes/framework/class-settings-page.php:120-130 | after save, an option of a multiselect with a plain id renders selected exactly when its key is one of the saved strings as read back (line 411); bracketed ids are excluded for the same reason |
| SaveProperties.BracketedFieldsReadMissing | includes/framework/class-settings-page.php:73-126 | against a request as PHP parses it, a field with a bracketed id always gets the value its type stores when nothing was sent |
| SaveProperties.TargetsHaveNoBracket | includes/framework/class-settings-page.php:143-164 | no key of the update map contains '[' |
| SaveProperties.BracketedIdRendersDefault | includes/framework/class-settings-page.php:627-637 | as written: in group mode, after a save that wrote anything, get_option of a bracketed id gives the un-slashed default whatever was saved |
| SaveProperties.SaveThenReadNested | includes/framework/class-settings-page.php:143-160 | corrected: after save, ReadSetting of `name[key]` returns, un-slashed, the text save stored for key inside the array under name, in both modes |
| SaveProperties.UnslashedEntry | includes/framework/class-settings-page.php:640-641 | un-slashing an array un-slashes the text under each of its keys |
| SaveProperties.OneFieldSchema | includes/framework/class-settings-page.php:58-170 | the update map of a one-entry schema is that entry's step |
| SaveProperties.SingleOptionSave | includes/framework/class-settings-page.php:175-179 | in single-option mode a valid save lays the update map over the store |
| SaveProperties.GroupSave | includes/framework/class-settings-page.php:181-183 | in group mode a valid save with a non-empty update map replaces the group option with it |
| SaveProperties.ColourFieldExample | includes/framework/class-settings-page.php:101-117 | a colour field saved in group mode leaves the group option holding only its sanitised value |
| SaveProperties.ColourInputExample | includes/framework/class-settings-page.php:302-309 | a colour field with no class renders as a text input of class regular-textcolorpick |
| SaveProperties.GroupKey1Field | includes/framework/class-settings-page.php:111-115 | the `group[key1]` text field parses to name group and key key1, and with "new" filed under `$_POST['group']` it stores the empty string |
| SaveProperties.GroupKey1Update | includes/framework/class-settings-page.php:143-160 | that field's update map is the stored array under group with key1 set to the empty string |
| SaveProperties.NestedMergeExample | includes/framework/class-settings-page.php:143-160 | saving `group[key1]` (typed "new") beside a stored `{key2: v2}` gives `{key1: "", key2: v2}`: other keys are kept, and the typed text is lost |
| SaveProperties.GroupModeReadsTopLevelExample | includes/framework/class-settings-page.php:150-152 | in group mode the merge starts from the top-level option `name`, so a sibling key stored inside the group option is lost |

## Left out

- HTML emission: the markup `output` prints, the escaping calls (`esc_attr`, `esc_html`, `esc_textarea`, `esc_url`) and the `title`, `sectionend`, `image` and `image_width` branches. Only the decisions listed above are modelled.
- `single_select_page` rendering, attachment and page lookups, `absint` and the translation calls; they need WordPress itself.
- Custom attributes (lines 222-228): they only build markup text.
- The WordPress filters `stripslashes`, `trim`, `sanitize_text_field`, `wp_kses_post` and `sanitize_title` are uninterpreted parameters. Their definitions are not part of this model.
- Nonce verification is a boolean input. `wp_verify_nonce` is not part of this model.
- `do_action` hooks (lines 135, 169, 275, 282, 287, 614) are modelled as doing nothing. They run arbitrary host code.
- `get_id`, `get_label`, `get_settings` and `get_sections`. They return fields, or empty arrays that subclasses override. The schema is the `settings` field of a `Page`.
- SettingsPage.ParseId: models single-level `name[key]` ids only. These are out of scope:
  - an id with nothing, or only spaces, before its '[' (`parse_str` drops or trims that name; the model keeps it as written);
  - `parse_str`'s rewriting of `.` and spaces;
  - `name[]`, which gets the key 0;
  - deeper brackets;
  - an unclosed `[`.
- SettingsPage.FieldValue: a list submitted for a single-value field gives the empty string, as PHP 7's `stripslashes` on an array does. PHP 8 throws there instead.
- Elements of a submitted list are kept in order, but the list's own keys are not. A keyed entry such as `$_POST['group']` for `group[key1]` is seen as a list.
- PhpValues.Value: a PHP array is either a list of strings or a string-keyed array. Nested arrays inside a submitted list are not modelled.
- FieldRender.OptionSelected: uses strict string comparison (`ElementMatches`). PHP's loose comparison of numeric strings ("1" == "01") is not modelled.
- SettingsPage.GetOption: a group option that is a string is read as holding no settings. PHP would read a string offset there.
- The `pre_option`/`option` filters WordPress applies inside its own `get_option` and `update_option`.
- Tooltip values other than a boolean or a string.
- Concurrent requests writing the same options. The host serialises them (or does not), outside this class.

## Findings

| source | as written | input that shows it | evidently intended | confidence | as-written member | corrected member |
|---|---|---|---|---|---|---|
| includes/framework/class-settings-page.php:300 | output() reads each field's setting with get_option of the whole id (also lines 363, 389, 427, 466, 503), but save stores a field `name[key]` as key inside the setting `name` (line 160) | a group-mode page whose schema is one text field `group[key1]`, after any save with a valid nonce: get_option("group[key1]") finds no such key in the group option and renders the default | read the setting `name`, then `key` inside it, as save wrote it | high; not executed | SaveProperties.BracketedIdRendersDefault | FieldRender.ReadSetting, with SaveProperties.SaveThenReadNested |
