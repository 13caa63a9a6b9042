# Attribute create/edit dialog — a Dafny model

This project models `AttributeCreateEditDialogComponent`, the dialog in which a user creates or
edits a printing *attribute*: a name, a function name and the id of the print template it belongs
to. The dialog is seeded from optional input data. It validates the form and closes with a result
record on submit. It also carries a chip ("tag") editor. Each chip has a label and a CSS colour
class chosen by `resolveColor`. The chip input offers autocomplete suggestions from a fixed
ten-entry vocabulary, filtered by a case-insensitive prefix match.

Modules:

- `Wrappers`: `Option`, standing for values that may be `null`.
- `JsText`: the two string builtins the component uses. `Trim` removes the ECMAScript whitespace
  and line-terminator code points at both ends. `ToLower` lowercases ASCII letters.
- `JsArray`: `IndexOf` (first occurrence, or -1) and `RemoveFirst`, the `indexOf` + `splice(i, 1)`
  pair that `remove` uses.
- `Chips`: the `ChipColor` value, `ResolveColor`, the vocabulary `AllFruits`, the filter
  `Filter` and the null/empty fallback `Suggestions`.
- `AttributeDialog`: the component as a class. `fruits` is a sequence of `Chip` objects. Chips are
  objects so that `remove` finds a chip by reference, as JavaScript's `indexOf` does; removing a
  chip that was just added therefore never removes an earlier chip with the same label. The input
  element's text and the `fruitCtrl` value are fields, and `dialogRef.close(result)` is recorded
  in the field `closedWith`.

Three points of the code's behaviour that are easy to misread:

- The filter lowercases both the input and each suggestion's name before the prefix test.
- `add` clears the input only when the autocomplete is closed; while it is open, `add` changes
  nothing at all.
- A control value of `""` takes the fallback branch (`fruit ? … : allFruits.slice()`), not
  `_filter`. The two give the same list (`FilterEmptyKeepsAll`).

## Model

| member | source | states |
|---|---|---|
| `Chips.ResolveColor` | attribute-create-edit-dialog.component.ts:95-112 | The lookup is total. Its result is one of the four colour classes. It is `blue-chip` exactly for the five blue keywords, `yellow-chip` exactly for the four yellow ones and `red-chip` exactly for `&`. Every other string gets `green-chip`. |
| `Chips.ResolveColorIsCaseSensitive` | attribute-create-edit-dialog.component.ts:95-112 | The empty string and case variants of keywords (`att:`, `ATT:`, `up:`) get the default `green-chip`. |
| `Chips.VocabularyAgreesWithResolveColor` | attribute-create-edit-dialog.component.ts:30-40 | Every vocabulary entry's listed colour is the colour `resolveColor` gives its name. |
| `Chips.VocabularyNamesDistinct` | attribute-create-edit-dialog.component.ts:30-40 | No two vocabulary entries share a name. |
| `Chips.VocabularyIsKeywords` | attribute-create-edit-dialog.component.ts:30-40 | The vocabulary's names are exactly the ten keywords that get a non-default colour. |
| `Chips.FilterEntries` | attribute-create-edit-dialog.component.ts:155 | `Array.filter` with the prefix test keeps only matching entries and every matching entry. The result is a subsequence of the input, so entries keep their order. Duplicates are covered by `Chips.FilterEntriesCounts`. |
| `Chips.FilterEntriesCounts` | attribute-create-edit-dialog.component.ts:155 | The filter's result holds as many copies of a matching entry as the input, and none of a non-matching one. |
| `Chips.Filter` | attribute-create-edit-dialog.component.ts:152-156 | `_filter(v)` is a subsequence of the vocabulary. An entry is in it if and only if its lowercased name starts with the lowercased `v`. |
| `Chips.Suggestions` | attribute-create-edit-dialog.component.ts:61-63 | A null or empty control value shows the whole vocabulary in order. Any other value shows `_filter` of it. Every suggestion shown is a vocabulary entry whose colour is `resolveColor` of its name. |
| `Chips.SuggestionsAreSubsequence` | attribute-create-edit-dialog.component.ts:61-63 | The suggestions shown are always a subsequence of the vocabulary. |
| `Chips.FilterEmptyKeepsAll` | attribute-create-edit-dialog.component.ts:152-156 | Filtering by `""` keeps all ten entries in order. |
| `Chips.FilterEntriesEmpty` | attribute-create-edit-dialog.component.ts:155 | Filtering any list by `""` keeps it whole, because every name starts with the empty string. |
| `Chips.FilterUp` | attribute-create-edit-dialog.component.ts:152-156 | Any input that lowercases to `up` (such as `up` or `UP`) yields exactly `[{Up:, yellow-chip}]`. |
| `JsText.Trim` | attribute-create-edit-dialog.component.ts:123-124 | `trim` gives the empty string exactly when the input is all whitespace. Otherwise the result starts and ends with a non-whitespace character. It is the contiguous slice left after dropping the whitespace at both ends. |
| `JsText.TrimIdempotent` | attribute-create-edit-dialog.component.ts:123-124 | Trimming a trimmed value changes nothing. |
| `JsText.ToLower` | attribute-create-edit-dialog.component.ts:153 | `toLowerCase` keeps the length and lowercases each character on its own. |
| `JsText.ToLowerIdempotent` | attribute-create-edit-dialog.component.ts:153 | Lowercasing twice is lowercasing once. |
| `JsArray.IndexOf` | attribute-create-edit-dialog.component.ts:139 | `indexOf` is -1 exactly when the element is absent. Otherwise it is the index of the element's first occurrence. |
| `JsArray.RemoveFirst` | attribute-create-edit-dialog.component.ts:138-144 | An absent element leaves the list unchanged. Otherwise exactly its first occurrence is cut out: the length drops by one, the other elements keep their order, and the multiset loses one copy of it. |
| `JsArray.RemoveAppended` | attribute-create-edit-dialog.component.ts:138-144 | Removing an element that was appended to a list not holding it gives back the original list. |
| `AttributeDialog.AttributeCreateEditDialog.constructor` | attribute-create-edit-dialog.component.ts:69-74 | Without data, all four form fields are unset and the form is invalid. With data, the fields equal `data.id`, `data.name`, `data.functionName` and `data.template.id` (which may be null), and the form is valid iff that name is non-empty and that template id is present and positive. The chip list starts empty and the autocomplete shows the whole vocabulary. |
| `AttributeDialog.AttributeCreateEditDialog.FilteredFruits` | attribute-create-edit-dialog.component.ts:61-63 | The current suggestions are the whole vocabulary while the control is null or empty, and `_filter` of the control value otherwise. Every suggestion carries `resolveColor` of its name. |
| `AttributeDialog.AttributeCreateEditDialog.IsFormValid` | attribute-create-edit-dialog.component.ts:91-93 | False when the name is null or empty, and false when the template id is null or not positive. True when a non-empty name and a positive template id are both present. |
| `AttributeDialog.AttributeCreateEditDialog.Submit` | attribute-create-edit-dialog.component.ts:82-89 | Closes with exactly `{functionName, name, templateId}` as they stand, whether or not the form is valid. The chips are not included, and no other field changes. |
| `AttributeDialog.AttributeCreateEditDialog.TypeInput` | attribute-create-edit-dialog.component.ts:27 | Typing sets the input text and the control value. The suggestions become the whole vocabulary for `""` and `_filter` of the text otherwise. |
| `AttributeDialog.AttributeCreateEditDialog.Add` | attribute-create-edit-dialog.component.ts:115-135 | While the autocomplete is open, nothing changes. Otherwise a blank or null value leaves the chip list as it was. A non-blank value appends exactly one fresh chip `{trim(value), resolveColor(trim(value))}` and leaves the earlier chips untouched. In both cases the input text is cleared and the control is set to null. The form fields never change. |
| `AttributeDialog.AttributeCreateEditDialog.Remove` | attribute-create-edit-dialog.component.ts:138-144 | Deletes exactly the first occurrence of the given chip object: the length drops by one and the other chips keep their order. A chip not in the list changes nothing. No other field changes. |
| `AttributeDialog.AttributeCreateEditDialog.Selected` | attribute-create-edit-dialog.component.ts:146-150 | Always appends exactly one fresh chip `{viewValue, resolveColor(viewValue)}`, with no trim, no blank check and no autocomplete guard. It clears the input and the control and leaves the earlier chips and the form fields untouched. |
| `AttributeDialog.AddThenRemove` | attribute-create-edit-dialog.component.ts:115-144 | Adding a non-blank value and then removing the chip that `add` created restores the chip list, even when an equal chip was already present. |
| `AttributeDialog.SelectSuggestion` | attribute-create-edit-dialog.component.ts:146-150 | Selecting a shown suggestion appends a chip equal to that suggestion, listed colour included. |

## Left out

- `getTemplates` and the `PrintingApi` service are not modelled. They are a network call returning an Observable from a service that is not part of this model.
- The rxjs wiring of `filteredFruits` is not modelled. It is represented by `FilteredFruits()`, a function of the current control value. `TypeInput` stands for the form-control binding in the HTML template, which is not part of this model.
- The template fields are not modelled: whatever the template binds to `name`, `functionName` and `templateId` is represented by the class's public fields.
- Angular dependency injection, `MatDialogRef`, the `@ViewChild` elements and `MatAutocomplete` are UI plumbing and are not modelled. The autocomplete's state is reduced to the `autocompleteOpen` parameter of `Add`, and closing the dialog only records its result.
- `console.log` calls are I/O without effect on state and are not modelled.
- The cosmetic flags `visible`, `selectable`, `removable`, `addOnBlur` and `separatorKeysCodes` are not modelled; they only configure the UI.
- JsText.ToLower: lowercases ASCII letters only; JavaScript's full Unicode case mapping is not modelled.
- JsText.Trim: uses the fixed set of ECMAScript whitespace and line-terminator code points; later Unicode additions to the space-separator category are not tracked.
- AttributeDialog.AttributeCreateEditDialog.constructor: requires present data to carry a template. The source dereferences `data.template` unguarded and would throw without one.
- AttributeDialog.AttributeCreateEditDialog.Add: assumes the event's input element is present, so the input text is always cleared (the source skips the clearing when `event.input` is null).
- The `Attribute` record's `name` and `functionName` are non-null strings here; a record carrying `null` in them is not modelled.
- AttributeDialog.SelectSuggestion: assumes the chosen option's displayed text is exactly the entry's name; the HTML template that renders the options is not part of this model.
- The control value is modelled as text. An option object placed in the control by the HTML template is not modelled.
