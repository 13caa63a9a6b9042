/** `AttributeCreateEditDialogComponent`: the form fields of an attribute, seeded from the dialog
    data, and the chip list edited through `add`, `selected` and `remove`. */
module AttributeDialog {
  import opened Wrappers
  import opened JsText
  import opened JsArray
  import opened Chips

  /** The template an attribute belongs to; only its id, possibly `null`, is read. */
  datatype TemplateRef = TemplateRef(id: Option<int>)

  /** The `Attribute` record the dialog may be opened with. */
  datatype Attribute = Attribute(id: Option<int>, name: string, functionName: string, template: Option<TemplateRef>)

  /** The value the dialog closes with on submit. */
  datatype SubmitResult = SubmitResult(functionName: Option<string>, name: Option<string>, templateId: Option<int>)

  /** The four form fields taken together. */
  datatype Form = Form(attributeId: Option<int>, name: Option<string>, functionName: Option<string>, templateId: Option<int>)

  /** One chip object of the list. The list holds references: two chips with equal labels and
      colours are still different chips to `indexOf`. */
  class Chip {
    const value: ChipColor

    constructor (value: ChipColor)
      ensures this.value == value
    {
      this.value := value;
    }
  }

  class AttributeCreateEditDialog {
    /** `fruits`: the chips entered so far, in order. */
    var fruits: seq<Chip>
    /** The text of the chip input element. */
    var inputText: string
    /** The value of the `fruitCtrl` form control; `None` is `null`. */
    var ctrlValue: Option<string>
    var attributeId: Option<int>
    var name: Option<string>
    var functionName: Option<string>
    var templateId: Option<int>
    /** The value `dialogRef.close` was called with, once `submit` has run. */
    var closedWith: Option<SubmitResult>

    ghost function CurrentForm(): Form
      reads this
    {
      Form(attributeId, name, functionName, templateId)
    }

    /** The list `filteredFruits` currently emits for the autocomplete. */
    function FilteredFruits(): (r: seq<ChipColor>)
      reads this
      ensures ctrlValue == None || ctrlValue == Some("") ==> r == AllFruits
      ensures ctrlValue != None && ctrlValue != Some("") ==> r == Filter(ctrlValue.value)
      ensures forall e :: e in r ==> e in AllFruits && e.color == ResolveColor(e.name)
    {
      Suggestions(ctrlValue)
    }

    /** Opens the dialog, in edit mode when `data` is present. The source dereferences
        `data.template` unguarded, so present data must carry a template. */
    constructor (data: Option<Attribute>)
      requires data.Some? ==> data.value.template.Some?
      ensures fruits == [] && inputText == "" && ctrlValue == None && closedWith == None
      ensures FilteredFruits() == AllFruits
      ensures data.None? ==> CurrentForm() == Form(None, None, None, None)
      ensures data.Some? ==>
        CurrentForm() == Form(data.value.id, Some(data.value.name), Some(data.value.functionName),
                              data.value.template.value.id)
      ensures data.None? ==> !IsFormValid()
      ensures data.Some? ==>
        (IsFormValid() <==> data.value.name != "" && data.value.template.value.id.Some?
                            && data.value.template.value.id.value > 0)
    {
      fruits := [];
      inputText := "";
      ctrlValue := None;
      closedWith := None;
      if data.Some? {
        var d := data.value;
        attributeId := d.id;
        name := Some(d.name);
        functionName := Some(d.functionName);
        templateId := d.template.value.id;
      } else {
        attributeId, name, functionName, templateId := None, None, None, None;
      }
    }

    /** `isFormValid`: a name that is present and non-empty, and a template id that is present
        and positive. */
    predicate IsFormValid()
      reads this
      ensures name == None || name == Some("") ==> !IsFormValid()
      ensures templateId == None || templateId.value <= 0 ==> !IsFormValid()
      ensures name.Some? && name.value != "" && templateId.Some? && templateId.value > 0 ==> IsFormValid()
    {
      name != None && name != Some("") && templateId != None && templateId.value > 0
    }

    /** `submit`: closes the dialog with the three fields as they are, valid or not; the chips
        are not part of the result. */
    method Submit()
      modifies this
      ensures closedWith == Some(SubmitResult(old(functionName), old(name), old(templateId)))
      ensures CurrentForm() == old(CurrentForm())
      ensures fruits == old(fruits) && inputText == old(inputText) && ctrlValue == old(ctrlValue)
    {
      closedWith := Some(SubmitResult(functionName, name, templateId));
    }

    /** The user types `text` into the chip input, which is bound to `fruitCtrl`. */
    method TypeInput(text: string)
      modifies this
      ensures inputText == text && ctrlValue == Some(text)
      ensures FilteredFruits() == if text == "" then AllFruits else Filter(text)
      ensures fruits == old(fruits) && CurrentForm() == old(CurrentForm()) && closedWith == old(closedWith)
    {
      inputText := text;
      ctrlValue := Some(text);
    }

    /** `add`: the chip input's add event, carrying the typed `value` (absent when `null`);
        `autocompleteOpen` is `matAutocomplete.isOpen`. */
    method Add(value: Option<string>, autocompleteOpen: bool)
      modifies this
      ensures autocompleteOpen ==> unchanged(this)
      ensures !autocompleteOpen ==> inputText == "" && ctrlValue == None
      ensures !autocompleteOpen && IsBlank(value.GetOr("")) ==> fruits == old(fruits)
      ensures !autocompleteOpen && !IsBlank(value.GetOr("")) ==>
        && value.Some?
        && |fruits| == |old(fruits)| + 1
        && fruits[..|old(fruits)|] == old(fruits)
        && fresh(fruits[|old(fruits)|])
        && fruits[|old(fruits)|].value == ChipColor(Trim(value.value), ResolveColor(Trim(value.value)))
      ensures CurrentForm() == old(CurrentForm()) && closedWith == old(closedWith)
    {
      if !autocompleteOpen {
        var trimmed := Trim(value.GetOr(""));
        if trimmed != "" {
          var chip := new Chip(ChipColor(trimmed, ResolveColor(trimmed)));
          fruits := fruits + [chip];
        }
        inputText := "";
        ctrlValue := None;
      }
    }

    /** `remove`: deletes the first occurrence of the chip object `fruit`, if any. */
    method Remove(fruit: Chip)
      modifies this
      ensures fruits == RemoveFirst(old(fruits), fruit)
      ensures fruit !in old(fruits) ==> fruits == old(fruits)
      ensures fruit in old(fruits) ==>
        var i := IndexOf(old(fruits), fruit);
        |fruits| == |old(fruits)| - 1 && fruits == old(fruits)[..i] + old(fruits)[i + 1..]
      ensures inputText == old(inputText) && ctrlValue == old(ctrlValue)
      ensures CurrentForm() == old(CurrentForm()) && closedWith == old(closedWith)
    {
      var index := IndexOf(fruits, fruit);
      if index >= 0 {
        fruits := fruits[..index] + fruits[index + 1..];
      }
    }

    /** `selected`: the user picked the autocomplete option whose text is `viewValue`. */
    method Selected(viewValue: string)
      modifies this
      ensures |fruits| == |old(fruits)| + 1 && fruits[..|old(fruits)|] == old(fruits)
      ensures fresh(fruits[|old(fruits)|])
      ensures fruits[|old(fruits)|].value == ChipColor(viewValue, ResolveColor(viewValue))
      ensures inputText == "" && ctrlValue == None
      ensures CurrentForm() == old(CurrentForm()) && closedWith == old(closedWith)
    {
      var chip := new Chip(ChipColor(viewValue, ResolveColor(viewValue)));
      fruits := fruits + [chip];
      inputText := "";
      ctrlValue := None;
    }
  }

  /** Adding a non-blank typed tag and then removing the chip it created restores the chip list,
      even when an equal tag was entered before. */
  method AddThenRemove(dialog: AttributeCreateEditDialog, value: string)
    requires !IsBlank(value)
    modifies dialog
    ensures dialog.fruits == old(dialog.fruits)
  {
    var before := dialog.fruits;
    dialog.Add(Some(value), false);
    var chip := dialog.fruits[|before|];
    assert dialog.fruits == before + [chip];
    RemoveAppended(before, chip);
    dialog.Remove(chip);
  }

  /** Picking a suggestion adds a chip equal to that suggestion, colour included. */
  method SelectSuggestion(dialog: AttributeCreateEditDialog, i: nat)
    requires i < |dialog.FilteredFruits()|
    modifies dialog
    ensures |dialog.fruits| == |old(dialog.fruits)| + 1
    ensures dialog.fruits[|old(dialog.fruits)|].value == old(dialog.FilteredFruits())[i]
  {
    var suggestion := dialog.FilteredFruits()[i];
    dialog.Selected(suggestion.name);
  }
}
