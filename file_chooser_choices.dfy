/** OpenFileChoicesList, OpenFileComboBox, OpenFileCheckBox and
    OpenFileChoice: the (ssa(ss)s) choices of the FileChooser portal. */
module FileChooserChoices {
  import opened Wrappers
  import opened Variants

  /** OpenFileChoice: one entry of a combo box. */
  datatype ChoiceOption = ChoiceOption(id: string, labelText: string, isDefault: bool)

  /** OneOf<OpenFileComboBox, OpenFileCheckBox>. */
  datatype Choice =
    | ComboBox(id: string, labelText: string, choices: seq<ChoiceOption>)
    | CheckBox(id: string, labelText: string, defaultValue: bool)

  /** The position Choices.FirstOrDefault(choice => choice.IsDefault) finds,
      or -1 when no choice is default. */
  function FirstDefaultIndex(choices: seq<ChoiceOption>): int
  {
    FirstIndex(choices, (c: ChoiceOption) => c.isDefault)
  }

  /** The default id a combo box sends: the first default choice's id, or "". */
  function ComboBoxDefaultId(choices: seq<ChoiceOption>): string
  {
    var i := FirstDefaultIndex(choices);
    if i == -1 then "" else choices[i].id
  }

  /** The boolean default a check box sends. */
  function CheckBoxDefaultText(b: bool): (s: string)
    ensures s == "true" || s == "false"
  {
    if b then "true" else "false"
  }

  /** OpenFileComboBox.ToVariant and OpenFileCheckBox.ToVariant; a check box
      sends an empty choice list, which marks a boolean choice. */
  function ChoiceToVariant(c: Choice): VariantValue
  {
    match c
    case ComboBox(id, labelText, choices) =>
      Struct([Str(id), Str(labelText),
              Array(StructType, seq(|choices|, i requires 0 <= i < |choices| =>
                Struct([Str(choices[i].id), Str(choices[i].labelText)]))),
              Str(ComboBoxDefaultId(choices))])
    case CheckBox(id, labelText, defaultValue) =>
      Struct([Str(id), Str(labelText), Array(StructType, []), Str(CheckBoxDefaultText(defaultValue))])
  }

  /** OpenFileChoicesList.ToVariant: each item through its own ToVariant. */
  function ChoicesListToVariant(items: seq<Choice>): (v: VariantValue)
    ensures v.Array? && v.itemType == StructType && |v.items| == |items|
    ensures forall i :: 0 <= i < |items| ==> v.items[i] == ChoiceToVariant(items[i])
  {
    Array(StructType, seq(|items|, i requires 0 <= i < |items| => ChoiceToVariant(items[i])))
  }

  /** A combo box sends (Id, Label, [(choice Id, choice Label)], default),
      the default being the first IsDefault choice's id and "" when none is. */
  lemma ComboBoxEncoding(id: string, labelText: string, choices: seq<ChoiceOption>)
    ensures var v := ChoiceToVariant(ComboBox(id, labelText, choices));
      && v.Struct? && |v.fields| == 4
      && v.fields[0] == Str(id) && v.fields[1] == Str(labelText)
      && v.fields[2].Array? && v.fields[2].itemType == StructType && |v.fields[2].items| == |choices|
      && (forall i :: 0 <= i < |choices| ==> v.fields[2].items[i] == Struct([Str(choices[i].id), Str(choices[i].labelText)]))
      && ((forall j :: 0 <= j < |choices| ==> !choices[j].isDefault) ==> v.fields[3] == Str(""))
      && (forall j :: 0 <= j < |choices| ==>
            (choices[j].isDefault && forall k :: 0 <= k < j ==> !choices[k].isDefault) ==>
            v.fields[3] == Str(choices[j].id))
  {
    forall j | 0 <= j < |choices| && choices[j].isDefault && (forall k :: 0 <= k < j ==> !choices[k].isDefault)
      ensures FirstDefaultIndex(choices) == j
    {
      var m := FirstDefaultIndex(choices);
      assert m >= 0 ==> choices[m].isDefault;
    }
  }

  /** A check box sends (Id, Label, [], "true" or "false"). */
  lemma CheckBoxEncoding(id: string, labelText: string, defaultValue: bool)
    ensures ChoiceToVariant(CheckBox(id, labelText, defaultValue)) ==
      Struct([Str(id), Str(labelText), Array(StructType, []), Str(if defaultValue then "true" else "false")])
  {
  }

  /** The position of the first item with this id (ordinal comparison), or -1. */
  function IndexOfId(items: seq<Choice>, id: string): (i: int)
    ensures -1 <= i < |items|
    ensures i == -1 <==> forall j :: 0 <= j < |items| ==> items[j].id != id
    ensures i >= 0 ==> items[i].id == id && forall j :: 0 <= j < i ==> items[j].id != id
  {
    if items == [] then -1
    else if items[0].id == id then 0
    else
      var rest := IndexOfId(items[1..], id);
      assert forall j :: 1 <= j < |items| ==> items[j] == items[1..][j - 1];
      if rest == -1 then -1 else rest + 1
  }

  /** The item TryGet finds: the first with that id. */
  function FindById(items: seq<Choice>, id: string): (r: Option<Choice>)
    ensures r.None? <==> forall j :: 0 <= j < |items| ==> items[j].id != id
    ensures r.Some? ==> r.value.id == id && r.value in items
  {
    var i := IndexOfId(items, id);
    if i == -1 then None else Some(items[i])
  }

  /** The first match is the only position with that id and no earlier one. */
  lemma IndexOfIdUnique(items: seq<Choice>, id: string, j: nat)
    requires j < |items| && items[j].id == id
    requires forall k :: 0 <= k < j ==> items[k].id != id
    ensures IndexOfId(items, id) == j
  {
    var i := IndexOfId(items, id);
    assert i >= 0 ==> items[i].id == id;
  }

  /** Appending an item changes what is found only when nothing was found. */
  lemma FindByIdAppend(items: seq<Choice>, x: Choice, id: string)
    ensures FindById(items + [x], id) ==
      (if FindById(items, id).Some? then FindById(items, id) else if x.id == id then Some(x) else None)
  {
    var s := items + [x];
    assert forall k :: 0 <= k < |items| ==> s[k] == items[k];
    var i := IndexOfId(items, id);
    if i >= 0 {
      IndexOfIdUnique(s, id, i);
    } else if x.id == id {
      IndexOfIdUnique(s, id, |items|);
    }
  }

  /** OpenFileChoicesList.TryGet: walks the list and stops at the first item
      whose Id equals id ordinally; the list is not modified. */
  method TryGet(items: seq<Choice>, id: string) returns (ok: bool, found: Option<Choice>)
    ensures ok <==> found.Some?
    ensures found == FindById(items, id)
    ensures ok <==> exists j :: 0 <= j < |items| && items[j].id == id
  {
    var i := 0;
    while i < |items|
      invariant 0 <= i <= |items|
      invariant forall j :: 0 <= j < i ==> items[j].id != id
    {
      if items[i].id == id {
        IndexOfIdUnique(items, id, i);
        return true, Some(items[i]);
      }
      i := i + 1;
    }
    return false, None;
  }
}
