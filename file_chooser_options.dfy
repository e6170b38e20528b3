/** OpenFileOptions and SaveFileOptions of the FileChooser portal: their
    defaults and the option dictionaries their ToVarDict builds. */
module FileChooserOptions {
  import opened Wrappers
  import Text
  import opened Variants
  import DBusHelper
  import Utf8
  import opened FileChooserFilters
  import opened FileChooserChoices

  datatype OpenFileOptions = OpenFileOptions(
    handleToken: string,
    acceptLabel: Option<string>,
    isDialogModal: bool,
    allowMultiple: bool,
    selectDirectories: bool,
    filters: Option<seq<Filter>>,
    choices: Option<seq<Choice>>,
    suggestedFolder: Option<string>)

  datatype SaveFileOptions = SaveFileOptions(
    handleToken: string,
    acceptLabel: Option<string>,
    isDialogModal: bool,
    filters: Option<seq<Filter>>,
    choices: Option<seq<Choice>>,
    suggestedFileName: Option<string>,
    suggestedFolder: Option<string>,
    currentFile: Option<string>)

  /** A new OpenFileOptions: a fresh handle token (draw is the Random.Next
      result), a modal dialog, one file, files rather than directories. */
  function NewOpenFileOptions(draw: nat): (o: OpenFileOptions)
    requires draw < DBusHelper.RandomNextBound
    ensures o.handleToken == DBusHelper.CreateHandleToken(draw)
    ensures o.isDialogModal && !o.allowMultiple && !o.selectDirectories
    ensures o.acceptLabel.None? && o.filters.None? && o.choices.None? && o.suggestedFolder.None?
  {
    OpenFileOptions(DBusHelper.CreateHandleToken(draw), None, true, false, false, None, None, None)
  }

  /** A new SaveFileOptions: a fresh handle token and a modal dialog. */
  function NewSaveFileOptions(draw: nat): (o: SaveFileOptions)
    requires draw < DBusHelper.RandomNextBound
    ensures o.handleToken == DBusHelper.CreateHandleToken(draw) && o.isDialogModal
    ensures o.acceptLabel.None? && o.filters.None? && o.choices.None?
    ensures o.suggestedFileName.None? && o.suggestedFolder.None? && o.currentFile.None?
  {
    SaveFileOptions(DBusHelper.CreateHandleToken(draw), None, true, None, None, None, None, None)
  }

  /** A path as ToByteArray(Encoding.UTF8, nullTerminated: true) sends it. */
  function PathBytes(path: string): (v: VariantValue)
    ensures v.Array? && v.itemType == ByteType
  {
    ByteArray(Utf8.NulTerminated(path))
  }

  /** r holds the same entries as d under every key but key. */
  ghost predicate SameExcept(d: VarDict, r: VarDict, changed: set<string>)
  {
    forall k :: k !in changed ==> (k in r <==> k in d) && (k in d ==> r[k] == d[k])
  }

  /** `if (!string.IsNullOrEmpty(AcceptLabel)) varDict.Add("accept_label", ...)`. */
  function WithAcceptLabel(d: VarDict, acceptLabel: Option<string>): (r: VarDict)
    ensures SameExcept(d, r, {"accept_label"})
    ensures "accept_label" in r <==> Text.HasText(acceptLabel) || "accept_label" in d
    ensures Text.HasText(acceptLabel) ==> r["accept_label"] == Str(acceptLabel.value)
    ensures !Text.HasText(acceptLabel) ==> r == d
  {
    if Text.HasText(acceptLabel) then d["accept_label" := Str(acceptLabel.value)] else d
  }

  /** The filter entries shared by both dialogs: current_filter holds the
      first default filter, and the whole list goes under "filters" unless it
      is a lone default filter. */
  function WithFilters(d: VarDict, filters: Option<seq<Filter>>): (r: VarDict)
    ensures SameExcept(d, r, {"current_filter", "filters"})
    ensures filters.Some? && FindDefaultIndex(filters.value) >= 0 ==>
      "current_filter" in r && r["current_filter"] == FilterToVariant(filters.value[FindDefaultIndex(filters.value)])
    ensures !(filters.Some? && FindDefaultIndex(filters.value) >= 0) ==>
      ("current_filter" in r <==> "current_filter" in d) && ("current_filter" in d ==> r["current_filter"] == d["current_filter"])
    ensures filters.Some? && (FindDefaultIndex(filters.value) == -1 || |filters.value| > 1) ==>
      "filters" in r && r["filters"] == FilterListToVariant(filters.value)
    ensures !(filters.Some? && (FindDefaultIndex(filters.value) == -1 || |filters.value| > 1)) ==>
      ("filters" in r <==> "filters" in d) && ("filters" in d ==> r["filters"] == d["filters"])
  {
    if filters.None? then d
    else
      var defaultFilterIndex := FindDefaultIndex(filters.value);
      var d1 := if defaultFilterIndex != -1 then d["current_filter" := FilterToVariant(filters.value[defaultFilterIndex])] else d;
      if defaultFilterIndex == -1 || |filters.value| > 1 then d1["filters" := FilterListToVariant(filters.value)] else d1
  }

  /** `if (Choices is not null) varDict.Add("choices", Choices.ToVariant())`. */
  function WithChoices(d: VarDict, choices: Option<seq<Choice>>): (r: VarDict)
    ensures SameExcept(d, r, {"choices"})
    ensures "choices" in r <==> choices.Some? || "choices" in d
    ensures choices.Some? ==> r["choices"] == ChoicesListToVariant(choices.value)
    ensures choices.None? ==> r == d
  {
    if choices.Some? then d["choices" := ChoicesListToVariant(choices.value)] else d
  }

  /** A text entry added whenever the value is set, even when it is empty. */
  function WithText(d: VarDict, key: string, value: Option<string>): (r: VarDict)
    ensures SameExcept(d, r, {key})
    ensures key in r <==> value.Some? || key in d
    ensures value.Some? ==> r[key] == Str(value.value)
    ensures value.None? ==> r == d
  {
    if value.Some? then d[key := Str(value.value)] else d
  }

  /** A path entry added whenever the path is set, as its nul-terminated bytes. */
  function WithPath(d: VarDict, key: string, path: Option<string>): (r: VarDict)
    ensures SameExcept(d, r, {key})
    ensures key in r <==> path.Some? || key in d
    ensures path.Some? ==> r[key] == PathBytes(path.value)
    ensures path.None? ==> r == d
  {
    if path.Some? then d[key := PathBytes(path.value)] else d
  }

  /** accept_label is present exactly when the label is non-empty, and
      holds it. */
  ghost predicate LabelEntry(d: VarDict, acceptLabel: Option<string>)
  {
    && ("accept_label" in d <==> Text.HasText(acceptLabel))
    && ("accept_label" in d ==> d["accept_label"] == Str(acceptLabel.value))
  }

  /** current_filter is present exactly when some filter is default, and
      holds the first one; filters is present unless the list is a lone
      default filter, and holds the whole list. */
  ghost predicate FilterEntries(d: VarDict, filters: Option<seq<Filter>>)
  {
    && ("current_filter" in d <==> filters.Some? && FindDefaultIndex(filters.value) >= 0)
    && ("current_filter" in d ==> d["current_filter"] == FilterToVariant(filters.value[FindDefaultIndex(filters.value)]))
    && ("filters" in d <==> filters.Some? && (FindDefaultIndex(filters.value) == -1 || |filters.value| > 1))
    && ("filters" in d ==> d["filters"] == FilterListToVariant(filters.value))
  }

  /** The keys an OpenFileOptions dictionary can hold. */
  const OpenFileKeys: set<string> :=
    {"handle_token", "modal", "multiple", "directory", "accept_label", "current_filter", "filters",
     "choices", "current_folder"}

  /** The four entries OpenFileOptions.ToVarDict always sends. */
  function OpenFileBase(o: OpenFileOptions): VarDict
  {
    map["handle_token" := Str(o.handleToken), "modal" := Bool(o.isDialogModal),
        "multiple" := Bool(o.allowMultiple), "directory" := Bool(o.selectDirectories)]
  }

  /** The dictionary OpenFileOptions.ToVarDict returns. */
  function OpenFileDict(o: OpenFileOptions): VarDict
  {
    WithPath(WithChoices(WithFilters(WithAcceptLabel(OpenFileBase(o), o.acceptLabel), o.filters), o.choices),
             "current_folder", o.suggestedFolder)
  }

  /** OpenFileOptions.ToVarDict: the four fixed entries, then each optional
      entry in turn. */
  method OpenFileToVarDict(o: OpenFileOptions) returns (d: VarDict)
    ensures d == OpenFileDict(o)
  {
    d := map["handle_token" := Str(o.handleToken), "modal" := Bool(o.isDialogModal),
             "multiple" := Bool(o.allowMultiple), "directory" := Bool(o.selectDirectories)];
    d := WithAcceptLabel(d, o.acceptLabel);
    d := WithFilters(d, o.filters);
    d := WithChoices(d, o.choices);
    d := WithPath(d, "current_folder", o.suggestedFolder);
  }

  /** Nothing outside the nine option keys is sent. */
  lemma OpenFileDictKeys(o: OpenFileOptions)
    ensures OpenFileDict(o).Keys <= OpenFileKeys
  {
    var d0 := OpenFileBase(o);
    var d1 := WithAcceptLabel(d0, o.acceptLabel);
    var d2 := WithFilters(d1, o.filters);
    var d3 := WithChoices(d2, o.choices);
    var d4 := WithPath(d3, "current_folder", o.suggestedFolder);
    KeysWithin(d0, d1, {"accept_label"}, OpenFileKeys);
    KeysWithin(d1, d2, {"current_filter", "filters"}, OpenFileKeys);
    KeysWithin(d2, d3, {"choices"}, OpenFileKeys);
    KeysWithin(d3, d4, {"current_folder"}, OpenFileKeys);
  }

  /** The four fixed entries are always sent. */
  lemma OpenFileDictFixedEntries(o: OpenFileOptions)
    ensures var d := OpenFileDict(o);
      && "handle_token" in d && d["handle_token"] == Str(o.handleToken)
      && "modal" in d && d["modal"] == Bool(o.isDialogModal)
      && "multiple" in d && d["multiple"] == Bool(o.allowMultiple)
      && "directory" in d && d["directory"] == Bool(o.selectDirectories)
  {
    var d0 := OpenFileBase(o);
    var d1 := WithAcceptLabel(d0, o.acceptLabel);
    var d2 := WithFilters(d1, o.filters);
    var d3 := WithChoices(d2, o.choices);
    var d4 := WithPath(d3, "current_folder", o.suggestedFolder);
    EntryKept(d0, d1, {"accept_label"}, "handle_token");
    EntryKept(d0, d1, {"accept_label"}, "modal");
    EntryKept(d0, d1, {"accept_label"}, "multiple");
    EntryKept(d0, d1, {"accept_label"}, "directory");
    EntryKept(d1, d2, {"current_filter", "filters"}, "handle_token");
    EntryKept(d1, d2, {"current_filter", "filters"}, "modal");
    EntryKept(d1, d2, {"current_filter", "filters"}, "multiple");
    EntryKept(d1, d2, {"current_filter", "filters"}, "directory");
    EntryKept(d2, d3, {"choices"}, "handle_token");
    EntryKept(d2, d3, {"choices"}, "modal");
    EntryKept(d2, d3, {"choices"}, "multiple");
    EntryKept(d2, d3, {"choices"}, "directory");
    EntryKept(d3, d4, {"current_folder"}, "handle_token");
    EntryKept(d3, d4, {"current_folder"}, "modal");
    EntryKept(d3, d4, {"current_folder"}, "multiple");
    EntryKept(d3, d4, {"current_folder"}, "directory");
  }

  /** accept_label is sent exactly when the label is non-empty. */
  lemma OpenFileDictAcceptLabel(o: OpenFileOptions)
    ensures var d := OpenFileDict(o);
      && ("accept_label" in d <==> Text.HasText(o.acceptLabel))
      && ("accept_label" in d ==> d["accept_label"] == Str(o.acceptLabel.value))
  {
    var d1 := WithAcceptLabel(OpenFileBase(o), o.acceptLabel);
    var d2 := WithFilters(d1, o.filters);
    var d3 := WithChoices(d2, o.choices);
    assert LabelEntry(d1, o.acceptLabel);
    assert LabelEntry(d2, o.acceptLabel);
    assert LabelEntry(d3, o.acceptLabel);
  }

  /** current_filter is the first default filter, when there is one; the list
      itself is sent unless it is a lone default filter. */
  lemma OpenFileDictFilters(o: OpenFileOptions)
    ensures var d := OpenFileDict(o);
      && ("current_filter" in d <==> o.filters.Some? && exists j :: 0 <= j < |o.filters.value| && o.filters.value[j].isDefault)
      && ("current_filter" in d ==>
            var j := FindDefaultIndex(o.filters.value);
            && 0 <= j && o.filters.value[j].isDefault && (forall i :: 0 <= i < j ==> !o.filters.value[i].isDefault)
            && d["current_filter"] == FilterToVariant(o.filters.value[j]))
      && ("filters" in d <==>
            o.filters.Some? && ((forall j :: 0 <= j < |o.filters.value| ==> !o.filters.value[j].isDefault) || |o.filters.value| > 1))
      && ("filters" in d ==> d["filters"] == FilterListToVariant(o.filters.value))
  {
    var d2 := WithFilters(WithAcceptLabel(OpenFileBase(o), o.acceptLabel), o.filters);
    var d3 := WithChoices(d2, o.choices);
    assert FilterEntries(d2, o.filters);
    assert FilterEntries(d3, o.filters);
  }

  /** The dictionary carries each filter as ToVariant writes it: a filter
      of two globs reaches the portal with its second glob tagged 1, the tag
      the portal reads as a MIME type. */
  lemma OpenFileDictSendsPositionTags(o: OpenFileOptions)
    requires o.filters == Some([Filter("Images", [Glob("*.png"), Glob("*.jpg")], false)])
    ensures var d := OpenFileDict(o);
      && "filters" in d && "current_filter" !in d
      && d["filters"].Array? && |d["filters"].items| == 1
      && d["filters"].items[0] == Struct([Str("Images"), Array(StructType, [Struct([U32(0), Str("*.png")]), Struct([U32(1), Str("*.jpg")])])])
  {
    OpenFileDictFilters(o);
    var f := o.filters.value[0];
    FilterToVariantShape(f);
    assert FilterToVariant(f).fields[1].items == [Struct([U32(0), Str("*.png")]), Struct([U32(1), Str("*.jpg")])];
  }

  /** choices and current_folder are sent exactly when set; the folder as
      its UTF-8 bytes and a nul. */
  lemma OpenFileDictChoicesAndFolder(o: OpenFileOptions)
    ensures var d := OpenFileDict(o);
      && ("choices" in d <==> o.choices.Some?)
      && ("choices" in d ==> d["choices"] == ChoicesListToVariant(o.choices.value))
      && ("current_folder" in d <==> o.suggestedFolder.Some?)
      && ("current_folder" in d ==> d["current_folder"] == PathBytes(o.suggestedFolder.value))
  {
    var d2 := WithFilters(WithAcceptLabel(OpenFileBase(o), o.acceptLabel), o.filters);
    var d3 := WithChoices(d2, o.choices);
    assert "choices" !in d2;
  }

  /** A step that adds only allowed keys keeps the keys within allowed. */
  lemma KeysWithin(d: VarDict, r: VarDict, changed: set<string>, allowed: set<string>)
    requires SameExcept(d, r, changed) && d.Keys <= allowed && changed <= allowed
    ensures r.Keys <= allowed
  {
  }

  /** A step that touches other keys leaves key as it was. */
  lemma EntryKept(d: VarDict, r: VarDict, changed: set<string>, key: string)
    requires SameExcept(d, r, changed) && key !in changed
    ensures key in r <==> key in d
    ensures key in d ==> r[key] == d[key]
  {
  }

  /** The keys a SaveFileOptions dictionary can hold; never multiple or
      directory. */
  const SaveFileKeys: set<string> :=
    {"handle_token", "modal", "accept_label", "current_filter", "filters", "choices", "current_name",
     "current_folder", "current_file"}

  /** The two entries SaveFileOptions.ToVarDict always sends. */
  function SaveFileBase(o: SaveFileOptions): VarDict
  {
    map["handle_token" := Str(o.handleToken), "modal" := Bool(o.isDialogModal)]
  }

  /** The dictionary SaveFileOptions.ToVarDict returns. */
  function SaveFileDict(o: SaveFileOptions): VarDict
  {
    WithPath(WithPath(WithText(WithChoices(WithFilters(WithAcceptLabel(SaveFileBase(o), o.acceptLabel), o.filters),
                                           o.choices),
                               "current_name", o.suggestedFileName),
                      "current_folder", o.suggestedFolder),
             "current_file", o.currentFile)
  }

  /** SaveFileOptions.ToVarDict: the two fixed entries, then each optional
      entry in turn. */
  method SaveFileToVarDict(o: SaveFileOptions) returns (d: VarDict)
    ensures d == SaveFileDict(o)
  {
    d := map["handle_token" := Str(o.handleToken), "modal" := Bool(o.isDialogModal)];
    d := WithAcceptLabel(d, o.acceptLabel);
    d := WithFilters(d, o.filters);
    d := WithChoices(d, o.choices);
    d := WithText(d, "current_name", o.suggestedFileName);
    d := WithPath(d, "current_folder", o.suggestedFolder);
    d := WithPath(d, "current_file", o.currentFile);
  }

  /** Nothing outside the nine save keys is sent. */
  lemma SaveFileDictKeys(o: SaveFileOptions)
    ensures SaveFileDict(o).Keys <= SaveFileKeys
  {
    var d0 := SaveFileBase(o);
    var d1 := WithAcceptLabel(d0, o.acceptLabel);
    var d2 := WithFilters(d1, o.filters);
    var d3 := WithChoices(d2, o.choices);
    var d4 := WithText(d3, "current_name", o.suggestedFileName);
    var d5 := WithPath(d4, "current_folder", o.suggestedFolder);
    var d6 := WithPath(d5, "current_file", o.currentFile);
    KeysWithin(d0, d1, {"accept_label"}, SaveFileKeys);
    KeysWithin(d1, d2, {"current_filter", "filters"}, SaveFileKeys);
    KeysWithin(d2, d3, {"choices"}, SaveFileKeys);
    KeysWithin(d3, d4, {"current_name"}, SaveFileKeys);
    KeysWithin(d4, d5, {"current_folder"}, SaveFileKeys);
    KeysWithin(d5, d6, {"current_file"}, SaveFileKeys);
  }

  /** The token and the modal flag are always sent; multiple and
      directory never are. */
  lemma SaveFileDictFixedEntries(o: SaveFileOptions)
    ensures var d := SaveFileDict(o);
      && "handle_token" in d && d["handle_token"] == Str(o.handleToken)
      && "modal" in d && d["modal"] == Bool(o.isDialogModal)
      && "multiple" !in d && "directory" !in d
  {
    var d0 := SaveFileBase(o);
    var d1 := WithAcceptLabel(d0, o.acceptLabel);
    var d2 := WithFilters(d1, o.filters);
    var d3 := WithChoices(d2, o.choices);
    var d4 := WithText(d3, "current_name", o.suggestedFileName);
    var d5 := WithPath(d4, "current_folder", o.suggestedFolder);
    var d6 := WithPath(d5, "current_file", o.currentFile);
    assert "multiple" !in d0 && "directory" !in d0;
    EntryKept(d0, d1, {"accept_label"}, "handle_token");
    EntryKept(d0, d1, {"accept_label"}, "modal");
    EntryKept(d0, d1, {"accept_label"}, "multiple");
    EntryKept(d0, d1, {"accept_label"}, "directory");
    EntryKept(d1, d2, {"current_filter", "filters"}, "handle_token");
    EntryKept(d1, d2, {"current_filter", "filters"}, "modal");
    EntryKept(d1, d2, {"current_filter", "filters"}, "multiple");
    EntryKept(d1, d2, {"current_filter", "filters"}, "directory");
    EntryKept(d2, d3, {"choices"}, "handle_token");
    EntryKept(d2, d3, {"choices"}, "modal");
    EntryKept(d2, d3, {"choices"}, "multiple");
    EntryKept(d2, d3, {"choices"}, "directory");
    EntryKept(d3, d4, {"current_name"}, "handle_token");
    EntryKept(d3, d4, {"current_name"}, "modal");
    EntryKept(d3, d4, {"current_name"}, "multiple");
    EntryKept(d3, d4, {"current_name"}, "directory");
    EntryKept(d4, d5, {"current_folder"}, "handle_token");
    EntryKept(d4, d5, {"current_folder"}, "modal");
    EntryKept(d4, d5, {"current_folder"}, "multiple");
    EntryKept(d4, d5, {"current_folder"}, "directory");
    EntryKept(d5, d6, {"current_file"}, "handle_token");
    EntryKept(d5, d6, {"current_file"}, "modal");
    EntryKept(d5, d6, {"current_file"}, "multiple");
    EntryKept(d5, d6, {"current_file"}, "directory");
  }

  /** accept_label and the filter entries follow the same rules as for an
      open dialog. */
  lemma SaveFileDictLabelAndFilters(o: SaveFileOptions)
    ensures LabelEntry(SaveFileDict(o), o.acceptLabel)
    ensures FilterEntries(SaveFileDict(o), o.filters)
  {
    var d1 := WithAcceptLabel(SaveFileBase(o), o.acceptLabel);
    var d2 := WithFilters(d1, o.filters);
    var d3 := WithChoices(d2, o.choices);
    var d4 := WithText(d3, "current_name", o.suggestedFileName);
    var d5 := WithPath(d4, "current_folder", o.suggestedFolder);
    var d6 := WithPath(d5, "current_file", o.currentFile);
    assert LabelEntry(d1, o.acceptLabel);
    EntryKept(d1, d2, {"current_filter", "filters"}, "accept_label");
    assert FilterEntries(d2, o.filters);
    EntryKept(d2, d3, {"choices"}, "accept_label");
    EntryKept(d2, d3, {"choices"}, "current_filter");
    EntryKept(d2, d3, {"choices"}, "filters");
    EntryKept(d3, d4, {"current_name"}, "accept_label");
    EntryKept(d3, d4, {"current_name"}, "current_filter");
    EntryKept(d3, d4, {"current_name"}, "filters");
    EntryKept(d4, d5, {"current_folder"}, "accept_label");
    EntryKept(d4, d5, {"current_folder"}, "current_filter");
    EntryKept(d4, d5, {"current_folder"}, "filters");
    EntryKept(d5, d6, {"current_file"}, "accept_label");
    EntryKept(d5, d6, {"current_file"}, "current_filter");
    EntryKept(d5, d6, {"current_file"}, "filters");
  }

  /** choices and current_name are sent exactly when set; a suggested name
      even when it is empty. */
  lemma SaveFileDictChoicesAndName(o: SaveFileOptions)
    ensures var d := SaveFileDict(o);
      && ("choices" in d <==> o.choices.Some?)
      && ("choices" in d ==> d["choices"] == ChoicesListToVariant(o.choices.value))
      && ("current_name" in d <==> o.suggestedFileName.Some?)
      && ("current_name" in d ==> d["current_name"] == Str(o.suggestedFileName.value))
  {
    var d2 := WithFilters(WithAcceptLabel(SaveFileBase(o), o.acceptLabel), o.filters);
    var d3 := WithChoices(d2, o.choices);
    var d4 := WithText(d3, "current_name", o.suggestedFileName);
    var d5 := WithPath(d4, "current_folder", o.suggestedFolder);
    var d6 := WithPath(d5, "current_file", o.currentFile);
    assert "choices" !in d2 && "current_name" !in d3;
    EntryKept(d3, d4, {"current_name"}, "choices");
    EntryKept(d4, d5, {"current_folder"}, "choices");
    EntryKept(d4, d5, {"current_folder"}, "current_name");
    EntryKept(d5, d6, {"current_file"}, "choices");
    EntryKept(d5, d6, {"current_file"}, "current_name");
  }

  /** current_folder and current_file are sent exactly when set, as
      nul-terminated UTF-8. */
  lemma SaveFileDictPaths(o: SaveFileOptions)
    ensures var d := SaveFileDict(o);
      && ("current_folder" in d <==> o.suggestedFolder.Some?)
      && ("current_folder" in d ==> d["current_folder"] == PathBytes(o.suggestedFolder.value))
      && ("current_file" in d <==> o.currentFile.Some?)
      && ("current_file" in d ==> d["current_file"] == PathBytes(o.currentFile.value))
  {
    var d0 := SaveFileBase(o);
    var d1 := WithAcceptLabel(d0, o.acceptLabel);
    var d2 := WithFilters(d1, o.filters);
    var d3 := WithChoices(d2, o.choices);
    var d4 := WithText(d3, "current_name", o.suggestedFileName);
    var d5 := WithPath(d4, "current_folder", o.suggestedFolder);
    var d6 := WithPath(d5, "current_file", o.currentFile);
    assert "current_folder" !in d0 && "current_file" !in d0;
    EntryKept(d0, d1, {"accept_label"}, "current_folder");
    EntryKept(d0, d1, {"accept_label"}, "current_file");
    EntryKept(d1, d2, {"current_filter", "filters"}, "current_folder");
    EntryKept(d1, d2, {"current_filter", "filters"}, "current_file");
    EntryKept(d2, d3, {"choices"}, "current_folder");
    EntryKept(d2, d3, {"choices"}, "current_file");
    EntryKept(d3, d4, {"current_name"}, "current_folder");
    EntryKept(d3, d4, {"current_name"}, "current_file");
    EntryKept(d4, d5, {"current_folder"}, "current_file");
    EntryKept(d5, d6, {"current_file"}, "current_folder");
  }

  /** The bytes sent for a path are its UTF-8 form, then a single nul, and
      they decode back to the path. */
  lemma PathBytesRoundTrip(path: string)
    ensures var v := PathBytes(path);
      && |v.items| >= 1 && v.items[|v.items| - 1] == Byte(0)
      && Utf8.Decode(Utf8.Encode(path)) == Some(path)
      && ('\0' !in path <==> forall k :: 0 <= k < |v.items| - 1 ==> v.items[k] != Byte(0))
  {
    var b := Utf8.NulTerminated(path);
    Utf8.DecodeEncode(path);
    Utf8.NulTerminatedEndsAtPath(path);
    assert forall k :: 0 <= k < |b| ==> PathBytes(path).items[k] == Byte(b[k]);
  }
}
