/** FileChooser.OpenFileOptions and FileChooser.OpenFileResults: the older
    FileChooser surface, which sends no filters, choices or folder and
    reports every malformed "uris" entry as NotImplementedException. */
module LegacyFileChooser {
  import opened Wrappers
  import Text
  import opened Errors
  import opened Variants
  import opened VariantParsing
  import DBusHelper
  import FileChooserOptions
  import FileChooserResults
  import opened Uris

  datatype OpenFileOptions = OpenFileOptions(
    handleToken: string,
    acceptLabel: Option<string>,
    isDialogModal: bool,
    allowMultiple: bool,
    selectDirectories: bool)

  /** A new options record: a fresh handle token (draw is the Random.Next
      result), a modal dialog, one file, files rather than directories. */
  function NewOpenFileOptions(draw: nat): (o: OpenFileOptions)
    requires draw < DBusHelper.RandomNextBound
    ensures o.handleToken == DBusHelper.CreateHandleToken(draw)
    ensures o.isDialogModal && !o.allowMultiple && !o.selectDirectories && o.acceptLabel.None?
  {
    OpenFileOptions(DBusHelper.CreateHandleToken(draw), None, true, false, false)
  }

  /** The dictionary ToVarDict returns: the four fixed entries, and the
      accept label when it is non-empty. */
  function OpenFileDict(o: OpenFileOptions): VarDict
  {
    FileChooserOptions.WithAcceptLabel(
      map["handle_token" := Str(o.handleToken), "modal" := Bool(o.isDialogModal),
          "multiple" := Bool(o.allowMultiple), "directory" := Bool(o.selectDirectories)],
      o.acceptLabel)
  }

  /** ToVarDict: the dictionary initializer, then the conditional Add. */
  method OpenFileToVarDict(o: OpenFileOptions) returns (d: VarDict)
    ensures d == OpenFileDict(o)
  {
    d := map["handle_token" := Str(o.handleToken), "modal" := Bool(o.isDialogModal),
             "multiple" := Bool(o.allowMultiple), "directory" := Bool(o.selectDirectories)];
    if Text.HasText(o.acceptLabel) {
      d := d["accept_label" := Str(o.acceptLabel.value)];
    }
  }

  /** Exactly handle_token, modal, multiple and directory, plus accept_label
      exactly when the label is non-empty; no filter, choice or folder key. */
  lemma OpenFileDictSpec(o: OpenFileOptions)
    ensures var d := OpenFileDict(o);
      && d.Keys == {"handle_token", "modal", "multiple", "directory"} +
                   (if Text.HasText(o.acceptLabel) then {"accept_label"} else {})
      && d["handle_token"] == Str(o.handleToken) && d["modal"] == Bool(o.isDialogModal)
      && d["multiple"] == Bool(o.allowMultiple) && d["directory"] == Bool(o.selectDirectories)
      && (Text.HasText(o.acceptLabel) ==> d["accept_label"] == Str(o.acceptLabel.value))
  {
  }

  /** One item of "uris": not an absolute URI, or not a file URI, is
      NotImplementedException. */
  function ParseFileUri(text: string, parse: UriParser): Result<Uri, Error>
  {
    match parse(text)
    case None => Failure(NotImplemented)
    case Some(u) => if u.IsFile() then Success(u) else Failure(NotImplemented)
  }

  /** The per-item step of ParseSelectedFiles as a function value. */
  function UriStep(parse: UriParser): string -> Result<Uri, Error>
  {
    text => ParseFileUri(text, parse)
  }

  /** What ParseSelectedFiles returns for a results dictionary. */
  function SelectedFiles(varDict: VarDict, parse: UriParser): Result<seq<Uri>, Error>
  {
    if "uris" !in varDict then Failure(NotImplemented)
    else
      var urisValue := varDict["uris"];
      if !urisValue.Array? || urisValue.itemType != StringType then Failure(NotImplemented)
      else
        match FileChooserResults.GetStringArray(urisValue)
        case Failure(e) => Failure(e)
        case Success(texts) => MapAll(UriStep(parse), texts)
  }

  /** ParseSelectedFiles: every well-formed item comes back in order; a
      missing key, a wrong type or a bad item is NotImplementedException,
      and an array typed String holding a non-string item fails in
      GetArray. */
  lemma SelectedFilesSpec(varDict: VarDict, parse: UriParser)
    ensures SelectedFiles(varDict, parse).Success? <==>
      && "uris" in varDict && varDict["uris"].Array? && varDict["uris"].itemType == StringType
      && forall i :: 0 <= i < |varDict["uris"].items| ==>
           var item := varDict["uris"].items[i];
           item.Str? && parse(item.s).Some? && parse(item.s).value.IsFile()
    ensures SelectedFiles(varDict, parse).Success? ==>
      var items := varDict["uris"].items;
      var uris := SelectedFiles(varDict, parse).value;
      |uris| == |items| && forall i :: 0 <= i < |items| ==> uris[i] == parse(items[i].s).value
    ensures SelectedFiles(varDict, parse).Failure? ==>
      SelectedFiles(varDict, parse).error in {NotImplemented, InvalidOperation}
  {
    if "uris" in varDict {
      var v := varDict["uris"];
      var got := FileChooserResults.GetStringArray(v);
      if v.Array? && v.itemType == StringType && got.Success? {
        MapAllSpec(UriStep(parse), got.value);
        if MapAll(UriStep(parse), got.value).Failure? {
          MapAllFailure(UriStep(parse), got.value);
        }
      }
    }
  }

  /** The older decoder accepts exactly what the newer one accepts and
      returns the same URIs; only the exceptions differ. */
  lemma SelectedFilesAgree(varDict: VarDict, parse: UriParser)
    ensures SelectedFiles(varDict, parse).Success? <==> FileChooserResults.SelectedFiles(varDict, parse).Success?
    ensures SelectedFiles(varDict, parse).Success? ==>
      SelectedFiles(varDict, parse).value == FileChooserResults.SelectedFiles(varDict, parse).value
  {
    SelectedFilesSpec(varDict, parse);
    FileChooserResults.SelectedFilesSpec(varDict, parse);
    if SelectedFiles(varDict, parse).Success? {
      var a := SelectedFiles(varDict, parse).value;
      var b := FileChooserResults.SelectedFiles(varDict, parse).value;
      assert |a| == |b|;
      assert forall i :: 0 <= i < |a| ==> a[i] == b[i];
    }
  }

  /** ParseSelectedFiles: fills an array of the URIs by index. */
  method ParseSelectedFiles(varDict: VarDict, parse: UriParser)
    returns (r: Result<seq<Uri>, Error>)
    ensures r == SelectedFiles(varDict, parse)
  {
    if "uris" !in varDict {
      return Failure(NotImplemented);
    }
    var urisValue := varDict["uris"];
    if urisValue.Type() != ArrayType || urisValue.ItemType() != StringType {
      return Failure(NotImplemented);
    }
    var got := FileChooserResults.GetStringArray(urisValue);
    if got.Failure? {
      return Failure(got.error);
    }
    var stringArray := got.value;
    var selectedFiles := new Uri[|stringArray|];
    for i := 0 to |stringArray|
      invariant MapAll(UriStep(parse), stringArray[..i]) == Success(selectedFiles[..i])
    {
      var selectedFileUri := ParseFileUri(stringArray[i], parse);
      if selectedFileUri.Failure? {
        MapAllStops(UriStep(parse), stringArray, i);
        return Failure(selectedFileUri.error);
      }
      MapAllStep(UriStep(parse), stringArray, i, selectedFiles[..i]);
      selectedFiles[i] := selectedFileUri.value;
      assert selectedFiles[..i + 1] == selectedFiles[..i] + [selectedFileUri.value];
    }
    assert stringArray[..|stringArray|] == stringArray;
    assert selectedFiles[..] == selectedFiles[..|stringArray|];
    return Success(selectedFiles[..]);
  }

  datatype OpenFileResults = OpenFileResults(selectedFiles: seq<Uri>)

  /** From sets only SelectedFiles. */
  method From(varDict: VarDict, parse: UriParser) returns (r: Result<OpenFileResults, Error>)
    ensures r.Success? <==> SelectedFiles(varDict, parse).Success?
    ensures r.Success? ==> r.value == OpenFileResults(SelectedFiles(varDict, parse).value)
    ensures r.Failure? ==> r.error == SelectedFiles(varDict, parse).error
  {
    var res := OpenFileResults([]);
    var files := ParseSelectedFiles(varDict, parse);
    if files.Failure? {
      return Failure(files.error);
    }
    res := res.(selectedFiles := files.value);
    return Success(res);
  }
}
