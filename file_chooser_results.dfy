/** OpenFileResults and SaveFileResults of the FileChooser portal: the
    selected file URIs, the filter the portal reports and the merge of the
    returned choices with the defaults of the offered ones. */
module FileChooserResults {
  import opened Wrappers
  import opened Errors
  import opened Variants
  import opened VariantParsing
  import opened FileChooserFilters
  import opened FileChooserChoices
  import FileChooserOptions
  import opened Uris

  /** VariantValue.GetArray<string>(): the strings of an array of strings. */
  function GetStringArray(v: VariantValue): (r: Result<seq<string>, Error>)
    ensures r.Success? <==> v.Array? && forall i :: 0 <= i < |v.items| ==> v.items[i].Str?
    ensures r.Success? ==> |r.value| == |v.items| && forall i :: 0 <= i < |v.items| ==> r.value[i] == v.items[i].s
  {
    if v.Array? && forall i :: 0 <= i < |v.items| ==> v.items[i].Str? then
      Success(seq(|v.items|, i requires 0 <= i < |v.items| && v.items[i].Str? => v.items[i].s))
    else
      Failure(InvalidOperation)
  }

  /** One item of "uris": an absolute URI with the file scheme. */
  function ParseFileUri(text: string, parse: UriParser): Result<Uri, Error>
  {
    match parse(text)
    case None => Failure(UriFormat(text))
    case Some(u) => if u.IsFile() then Success(u) else Failure(VariantParsing(NotFileUri(u.scheme)))
  }

  /** The per-item step of ParseSelectedFiles as a function value. */
  function UriStep(parse: UriParser): string -> Result<Uri, Error>
  {
    text => ParseFileUri(text, parse)
  }

  /** The items parsed in order; the first one that fails decides the error. */
  function DecodeUris(texts: seq<string>, parse: UriParser): Result<seq<Uri>, Error>
  {
    MapAll(UriStep(parse), texts)
  }

  /** What ParseSelectedFiles returns for a results dictionary. */
  function SelectedFiles(varDict: VarDict, parse: UriParser): Result<seq<Uri>, Error>
  {
    if "uris" !in varDict then Failure(KeyNotFound("uris"))
    else
      var urisValue := varDict["uris"];
      match ExpectArray(urisValue, StringType, None)
      case Fail(e) => Failure(e)
      case Pass =>
        match GetStringArray(urisValue)
        case Failure(e) => Failure(e)
        case Success(texts) => DecodeUris(texts, parse)
  }

  /** Decoding succeeds exactly when every item is a file URI, and keeps the
      items' number and order. */
  lemma DecodeUrisSpec(texts: seq<string>, parse: UriParser)
    ensures DecodeUris(texts, parse).Success? <==>
      forall i :: 0 <= i < |texts| ==> parse(texts[i]).Some? && parse(texts[i]).value.IsFile()
    ensures DecodeUris(texts, parse).Success? ==>
      var uris := DecodeUris(texts, parse).value;
      |uris| == |texts| && forall i :: 0 <= i < |texts| ==> uris[i] == parse(texts[i]).value
  {
    MapAllSpec(UriStep(parse), texts);
  }

  /** ParseSelectedFiles: a missing key, a value that is not a string array,
      or an item that is not an absolute file URI fails; otherwise the URIs
      come back in order, one per item. */
  lemma SelectedFilesSpec(varDict: VarDict, parse: UriParser)
    ensures "uris" !in varDict ==> SelectedFiles(varDict, parse) == Failure(KeyNotFound("uris"))
    ensures SelectedFiles(varDict, parse).Success? <==>
      && "uris" in varDict && varDict["uris"].Array? && varDict["uris"].itemType == StringType
      && forall i :: 0 <= i < |varDict["uris"].items| ==>
           var item := varDict["uris"].items[i];
           item.Str? && parse(item.s).Some? && parse(item.s).value.IsFile()
    ensures SelectedFiles(varDict, parse).Success? ==>
      var items := varDict["uris"].items;
      var uris := SelectedFiles(varDict, parse).value;
      |uris| == |items| && forall i :: 0 <= i < |items| ==> uris[i] == parse(items[i].s).value
  {
    if "uris" in varDict {
      var v := varDict["uris"];
      ExpectArrayPassesExactly(v, StringType, None);
      var got := GetStringArray(v);
      if v.Array? && v.itemType == StringType && got.Success? {
        DecodeUrisSpec(got.value, parse);
      }
    }
  }

  /** OpenFileResults.ParseSelectedFiles: fills an array of the URIs by index. */
  method ParseSelectedFiles(varDict: VarDict, parse: UriParser) returns (r: Result<seq<Uri>, Error>)
    ensures r == SelectedFiles(varDict, parse)
  {
    if "uris" !in varDict {
      return Failure(KeyNotFound("uris"));
    }
    var urisValue := varDict["uris"];
    var check := ExpectArray(urisValue, StringType, None);
    if check.Fail? {
      return Failure(check.error);
    }
    var got := GetStringArray(urisValue);
    if got.Failure? {
      return Failure(got.error);
    }
    var stringArray := got.value;
    var selectedFiles := new Uri[|stringArray|];
    for i := 0 to |stringArray|
      invariant MapAll(UriStep(parse), stringArray[..i]) == Success(selectedFiles[..i])
    {
      var selectedFileUri := ParseFileUri(stringArray[i], parse);
      if selectedFileUri.Failure? {
        MapAllStops(UriStep(parse), stringArray, i);
        return Failure(selectedFileUri.error);
      }
      MapAllStep(UriStep(parse), stringArray, i, selectedFiles[..i]);
      selectedFiles[i] := selectedFileUri.value;
      assert selectedFiles[..i + 1] == selectedFiles[..i] + [selectedFileUri.value];
    }
    assert stringArray[..|stringArray|] == stringArray;
    assert selectedFiles[..] == selectedFiles[..|stringArray|];
    return Success(selectedFiles[..]);
  }

  /** OneOf<OpenFileComboBoxResult, OpenFileCheckBoxResult>. */
  datatype ChoiceResult =
    | ComboBoxResult(id: string, value: string)
    | CheckBoxResult(id: string, isChecked: bool)

  /** A check box's "true" or "false" read back (ordinal comparison). */
  function ParseBoolean(text: string): (r: Result<bool, Error>)
  {
    if text == "true" then Success(true)
    else if text == "false" then Success(false)
    else Failure(VariantParsing(NotBooleanString(text)))
  }

  /** The text a check box default is sent as reads back as that default,
      and nothing else reads back at all. */
  lemma ParseBooleanRoundTrip(b: bool, text: string)
    ensures ParseBoolean(CheckBoxDefaultText(b)) == Success(b)
    ensures ParseBoolean(text).Success? <==> text == CheckBoxDefaultText(true) || text == CheckBoxDefaultText(false)
    ensures ParseBoolean(text).Failure? ==> ParseBoolean(text).error == VariantParsing(NotBooleanString(text))
  {
  }

  /** One element of the returned "choices": a two-string struct (id,
      value) whose id must name an offered choice. */
  function DecodeReturned(input: seq<Choice>, element: VariantValue): Result<ChoiceResult, Error>
  {
    match ExpectStruct(element, 2)
    case Fail(e) => Failure(e)
    case Pass =>
      match element.fields[0].GetString()
      case Failure(e) => Failure(e)
      case Success(id) =>
        match element.fields[1].GetString()
        case Failure(e) => Failure(e)
        case Success(value) =>
          match FindById(input, id)
          case None => Failure(KeyNotFound(id))
          case Some(found) =>
            match found
            case ComboBox(_, _, _) => Success(ComboBoxResult(id, value))
            case CheckBox(_, _, _) =>
              match ParseBoolean(value)
              case Failure(e) => Failure(e)
              case Success(b) => Success(CheckBoxResult(id, b))
  }

  /** A decoded element is a two-string struct naming an offered choice; it
      takes that choice's kind, keeps a combo value verbatim and reads a check
      box value as a boolean. An unknown id and a check box value other than
      "true" or "false" are the errors. */
  lemma DecodeReturnedSpec(input: seq<Choice>, element: VariantValue)
    ensures DecodeReturned(input, element).Success? ==>
      && element.Struct? && |element.fields| == 2 && element.fields[0].Str? && element.fields[1].Str?
      && var id := element.fields[0].s;
         var text := element.fields[1].s;
         var c := DecodeReturned(input, element).value;
         && FindById(input, id).Some? && c.id == id
         && (c.ComboBoxResult? <==> FindById(input, id).value.ComboBox?)
         && (c.ComboBoxResult? ==> c.value == text)
         && (c.CheckBoxResult? ==> (text == "true" || text == "false") && c.isChecked == (text == "true"))
    ensures element.Struct? && |element.fields| == 2 && element.fields[0].Str? && element.fields[1].Str? ==>
      var id := element.fields[0].s;
      var text := element.fields[1].s;
      && (FindById(input, id).None? ==> DecodeReturned(input, element) == Failure(KeyNotFound(id)))
      && (FindById(input, id).Some? && FindById(input, id).value.CheckBox? && text != "true" && text != "false" ==>
            DecodeReturned(input, element) == Failure(VariantParsing(NotBooleanString(text))))
    ensures !(element.Struct? && |element.fields| == 2) ==> DecodeReturned(input, element).Failure?
  {
    ExpectStructPassesExactly(element, 2);
  }

  /** The default a check box sends comes back as that default. */
  lemma CheckBoxDefaultRoundTrip(input: seq<Choice>, id: string, b: bool)
    requires FindById(input, id).Some? && FindById(input, id).value.CheckBox?
    ensures DecodeReturned(input, Struct([Str(id), Str(CheckBoxDefaultText(b))])) == Success(CheckBoxResult(id, b))
  {
  }

  /** The body of the first loop of ParseChoices as a function value. */
  function ElementStep(input: seq<Choice>): VariantValue -> Result<ChoiceResult, Error>
  {
    element => DecodeReturned(input, element)
  }

  /** The first loop of ParseChoices: every returned element, in order. */
  function DecodeAll(input: seq<Choice>, items: seq<VariantValue>): Result<seq<ChoiceResult>, Error>
  {
    MapAll(ElementStep(input), items)
  }

  /** The Any over the ids collected so far (ordinal comparison). */
  predicate HasResultFor(list: seq<ChoiceResult>, id: string)
  {
    exists k :: 0 <= k < |list| && list[k].id == id
  }

  /** The entry an offered choice gets when the portal did not return it: a
      combo box its first default choice's id, else its first choice's id
      (indexing an empty choice array throws); a check box its default. */
  function DefaultResult(c: Choice): (r: Result<ChoiceResult, Error>)
    ensures r.Success? ==> r.value.id == c.id && (r.value.ComboBoxResult? <==> c.ComboBox?)
  {
    match c
    case ComboBox(id, _, choices) =>
      var i := FirstDefaultIndex(choices);
      if i >= 0 then Success(ComboBoxResult(id, choices[i].id))
      else if |choices| > 0 then Success(ComboBoxResult(id, choices[0].id))
      else Failure(IndexOutOfRange)
    case CheckBox(id, _, defaultValue) => Success(CheckBoxResult(id, defaultValue))
  }

  /** A filled-in default is the default the options send: the combo box's
      default id when one choice is default, the check box's boolean. */
  lemma DefaultResultMatchesEncoding(c: Choice)
    ensures c.ComboBox? && FirstDefaultIndex(c.choices) >= 0 ==>
      DefaultResult(c) == Success(ComboBoxResult(c.id, ComboBoxDefaultId(c.choices)))
    ensures c.ComboBox? && FirstDefaultIndex(c.choices) == -1 && c.choices != [] ==>
      DefaultResult(c) == Success(ComboBoxResult(c.id, c.choices[0].id))
    ensures c.ComboBox? && c.choices == [] ==> DefaultResult(c) == Failure(IndexOutOfRange)
    ensures c.CheckBox? ==>
      DefaultResult(c).Success? && ParseBoolean(CheckBoxDefaultText(c.defaultValue)) == Success(DefaultResult(c).value.isChecked)
  {
  }

  /** The second loop of ParseChoices: each offered choice whose id has no
      entry yet gets its default appended, in option order. */
  function AppendDefaults(list: seq<ChoiceResult>, input: seq<Choice>): Result<seq<ChoiceResult>, Error>
  {
    if input == [] then Success(list)
    else
      match AppendDefaults(list, input[..|input| - 1])
      case Failure(e) => Failure(e)
      case Success(l) =>
        var item := input[|input| - 1];
        if HasResultFor(l, item.id) then Success(l)
        else
          match DefaultResult(item)
          case Failure(e) => Failure(e)
          case Success(d) => Success(l + [d])
  }

  /** The merge keeps the entries it started with, in front; it fails only
      on a combo box with no choices. */
  lemma {:induction false} AppendDefaultsKeepsPrefix(list: seq<ChoiceResult>, input: seq<Choice>)
    ensures AppendDefaults(list, input).Success? ==>
      var r := AppendDefaults(list, input).value;
      |list| <= |r| && r[..|list|] == list
    ensures AppendDefaults(list, input).Failure? ==> AppendDefaults(list, input).error == IndexOutOfRange
  {
    if input != [] {
      var init := input[..|input| - 1];
      AppendDefaultsKeepsPrefix(list, init);
      var prev := AppendDefaults(list, init);
      if prev.Success? {
        var item := input[|input| - 1];
        if !HasResultFor(prev.value, item.id) && DefaultResult(item).Success? {
          var r := prev.value + [DefaultResult(item).value];
          assert r[..|list|] == prev.value[..|list|];
        }
      }
    }
  }

  /** After the merge every offered id has an entry. */
  lemma {:induction false} AppendDefaultsCovers(list: seq<ChoiceResult>, input: seq<Choice>)
    ensures AppendDefaults(list, input).Success? ==>
      forall j :: 0 <= j < |input| ==> HasResultFor(AppendDefaults(list, input).value, input[j].id)
  {
    if input != [] {
      var init := input[..|input| - 1];
      var item := input[|input| - 1];
      AppendDefaultsCovers(list, init);
      var prev := AppendDefaults(list, init);
      if prev.Success? && AppendDefaults(list, input).Success? {
        var l := prev.value;
        var r := AppendDefaults(list, input).value;
        assert forall k :: 0 <= k < |l| ==> r[k] == l[k];
        forall j | 0 <= j < |input|
          ensures HasResultFor(r, input[j].id)
        {
          if j < |init| {
            assert init[j] == input[j];
            var k :| 0 <= k < |l| && l[k].id == init[j].id;
            assert r[k] == l[k];
          } else if !HasResultFor(l, item.id) {
            assert r[|l|].id == input[j].id;
          }
        }
      }
    }
  }

  /** Every entry from position start on is the default of an offered
      choice whose id has no entry before it. */
  predicate AddedAreDefaults(start: nat, input: seq<Choice>, r: seq<ChoiceResult>)
  {
    forall k :: start <= k < |r| ==>
      && !HasResultFor(r[..k], r[k].id)
      && exists j :: 0 <= j < |input| && input[j].id == r[k].id && DefaultResult(input[j]) == Success(r[k])
  }

  /** Each appended entry is the default of an offered choice whose id has
      no entry before it. */
  lemma {:induction false} AppendDefaultsAddsDefaults(list: seq<ChoiceResult>, input: seq<Choice>)
    ensures AppendDefaults(list, input).Success? ==> AddedAreDefaults(|list|, input, AppendDefaults(list, input).value)
  {
    if input != [] {
      var init := input[..|input| - 1];
      var item := input[|input| - 1];
      AppendDefaultsAddsDefaults(list, init);
      var prev := AppendDefaults(list, init);
      if prev.Success? {
        var l := prev.value;
        assert forall j :: 0 <= j < |init| ==> init[j] == input[j];
        if HasResultFor(l, item.id) {
          assert AppendDefaults(list, input) == Success(l);
        } else if DefaultResult(item).Success? {
          var r := l + [DefaultResult(item).value];
          assert AppendDefaults(list, input) == Success(r);
          forall k | |list| <= k < |r|
            ensures !HasResultFor(r[..k], r[k].id)
            ensures exists j :: 0 <= j < |input| && input[j].id == r[k].id && DefaultResult(input[j]) == Success(r[k])
          {
            if k < |l| {
              assert r[..k] == l[..k] && r[k] == l[k];
            } else {
              assert r[..k] == l;
              assert input[|input| - 1] == item && DefaultResult(item) == Success(r[k]);
            }
          }
        }
      }
    }
  }

  /** Every offered combo box has at least one choice, so no default is an
      out-of-range index and the merge cannot fail. */
  lemma {:induction false} AppendDefaultsSucceeds(list: seq<ChoiceResult>, input: seq<Choice>)
    requires forall j :: 0 <= j < |input| ==> input[j].ComboBox? ==> input[j].choices != []
    ensures AppendDefaults(list, input).Success?
  {
    if input != [] {
      var init := input[..|input| - 1];
      assert forall j :: 0 <= j < |init| ==> init[j] == input[j];
      AppendDefaultsSucceeds(list, init);
    }
  }

  /** What ParseChoices returns: nothing at all when the portal sent no
      "choices" (no defaults are filled in then), else the returned entries
      followed by the defaults of the offered choices not returned. */
  function MergedChoices(input: seq<Choice>, varDict: VarDict): Result<seq<ChoiceResult>, Error>
  {
    if "choices" !in varDict then Success([])
    else
      var choicesValue := varDict["choices"];
      match ExpectArray(choicesValue, StructType, None)
      case Fail(e) => Failure(e)
      case Pass =>
        match DecodeAll(input, choicesValue.items)
        case Failure(e) => Failure(e)
        case Success(list) => AppendDefaults(list, input)
  }

  /** The merge: no "choices" gives an empty list; otherwise the returned
      entries come first, each decoded in order, and every offered id then
      has an entry, the added ones being defaults of ids not seen before. */
  lemma MergedChoicesSpec(input: seq<Choice>, varDict: VarDict)
    ensures "choices" !in varDict ==> MergedChoices(input, varDict) == Success([])
    ensures "choices" in varDict && !(varDict["choices"].Array? && varDict["choices"].itemType == StructType) ==>
      MergedChoices(input, varDict).Failure? && MergedChoices(input, varDict).error.VariantParsing?
    ensures "choices" in varDict && MergedChoices(input, varDict).Success? ==>
      var items := varDict["choices"].items;
      var r := MergedChoices(input, varDict).value;
      && |items| <= |r|
      && (forall i :: 0 <= i < |items| ==> Success(r[i]) == DecodeReturned(input, items[i]))
      && (forall j :: 0 <= j < |input| ==> HasResultFor(r, input[j].id))
      && (forall k :: |items| <= k < |r| ==>
            && !HasResultFor(r[..k], r[k].id)
            && exists j :: 0 <= j < |input| && input[j].id == r[k].id && DefaultResult(input[j]) == Success(r[k]))
  {
    if "choices" in varDict {
      var v := varDict["choices"];
      ExpectArrayPassesExactly(v, StructType, None);
      if v.Array? && v.itemType == StructType {
        MapAllSpec(ElementStep(input), v.items);
        var decoded := DecodeAll(input, v.items);
        if decoded.Success? {
          AppendDefaultsKeepsPrefix(decoded.value, input);
          AppendDefaultsCovers(decoded.value, input);
          AppendDefaultsAddsDefaults(decoded.value, input);
          var r := AppendDefaults(decoded.value, input);
          if r.Success? {
            forall i | 0 <= i < |v.items|
              ensures Success(r.value[i]) == DecodeReturned(input, v.items[i])
            {
              assert r.value[i] == r.value[..|decoded.value|][i];
            }
          }
        }
      }
    }
  }

  /** OpenFileResults.ParseChoices: decodes the returned elements one by one
      into a list, then walks the offered choices and appends a default for
      each id the list lacks. */
  method ParseChoices(input: seq<Choice>, varDict: VarDict) returns (r: Result<seq<ChoiceResult>, Error>)
    ensures r == MergedChoices(input, varDict)
  {
    if "choices" !in varDict {
      return Success([]);
    }
    var choicesValue := varDict["choices"];
    var check := ExpectArray(choicesValue, StructType, None);
    if check.Fail? {
      return Failure(check.error);
    }
    var items := choicesValue.items;
    var list: seq<ChoiceResult> := [];
    for i := 0 to |items|
      invariant MapAll(ElementStep(input), items[..i]) == Success(list)
    {
      var element := items[i];
      var decoded := DecodeElement(input, element);
      if decoded.Failure? {
        MapAllStops(ElementStep(input), items, i);
        return Failure(decoded.error);
      }
      MapAllStep(ElementStep(input), items, i, list);
      list := list + [decoded.value];
    }
    assert items[..|items|] == items;
    ghost var returned := list;
    for j := 0 to |input|
      invariant AppendDefaults(returned, input[..j]) == Success(list)
    {
      var item := input[j];
      assert input[..j + 1][..j] == input[..j];
      var matches := HasResultFor(list, item.id);
      if matches {
        continue;
      }
      var d := DefaultResult(item);
      if d.Failure? {
        AppendDefaultsStops(returned, input, j);
        return Failure(d.error);
      }
      list := list + [d.value];
    }
    assert input[..|input|] == input;
    return Success(list);
  }

  /** The body of the first loop: the struct check, the two strings, the
      TryGet lookup and the kind-dependent result. */
  method DecodeElement(input: seq<Choice>, element: VariantValue) returns (r: Result<ChoiceResult, Error>)
    ensures r == DecodeReturned(input, element)
  {
    var check := ExpectStruct(element, 2);
    if check.Fail? {
      return Failure(check.error);
    }
    var id := element.fields[0].GetString();
    if id.Failure? {
      return Failure(id.error);
    }
    var value := element.fields[1].GetString();
    if value.Failure? {
      return Failure(value.error);
    }
    var ok, found := TryGet(input, id.value);
    if !ok {
      return Failure(KeyNotFound(id.value));
    }
    match found.value
    case ComboBox(_, _, _) =>
      r := Success(ComboBoxResult(id.value, value.value));
    case CheckBox(_, _, _) =>
      var b := ParseBoolean(value.value);
      if b.Failure? {
        return Failure(b.error);
      }
      r := Success(CheckBoxResult(id.value, b.value));
  }

  lemma {:induction false} AppendDefaultsStops(list: seq<ChoiceResult>, input: seq<Choice>, j: nat)
    requires j < |input|
    requires AppendDefaults(list, input[..j]).Success?
    requires !HasResultFor(AppendDefaults(list, input[..j]).value, input[j].id) && DefaultResult(input[j]).Failure?
    ensures AppendDefaults(list, input) == Failure(DefaultResult(input[j]).error)
  {
    if j == |input| - 1 {
      assert input[..|input| - 1] == input[..j];
    } else {
      var init := input[..|input| - 1];
      assert init[..j] == input[..j];
      AppendDefaultsStops(list, init, j);
    }
  }

  /** OpenFileResults. */
  datatype OpenFileResults = OpenFileResults(
    selectedFiles: seq<Uri>,
    selectedFilter: Option<Filter>,
    choices: Option<seq<ChoiceResult>>)

  /** SaveFileResults. */
  datatype SaveFileResults = SaveFileResults(
    selectedFileLocation: Uri,
    selectedFilter: Option<Filter>,
    choices: Option<seq<ChoiceResult>>)

  /** The filter the portal reports, when it reports one. */
  function SelectedFilter(varDict: VarDict): Result<Option<Filter>, Error>
  {
    if "current_filter" !in varDict then Success(None)
    else
      match FilterFromVariant(varDict["current_filter"])
      case Failure(e) => Failure(e)
      case Success(f) => Success(Some(f))
  }

  /** The merged choices when choices were offered, null otherwise. */
  function ResultChoices(offered: Option<seq<Choice>>, varDict: VarDict): Result<Option<seq<ChoiceResult>>, Error>
  {
    if offered.None? then Success(None)
    else
      match MergedChoices(offered.value, varDict)
      case Failure(e) => Failure(e)
      case Success(list) => Success(Some(list))
  }

  /** What OpenFileResults.From returns: the files, then the filter, then the
      choices, each failing step ending the decoding. */
  function OpenFileResultsOf(options: FileChooserOptions.OpenFileOptions, varDict: VarDict, parse: UriParser)
    : Result<OpenFileResults, Error>
  {
    match SelectedFiles(varDict, parse)
    case Failure(e) => Failure(e)
    case Success(files) =>
      match SelectedFilter(varDict)
      case Failure(e) => Failure(e)
      case Success(filter) =>
        match ResultChoices(options.choices, varDict)
        case Failure(e) => Failure(e)
        case Success(choices) => Success(OpenFileResults(files, filter, choices))
  }

  /** What SaveFileResults.From returns: element 0 of the selected files
      (none at all throws), then the filter and the choices. */
  function SaveFileResultsOf(options: FileChooserOptions.SaveFileOptions, varDict: VarDict, parse: UriParser)
    : Result<SaveFileResults, Error>
  {
    match SelectedFiles(varDict, parse)
    case Failure(e) => Failure(e)
    case Success(files) =>
      if files == [] then Failure(IndexOutOfRange)
      else
        match SelectedFilter(varDict)
        case Failure(e) => Failure(e)
        case Success(filter) =>
          match ResultChoices(options.choices, varDict)
          case Failure(e) => Failure(e)
          case Success(choices) => Success(SaveFileResults(files[0], filter, choices))
  }

  /** The shared fields: SelectedFilter is set exactly when "current_filter"
      is present, and then holds only the reported name; Choices is null
      exactly when no choices were offered. */
  lemma SharedFieldsSpec(offered: Option<seq<Choice>>, varDict: VarDict)
    ensures SelectedFilter(varDict).Success? ==>
      && (SelectedFilter(varDict).value.Some? <==> "current_filter" in varDict)
      && (SelectedFilter(varDict).value.Some? ==>
            var v := varDict["current_filter"];
            v.Struct? && |v.fields| == 2 && v.fields[0].Str?
            && SelectedFilter(varDict).value.value == Filter(v.fields[0].s, [], false))
    ensures ResultChoices(offered, varDict).Success? ==>
      && (ResultChoices(offered, varDict).value.None? <==> offered.None?)
      && (offered.Some? ==> Success(ResultChoices(offered, varDict).value.value) == MergedChoices(offered.value, varDict))
  {
    if "current_filter" in varDict {
      FilterFromVariantAccepts(varDict["current_filter"]);
    }
  }

  /** OpenFileResults.From fails exactly when one of its three steps does,
      and otherwise assembles their results. */
  lemma OpenFileResultsSpec(options: FileChooserOptions.OpenFileOptions, varDict: VarDict, parse: UriParser)
    ensures OpenFileResultsOf(options, varDict, parse).Success? <==>
      SelectedFiles(varDict, parse).Success? && SelectedFilter(varDict).Success? && ResultChoices(options.choices, varDict).Success?
    ensures SelectedFiles(varDict, parse).Failure? ==>
      OpenFileResultsOf(options, varDict, parse) == Failure(SelectedFiles(varDict, parse).error)
    ensures OpenFileResultsOf(options, varDict, parse).Success? ==>
      OpenFileResultsOf(options, varDict, parse).value ==
        OpenFileResults(SelectedFiles(varDict, parse).value, SelectedFilter(varDict).value, ResultChoices(options.choices, varDict).value)
  {
  }

  /** SaveFileResults.From: the location is the first selected file, and an
      empty selection fails like a missing one. */
  lemma SaveFileResultsSpec(options: FileChooserOptions.SaveFileOptions, varDict: VarDict, parse: UriParser)
    ensures SaveFileResultsOf(options, varDict, parse).Success? <==>
      && SelectedFiles(varDict, parse).Success? && SelectedFiles(varDict, parse).value != []
      && SelectedFilter(varDict).Success? && ResultChoices(options.choices, varDict).Success?
    ensures SelectedFiles(varDict, parse).Success? && SelectedFiles(varDict, parse).value == [] ==>
      SaveFileResultsOf(options, varDict, parse) == Failure(IndexOutOfRange)
    ensures SaveFileResultsOf(options, varDict, parse).Success? ==>
      SaveFileResultsOf(options, varDict, parse).value ==
        SaveFileResults(SelectedFiles(varDict, parse).value[0], SelectedFilter(varDict).value,
                        ResultChoices(options.choices, varDict).value)
  {
  }

  /** OpenFileResults.From: sets the record's fields one step at a time. */
  method OpenFileResultsFrom(options: FileChooserOptions.OpenFileOptions, varDict: VarDict, parse: UriParser)
    returns (r: Result<OpenFileResults, Error>)
    ensures r == OpenFileResultsOf(options, varDict, parse)
  {
    var res := OpenFileResults([], None, None);
    var files := ParseSelectedFiles(varDict, parse);
    if files.Failure? {
      return Failure(files.error);
    }
    res := res.(selectedFiles := files.value);
    if "current_filter" in varDict {
      var filter := FilterFromVariant(varDict["current_filter"]);
      if filter.Failure? {
        return Failure(filter.error);
      }
      res := res.(selectedFilter := Some(filter.value));
    }
    var choiceList := options.choices;
    if choiceList.Some? {
      var choices := ParseChoices(choiceList.value, varDict);
      if choices.Failure? {
        return Failure(choices.error);
      }
      res := res.(choices := Some(choices.value));
    }
    return Success(res);
  }

  /** SaveFileResults.From: element 0 of the parsed files, then the filter
      and the choices. */
  method SaveFileResultsFrom(options: FileChooserOptions.SaveFileOptions, varDict: VarDict, parse: UriParser)
    returns (r: Result<SaveFileResults, Error>)
    ensures r == SaveFileResultsOf(options, varDict, parse)
  {
    var files := ParseSelectedFiles(varDict, parse);
    if files.Failure? {
      return Failure(files.error);
    }
    if |files.value| == 0 {
      return Failure(IndexOutOfRange);
    }
    var res := SaveFileResults(files.value[0], None, None);
    if "current_filter" in varDict {
      var filter := FilterFromVariant(varDict["current_filter"]);
      if filter.Failure? {
        return Failure(filter.error);
      }
      res := res.(selectedFilter := Some(filter.value));
    }
    var choiceList := options.choices;
    if choiceList.Some? {
      var choices := ParseChoices(choiceList.value, varDict);
      if choices.Failure? {
        return Failure(choices.error);
      }
      res := res.(choices := Some(choices.value));
    }
    return Success(res);
  }
}
