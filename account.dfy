/** GetUserInformationOptions and GetUserInformationResults of the Account
    portal. */
module Account {
  import opened Wrappers
  import Text
  import opened Errors
  import opened Variants
  import opened Uris
  import DBusHelper

  datatype GetUserInformationOptions = GetUserInformationOptions(handleToken: string, reason: Option<string>)

  /** A new options record: a fresh handle token (draw is the Random.Next
      result) and no reason. */
  function NewOptions(draw: nat): (o: GetUserInformationOptions)
    requires draw < DBusHelper.RandomNextBound
    ensures o.handleToken == DBusHelper.CreateHandleToken(draw) && o.reason.None?
  {
    GetUserInformationOptions(DBusHelper.CreateHandleToken(draw), None)
  }

  /** ToVarDict: handle_token always, reason exactly when it is non-empty,
      and no other key. */
  method ToVarDict(o: GetUserInformationOptions) returns (d: VarDict)
    ensures d.Keys == {"handle_token"} + (if Text.HasText(o.reason) then {"reason"} else {})
    ensures d["handle_token"] == Str(o.handleToken)
    ensures Text.HasText(o.reason) ==> d["reason"] == Str(o.reason.value)
  {
    d := map["handle_token" := Str(o.handleToken)];
    if Text.HasText(o.reason) {
      d := d["reason" := Str(o.reason.value)];
    }
  }

  datatype GetUserInformationResults = GetUserInformationResults(
    userId: Option<string>,
    userName: Option<string>,
    userImage: Option<Uri>)

  /** The NotSupportedException message for an avatar that is not a file. */
  function NonFileImageMessage(uri: Uri): string
  {
    "Portal returned a non-file URI `" + uri.text + "`"
  }

  /** A present text entry that GetString reads, or no entry at all. */
  predicate StringOrAbsent(varDict: VarDict, key: string)
  {
    key in varDict ==> varDict[key].Str?
  }

  /** The field a present, non-empty text entry sets. */
  function TextField(varDict: VarDict, key: string): Option<string>
  {
    if key in varDict && varDict[key].Str? && varDict[key].s != "" then Some(varDict[key].s) else None
  }

  /** From: UserId and UserName are set from non-empty "id" and "name";
      UserImage from an "image" that parses as an absolute file URI; an
      image that does not parse is ignored, one that is not a file URI is
      NotSupportedException, and an entry that is not text fails in
      GetString. */
  method From(varDict: VarDict, parse: UriParser) returns (r: Result<GetUserInformationResults, Error>)
    ensures r.Success? <==>
      && StringOrAbsent(varDict, "id") && StringOrAbsent(varDict, "name") && StringOrAbsent(varDict, "image")
      && ("image" in varDict && parse(varDict["image"].s).Some? ==> parse(varDict["image"].s).value.IsFile())
    ensures r.Success? ==>
      && r.value.userId == TextField(varDict, "id")
      && r.value.userName == TextField(varDict, "name")
      && r.value.userImage == (if "image" in varDict && varDict["image"].Str? then parse(varDict["image"].s) else None)
    ensures !StringOrAbsent(varDict, "id") ==> r == Failure(InvalidOperation)
    ensures StringOrAbsent(varDict, "id") && !StringOrAbsent(varDict, "name") ==> r == Failure(InvalidOperation)
    ensures StringOrAbsent(varDict, "id") && StringOrAbsent(varDict, "name") && "image" in varDict ==>
      && (!varDict["image"].Str? ==> r == Failure(InvalidOperation))
      && (varDict["image"].Str? && parse(varDict["image"].s).Some? && !parse(varDict["image"].s).value.IsFile() ==>
            r == Failure(NotSupported(NonFileImageMessage(parse(varDict["image"].s).value))))
  {
    var res := GetUserInformationResults(None, None, None);

    if "id" in varDict {
      var id := varDict["id"].GetString();
      if id.Failure? {
        return Failure(id.error);
      }
      if id.value != "" {
        res := res.(userId := Some(id.value));
      }
    }

    if "name" in varDict {
      var name := varDict["name"].GetString();
      if name.Failure? {
        return Failure(name.error);
      }
      if name.value != "" {
        res := res.(userName := Some(name.value));
      }
    }

    if "image" in varDict {
      var image := varDict["image"].GetString();
      if image.Failure? {
        return Failure(image.error);
      }
      var uri := parse(image.value);
      if uri.Some? {
        if !uri.value.IsFile() {
          return Failure(NotSupported(NonFileImageMessage(uri.value)));
        }
        res := res.(userImage := uri);
      }
    }

    return Success(res);
  }
}
