/** The fixed-shape option dictionaries: ScreenshotOptions, the OpenURI
    portal's OpenUriOptions and OpenFileInDirectoryOptions, and the older
    OpenUriPortal.OpenFileOptions, OpenUriOptions and
    OpenFileInDirectoryOptions. Each ToVarDict is one dictionary literal. */
module PortalOptions {
  import opened Variants
  import DBusHelper

  datatype ScreenshotOptions = ScreenshotOptions(handleToken: string, isDialogModal: bool, isDialogInteractive: bool)

  /** A new ScreenshotOptions: a fresh token, a modal, non-interactive dialog. */
  function NewScreenshotOptions(draw: nat): (o: ScreenshotOptions)
    requires draw < DBusHelper.RandomNextBound
    ensures o.handleToken == DBusHelper.CreateHandleToken(draw) && o.isDialogModal && !o.isDialogInteractive
  {
    ScreenshotOptions(DBusHelper.CreateHandleToken(draw), true, false)
  }

  /** ScreenshotOptions.ToVarDict: exactly handle_token, modal and interactive. */
  function ScreenshotDict(o: ScreenshotOptions): (d: VarDict)
    ensures d.Keys == {"handle_token", "modal", "interactive"}
    ensures d["handle_token"] == Str(o.handleToken)
    ensures d["modal"] == Bool(o.isDialogModal) && d["interactive"] == Bool(o.isDialogInteractive)
  {
    map["handle_token" := Str(o.handleToken), "modal" := Bool(o.isDialogModal),
        "interactive" := Bool(o.isDialogInteractive)]
  }

  /** OpenUriOptions of the OpenURI portal; the property is spelled Writeable. */
  datatype OpenUriOptions = OpenUriOptions(writeable: bool, ask: bool, handleToken: string)

  /** A new OpenUriOptions: a fresh token, neither writable nor asking. */
  function NewOpenUriOptions(draw: nat): (o: OpenUriOptions)
    requires draw < DBusHelper.RandomNextBound
    ensures o.handleToken == DBusHelper.CreateHandleToken(draw) && !o.writeable && !o.ask
  {
    OpenUriOptions(false, false, DBusHelper.CreateHandleToken(draw))
  }

  /** OpenUriOptions.ToVarDict: exactly writable, ask and handle_token; the
      key is "writable" although the property is Writeable. */
  function OpenUriDict(o: OpenUriOptions): (d: VarDict)
    ensures d.Keys == {"writable", "ask", "handle_token"}
    ensures d["writable"] == Bool(o.writeable) && d["ask"] == Bool(o.ask)
    ensures d["handle_token"] == Str(o.handleToken)
  {
    map["writable" := Bool(o.writeable), "ask" := Bool(o.ask), "handle_token" := Str(o.handleToken)]
  }

  datatype OpenFileInDirectoryOptions = OpenFileInDirectoryOptions(handleToken: string)

  /** OpenFileInDirectoryOptions.ToVarDict, in both generations: exactly
      handle_token, holding the instance's token. */
  function OpenFileInDirectoryDict(o: OpenFileInDirectoryOptions): (d: VarDict)
    ensures d.Keys == {"handle_token"} && d["handle_token"] == Str(o.handleToken)
  {
    map["handle_token" := Str(o.handleToken)]
  }

  /** The older OpenUriPortal.OpenFileOptions. */
  datatype OpenFileOptions = OpenFileOptions(writeable: bool, ask: bool, handleToken: string)

  /** A new OpenUriPortal.OpenFileOptions: a fresh token, both flags false. */
  function NewOpenFileOptions(draw: nat): (o: OpenFileOptions)
    requires draw < DBusHelper.RandomNextBound
    ensures o.handleToken == DBusHelper.CreateHandleToken(draw) && !o.writeable && !o.ask
  {
    OpenFileOptions(false, false, DBusHelper.CreateHandleToken(draw))
  }

  /** OpenUriPortal.OpenFileOptions.ToVarDict: writable, ask, handle_token. */
  function OpenFileDict(o: OpenFileOptions): VarDict
  {
    map["writable" := Bool(o.writeable), "ask" := Bool(o.ask), "handle_token" := Str(o.handleToken)]
  }

  /** The oldest OpenUriOptions, which has no handle token. */
  datatype LegacyOpenUriOptions = LegacyOpenUriOptions(writeable: bool, ask: bool)

  /** OpenUriOptions.Default: both flags false. */
  const LegacyDefault: LegacyOpenUriOptions := LegacyOpenUriOptions(false, false)

  /** The oldest OpenUriOptions.ToVarDict: exactly writable and ask. */
  function LegacyOpenUriDict(o: LegacyOpenUriOptions): (d: VarDict)
    ensures d.Keys == {"writable", "ask"} && "handle_token" !in d
    ensures d["writable"] == Bool(o.writeable) && d["ask"] == Bool(o.ask)
  {
    map["writable" := Bool(o.writeable), "ask" := Bool(o.ask)]
  }

  /** The older OpenFileOptions sends the same dictionary as the newer
      OpenUriOptions with the same flags and token, and the oldest
      OpenUriOptions sends that dictionary without its handle_token. */
  lemma OpenUriGenerationsAgree(writeable: bool, ask: bool, token: string)
    ensures OpenFileDict(OpenFileOptions(writeable, ask, token)) == OpenUriDict(OpenUriOptions(writeable, ask, token))
    ensures LegacyOpenUriDict(LegacyOpenUriOptions(writeable, ask)) ==
      OpenUriDict(OpenUriOptions(writeable, ask, token)) - {"handle_token"}
  {
    var d := OpenUriDict(OpenUriOptions(writeable, ask, token)) - {"handle_token"};
    assert d.Keys == {"writable", "ask"};
  }

  /** Default.ToVarDict() is {writable: false, ask: false}. */
  lemma LegacyDefaultDict()
    ensures LegacyOpenUriDict(LegacyDefault) == map["writable" := Bool(false), "ask" := Bool(false)]
  {
  }

  /** Every freshly made options record sends the token of its own draw, so
      options made from different draws send different tokens. */
  lemma NewOptionsTokens(a: nat, b: nat)
    requires a < DBusHelper.RandomNextBound && b < DBusHelper.RandomNextBound && a != b
    ensures ScreenshotDict(NewScreenshotOptions(a))["handle_token"] == Str(DBusHelper.CreateHandleToken(a))
    ensures ScreenshotDict(NewScreenshotOptions(a))["handle_token"] != ScreenshotDict(NewScreenshotOptions(b))["handle_token"]
    ensures OpenUriDict(NewOpenUriOptions(a))["handle_token"] != OpenUriDict(NewOpenUriOptions(b))["handle_token"]
    ensures OpenFileDict(NewOpenFileOptions(a))["handle_token"] != OpenFileDict(NewOpenFileOptions(b))["handle_token"]
  {
    DBusHelper.HandleTokenInjective(a, b);
  }
}
