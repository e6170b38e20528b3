/** PortalVersionException.ThrowIf: the version gate every portal method
    passes before calling a method that a newer portal version added. */
module PortalVersion {
  import opened Wrappers
  import opened Errors
  import Text

  /** The exception's message. */
  function Message(name: string, requiredVersion: nat, availableVersion: nat): string
  {
    "Unable to use `" + name + "` because it requires version " + Text.NatToDecimal(requiredVersion)
      + " but the installed portal only supports version " + Text.NatToDecimal(availableVersion)
  }

  /** The message of the exception an Error stands for (only PortalVersion has one here). */
  function ErrorMessage(e: Error): string
  {
    if e.PortalVersion? then Message(e.name, e.requiredVersion, e.availableVersion) else ""
  }

  /** ThrowIf(requiredVersion, availableVersion, methodName): returns when the
      installed portal is recent enough and throws PortalVersionException
      otherwise; a missing method name becomes the empty string. */
  function ThrowIf(requiredVersion: nat, availableVersion: nat, methodName: Option<string>): (r: Outcome<Error>)
    ensures r.Pass? <==> availableVersion >= requiredVersion
    ensures r.Fail? ==> IsPortalException(r.error)
    ensures r.Fail? ==> r.error.requiredVersion == requiredVersion && r.error.availableVersion == availableVersion
    ensures r.Fail? ==> r.error.name == (if methodName.Some? then methodName.value else "")
  {
    if availableVersion >= requiredVersion then Pass
    else Fail(PortalVersion(if methodName.Some? then methodName.value else "", requiredVersion, availableVersion))
  }

  /** A method available since version 0 is usable with every portal. */
  lemma VersionZeroNeverThrows(availableVersion: nat, methodName: Option<string>)
    ensures ThrowIf(0, availableVersion, methodName) == Pass
  {
  }

  /** The gate is monotone: a newer portal passes whatever an older one passes. */
  lemma ThrowIfMonotone(requiredVersion: nat, older: nat, newer: nat, methodName: Option<string>)
    requires older <= newer
    ensures ThrowIf(requiredVersion, older, methodName).Pass? ==> ThrowIf(requiredVersion, newer, methodName).Pass?
  {
  }

  /** The pieces of a three-part concatenation sit where they were put. */
  lemma ConcatPieces(a: string, b: string, c: string)
    ensures |a + b + c| == |a| + |b| + |c|
    ensures (a + b + c)[|a|..|a| + |b|] == b
    ensures (a + b + c)[|a| + |b|..] == c
  {
    assert (a + b + c)[|a|..] == b + c;
  }

  /** The message names the method right after the opening back-quote and
      ends with the available version. */
  lemma {:induction false} MessageNamesMethodAndVersions(name: string, requiredVersion: nat, availableVersion: nat)
    ensures var m := Message(name, requiredVersion, availableVersion);
      |m| > 15 + |name| && m[15..15 + |name|] == name && m[15 + |name|] == '`'
    ensures var m := Message(name, requiredVersion, availableVersion);
      var v := Text.NatToDecimal(availableVersion);
      |m| >= |v| && m[|m| - |v|..] == v
  {
    var m := Message(name, requiredVersion, availableVersion);
    var pre := "Unable to use `";
    var v := Text.NatToDecimal(availableVersion);
    var rest := "` because it requires version " + Text.NatToDecimal(requiredVersion)
      + " but the installed portal only supports version " + v;
    assert m == pre + name + rest;
    ConcatPieces(pre, name, rest);
    var front := "Unable to use `" + name + "` because it requires version " + Text.NatToDecimal(requiredVersion)
      + " but the installed portal only supports version ";
    assert m == front + v;
  }
}
