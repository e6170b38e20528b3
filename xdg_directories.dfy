/** XDGHomeDirectory, XDGOrderedBaseDirectories and XDGRuntimeDirectory:
    the resolvers of the "Environment variables" section of the XDG Base
    Directory Specification, version 0.8, over an environment provider. */
module XdgDirectories {
  import opened Wrappers
  import opened Errors
  import Text

  /** IEnvironmentVariableProvider.Get: a value, or None for null. */
  type Provider = string -> Option<string>

  /** EnvironmentVariableProvider over the process environment env: a
      variable that is unset, empty or only white space reads as null. */
  function EnvironmentProvider(env: map<string, string>): Provider
  {
    name => if name in env && !Text.IsBlank(env[name]) then Some(env[name]) else None
  }

  /** The environment provider never hands out an empty or blank value, and
      hands out a set, non-blank value verbatim. */
  lemma EnvironmentProviderSpec(env: map<string, string>, name: string)
    ensures EnvironmentProvider(env)(name).Some? ==> Text.HasText(EnvironmentProvider(env)(name))
    ensures EnvironmentProvider(env)(name).Some? <==> name in env && !Text.IsBlank(env[name])
    ensures EnvironmentProvider(env)(name).Some? ==> EnvironmentProvider(env)(name).value == env[name]
  {
    if name in env && !Text.IsBlank(env[name]) {
      assert env[name] != "";
    }
  }

  /** Path.IsPathRooted on Unix. */
  predicate IsRooted(p: string)
  {
    p != [] && p[0] == '/'
  }

  /** Path.Combine(path1, path2) on Unix: a rooted second path wins, an empty
      path gives the other, and one '/' is put between unless path1 ends
      with one. */
  function PathCombine(path1: string, path2: string): string
  {
    if IsRooted(path2) || path1 == [] then path2
    else if path2 == [] then path1
    else if path1[|path1| - 1] == '/' then path1 + path2
    else path1 + "/" + path2
  }

  /** Combining a directory with a relative path keeps the directory in
      front, the relative path at the end and one separator before it. */
  lemma PathCombineRelative(path1: string, path2: string)
    requires path1 != [] && path2 != [] && !IsRooted(path2)
    ensures var r := PathCombine(path1, path2);
      && |r| > |path2|
      && r[..|path1|] == path1
      && r[|r| - |path2|..] == path2
      && r[|r| - |path2| - 1] == '/'
      && |r| <= |path1| + 1 + |path2|
  {
    var r := PathCombine(path1, path2);
    if path1[|path1| - 1] == '/' {
      assert r == path1 + path2;
    } else {
      assert r == path1 + "/" + path2;
      assert r[|r| - |path2|..] == path2;
    }
  }

  /** An XDGHomeDirectory: a variable and the fallback under $HOME. */
  datatype XDGHomeDirectory = XDGHomeDirectory(environmentVariableName: string, defaultPath: string)

  /** XDGHomeDirectory.ResolvePath. */
  function ResolvePath(dir: XDGHomeDirectory, provider: Provider): Result<string, Error>
  {
    var environmentVariableValue := provider(dir.environmentVariableName);
    if Text.HasText(environmentVariableValue) then Success(environmentVariableValue.value)
    else
      var home := provider("HOME");
      if !Text.HasText(home) then Failure(PlatformNotSupported(dir.environmentVariableName))
      else Success(PathCombine(home.value, dir.defaultPath))
  }

  /** ResolvePath: a non-empty value of the variable is returned verbatim;
      otherwise $HOME combined with the default, and without a non-empty
      $HOME the platform is not supported. A result is never empty. */
  lemma ResolvePathSpec(dir: XDGHomeDirectory, provider: Provider)
    ensures var v := provider(dir.environmentVariableName);
      Text.HasText(v) ==> ResolvePath(dir, provider) == Success(v.value)
    ensures var v := provider(dir.environmentVariableName); var home := provider("HOME");
      !Text.HasText(v) && !Text.HasText(home) ==>
        ResolvePath(dir, provider) == Failure(PlatformNotSupported(dir.environmentVariableName))
    ensures var v := provider(dir.environmentVariableName); var home := provider("HOME");
      !Text.HasText(v) && Text.HasText(home) ==>
        ResolvePath(dir, provider) == Success(PathCombine(home.value, dir.defaultPath))
    ensures ResolvePath(dir, provider).Success? ==> ResolvePath(dir, provider).value != ""
    ensures ResolvePath(dir, provider).Failure? ==> ResolvePath(dir, provider).error.PlatformNotSupported?
  {
  }

  /** $HOME is consulted only when the variable is unset or empty: two
      providers that agree on a non-empty variable resolve alike. */
  lemma ResolvePathIgnoresHome(dir: XDGHomeDirectory, p: Provider, q: Provider)
    requires p(dir.environmentVariableName) == q(dir.environmentVariableName)
    requires Text.HasText(p(dir.environmentVariableName))
    ensures ResolvePath(dir, p) == ResolvePath(dir, q)
  {
  }

  /** With the variable unset, a relative default lands under $HOME. */
  lemma ResolvePathFallsBackUnderHome(dir: XDGHomeDirectory, provider: Provider)
    requires !Text.HasText(provider(dir.environmentVariableName)) && Text.HasText(provider("HOME"))
    requires dir.defaultPath != [] && !IsRooted(dir.defaultPath)
    ensures var home := provider("HOME").value; var r := ResolvePath(dir, provider);
      && r.Success?
      && r.value[..|home|] == home
      && r.value[|r.value| - |dir.defaultPath|..] == dir.defaultPath
  {
    PathCombineRelative(provider("HOME").value, dir.defaultPath);
  }

  /** An XDGOrderedBaseDirectories: a variable and the default list. */
  datatype XDGOrderedBaseDirectories = XDGOrderedBaseDirectories(environmentVariableName: string, defaultPaths: seq<string>)

  /** XDGOrderedBaseDirectories.ResolvesPaths. */
  function ResolvesPaths(dirs: XDGOrderedBaseDirectories, provider: Provider): seq<string>
  {
    var value := provider(dirs.environmentVariableName);
    if !Text.HasText(value) then dirs.defaultPaths
    else Text.SplitTrimRemoveEmpty(value.value, ':')
  }

  /** ResolvesPaths: an unset or empty variable gives exactly the defaults;
      otherwise the ':'-separated entries, each trimmed, blank ones
      dropped, left to right, none empty, padded or holding a ':'. */
  lemma ResolvesPathsSpec(dirs: XDGOrderedBaseDirectories, provider: Provider)
    ensures !Text.HasText(provider(dirs.environmentVariableName)) ==> ResolvesPaths(dirs, provider) == dirs.defaultPaths
    ensures Text.HasText(provider(dirs.environmentVariableName)) ==>
      var value := provider(dirs.environmentVariableName).value;
      var r := ResolvesPaths(dirs, provider);
      && Text.IsTrimmedSubsequence(r, Text.Split(value, ':'))
      && forall k :: 0 <= k < |r| ==>
           && r[k] != [] && !Text.IsWhiteSpace(r[k][0]) && !Text.IsWhiteSpace(r[k][|r[k]| - 1])
           && ':' !in r[k]
  {
    var value := provider(dirs.environmentVariableName);
    if Text.HasText(value) {
      Text.TrimAndDropEmptyKeepsOrder(Text.Split(value.value, ':'));
      Text.SplitEntriesHaveNoSeparator(value.value, ':');
    }
  }

  /** Every piece of a split is made of characters of the split string. */
  lemma {:induction false} SplitPiecesFromString(s: string, sep: char)
    ensures forall k, c :: 0 <= k < |Text.Split(s, sep)| && c in Text.Split(s, sep)[k] ==> c in s
    decreases |s|
  {
    if s != [] {
      SplitPiecesFromString(s[1..], sep);
      var rest := Text.Split(s[1..], sep);
      var r := Text.Split(s, sep);
      assert forall c :: c in s[1..] ==> c in s;
      if s[0] == sep {
        assert forall k :: 1 <= k < |r| ==> r[k] == rest[k - 1];
      } else {
        assert forall k :: 1 <= k < |r| ==> r[k] == rest[k];
        assert forall c :: c in r[0] ==> c == s[0] || c in rest[0];
      }
    }
  }

  /** Only blank pieces leave nothing behind. */
  lemma {:induction false} AllBlankPiecesDropped(pieces: seq<string>)
    requires forall k :: 0 <= k < |pieces| ==> Text.IsBlank(pieces[k])
    ensures Text.TrimAndDropEmpty(pieces) == []
    decreases |pieces|
  {
    if pieces != [] {
      Text.TrimProperties(pieces[0]);
      AllBlankPiecesDropped(pieces[1..]);
    }
  }

  /** Splitting text made only of separators and white space gives only
      blank pieces. */
  lemma SeparatorsSplitIntoBlanks(value: string)
    requires forall i :: 0 <= i < |value| ==> value[i] == ':' || Text.IsWhiteSpace(value[i])
    ensures forall k :: 0 <= k < |Text.Split(value, ':')| ==> Text.IsBlank(Text.Split(value, ':')[k])
  {
    var pieces := Text.Split(value, ':');
    SplitPiecesFromString(value, ':');
    forall k, i | 0 <= k < |pieces| && 0 <= i < |pieces[k]| ensures Text.IsWhiteSpace(pieces[k][i]) {
      var c := pieces[k][i];
      assert c in pieces[k] && c != ':';
      assert c in value;
    }
  }

  /** A set value made only of separators and white space, ":" for one,
      gives no entries at all rather than the defaults. */
  lemma SeparatorsOnlyGiveNoEntries(dirs: XDGOrderedBaseDirectories, provider: Provider)
    requires Text.HasText(provider(dirs.environmentVariableName))
    requires var value := provider(dirs.environmentVariableName).value;
      forall i :: 0 <= i < |value| ==> value[i] == ':' || Text.IsWhiteSpace(value[i])
    ensures ResolvesPaths(dirs, provider) == []
  {
    var value := provider(dirs.environmentVariableName).value;
    SeparatorsSplitIntoBlanks(value);
    AllBlankPiecesDropped(Text.Split(value, ':'));
  }

  /** The variable XDGRuntimeDirectory reads. */
  const RuntimeVariable: string := "XDG_RUNTIME_DIR"

  /** XDGRuntimeDirectory.ResolvePath: the non-empty value of
      XDG_RUNTIME_DIR, else null; there is no fallback path. */
  function ResolveRuntimePath(provider: Provider): (r: Option<string>)
    ensures r.Some? <==> Text.HasText(provider(RuntimeVariable))
    ensures r.Some? ==> r == provider(RuntimeVariable) && r.value != ""
  {
    var value := provider(RuntimeVariable);
    if !Text.HasText(value) then None else value
  }

  /** Only XDG_RUNTIME_DIR is read: two providers that agree on it agree on
      the runtime directory, whatever else, $HOME included, they hold. */
  lemma RuntimePathReadsOnlyItsVariable(p: Provider, q: Provider)
    requires p(RuntimeVariable) == q(RuntimeVariable)
    ensures ResolveRuntimePath(p) == ResolveRuntimePath(q)
  {
  }
}
