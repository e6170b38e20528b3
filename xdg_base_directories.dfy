/** The static XDGBaseDirectories table of LinuxDesktopUtils and its twin,
    BaseDirectories of LinuxDesktopUtils.XDGBaseDirectories: which variable
    each base directory reads and the default it falls back to. */
module XdgBaseDirectories {
  import opened Wrappers
  import Text
  import opened XdgDirectories

  datatype BaseDirectoryTable = BaseDirectoryTable(
    dataHome: XDGHomeDirectory,
    configHome: XDGHomeDirectory,
    stateHome: XDGHomeDirectory,
    dataDirs: XDGOrderedBaseDirectories,
    configDirs: XDGOrderedBaseDirectories,
    cacheHome: XDGHomeDirectory)

  /** The version of the XDG Base Directory Specification both tables follow. */
  const SpecificationVersion: string := "0.8"

  /** XDGBaseDirectories of LinuxDesktopUtils, as written: CacheHome reads
      XDG_STATE_HOME. */
  const LibraryTable: BaseDirectoryTable := BaseDirectoryTable(
    XDGHomeDirectory("XDG_DATA_HOME", ".local/share"),
    XDGHomeDirectory("XDG_CONFIG_HOME", ".config"),
    XDGHomeDirectory("XDG_STATE_HOME", ".local/state"),
    XDGOrderedBaseDirectories("XDG_DATA_DIRS", ["/usr/local/share", "/usr/share"]),
    XDGOrderedBaseDirectories("XDG_CONFIG_DIRS", ["/etc/xdg"]),
    XDGHomeDirectory("XDG_STATE_HOME", ".cache"))

  /** BaseDirectories of LinuxDesktopUtils.XDGBaseDirectories, as written. */
  const PackageTable: BaseDirectoryTable := BaseDirectoryTable(
    XDGHomeDirectory("XDG_DATA_HOME", ".local/share"),
    XDGHomeDirectory("XDG_CONFIG_HOME", ".config"),
    XDGHomeDirectory("XDG_STATE_HOME", ".local/state"),
    XDGOrderedBaseDirectories("XDG_DATA_DIRS", ["/usr/local/share", "/usr/share"]),
    XDGOrderedBaseDirectories("XDG_CONFIG_DIRS", ["/etc/xdg"]),
    XDGHomeDirectory("XDG_STATE_HOME", ".cache"))

  /** CacheHome as its documentation and the specification describe it. */
  const IntendedCacheHome: XDGHomeDirectory := XDGHomeDirectory("XDG_CACHE_HOME", ".cache")

  /** The table with CacheHome reading XDG_CACHE_HOME; every other entry
      is the one written. */
  function IntendedTable(t: BaseDirectoryTable): BaseDirectoryTable
  {
    t.(cacheHome := IntendedCacheHome)
  }

  /** The four home directories of a table, in declaration order. */
  function HomeEntries(t: BaseDirectoryTable): seq<XDGHomeDirectory>
  {
    [t.dataHome, t.configHome, t.stateHome, t.cacheHome]
  }

  /** Every home directory reads a variable no other one reads. */
  predicate DistinctVariables(t: BaseDirectoryTable)
  {
    forall i, j :: 0 <= i < j < |HomeEntries(t)| ==>
      HomeEntries(t)[i].environmentVariableName != HomeEntries(t)[j].environmentVariableName
  }

  /** The two tables are the same table, and both follow section
      "Environment variables" of the specification for every entry but
      CacheHome: each variable with its default. */
  lemma TablesAgree()
    ensures LibraryTable == PackageTable
    ensures var t := IntendedTable(LibraryTable);
      && t.dataHome == XDGHomeDirectory("XDG_DATA_HOME", ".local/share")
      && t.configHome == XDGHomeDirectory("XDG_CONFIG_HOME", ".config")
      && t.stateHome == XDGHomeDirectory("XDG_STATE_HOME", ".local/state")
      && t.cacheHome == XDGHomeDirectory("XDG_CACHE_HOME", ".cache")
      && t.dataDirs == XDGOrderedBaseDirectories("XDG_DATA_DIRS", ["/usr/local/share", "/usr/share"])
      && t.configDirs == XDGOrderedBaseDirectories("XDG_CONFIG_DIRS", ["/etc/xdg"])
  {
  }

  /** As written, StateHome and CacheHome read the same variable, so
      whenever XDG_STATE_HOME is set the cache directory is the state
      directory; the corrected table gives every home its own variable. */
  lemma CacheHomeSharesStateVariable(provider: Provider)
    requires Text.HasText(provider("XDG_STATE_HOME"))
    ensures !DistinctVariables(LibraryTable) && !DistinctVariables(PackageTable)
    ensures ResolvePath(LibraryTable.cacheHome, provider) == ResolvePath(LibraryTable.stateHome, provider)
    ensures DistinctVariables(IntendedTable(LibraryTable))
  {
    assert HomeEntries(LibraryTable)[2].environmentVariableName == HomeEntries(LibraryTable)[3].environmentVariableName;
  }

  /** A concrete environment that shows it: with XDG_CACHE_HOME=/var/cache,
      XDG_STATE_HOME=/var/state and HOME=/home/u, CacheHome as written
      resolves to /var/state, where /var/cache is meant. */
  lemma CacheHomeCounterexample()
    ensures var env := map["XDG_CACHE_HOME" := "/var/cache", "XDG_STATE_HOME" := "/var/state", "HOME" := "/home/u"];
      && ResolvePath(LibraryTable.cacheHome, EnvironmentProvider(env)) == Success("/var/state")
      && ResolvePath(IntendedCacheHome, EnvironmentProvider(env)) == Success("/var/cache")
  {
    var env := map["XDG_CACHE_HOME" := "/var/cache", "XDG_STATE_HOME" := "/var/state", "HOME" := "/home/u"];
    assert !Text.IsBlank(env["XDG_STATE_HOME"]) by { assert !Text.IsWhiteSpace(env["XDG_STATE_HOME"][0]); }
    assert !Text.IsBlank(env["XDG_CACHE_HOME"]) by { assert !Text.IsWhiteSpace(env["XDG_CACHE_HOME"][0]); }
  }

  /** The corrected CacheHome: XDG_CACHE_HOME when it is set, else
      $HOME/.cache, and XDG_STATE_HOME plays no part. */
  lemma IntendedCacheHomeSpec(provider: Provider, other: Provider)
    requires forall name :: name != "XDG_STATE_HOME" ==> provider(name) == other(name)
    ensures Text.HasText(provider("XDG_CACHE_HOME")) ==>
      ResolvePath(IntendedCacheHome, provider) == Success(provider("XDG_CACHE_HOME").value)
    ensures !Text.HasText(provider("XDG_CACHE_HOME")) && Text.HasText(provider("HOME")) ==>
      ResolvePath(IntendedCacheHome, provider) == Success(PathCombine(provider("HOME").value, ".cache"))
    ensures ResolvePath(IntendedCacheHome, provider) == ResolvePath(IntendedCacheHome, other)
  {
    assert provider("XDG_CACHE_HOME") == other("XDG_CACHE_HOME");
    assert provider("HOME") == other("HOME");
  }

  /** With none of the variables set and a $HOME that does not end in '/',
      the home directories are the specification's defaults under $HOME and
      the lists are its default lists. This holds of the table as written
      too: with XDG_STATE_HOME unset, its CacheHome also falls back to
      $HOME/.cache. */
  lemma DefaultsUnderHome(provider: Provider)
    requires Text.HasText(provider("HOME")) && provider("HOME").value[|provider("HOME").value| - 1] != '/'
    requires !Text.HasText(provider("XDG_DATA_HOME")) && !Text.HasText(provider("XDG_CONFIG_HOME"))
    requires !Text.HasText(provider("XDG_STATE_HOME")) && !Text.HasText(provider("XDG_CACHE_HOME"))
    requires !Text.HasText(provider("XDG_DATA_DIRS")) && !Text.HasText(provider("XDG_CONFIG_DIRS"))
    ensures var home := provider("HOME").value;
      var t := IntendedTable(LibraryTable);
      && ResolvePath(t.dataHome, provider) == Success(home + "/.local/share")
      && ResolvePath(t.configHome, provider) == Success(home + "/.config")
      && ResolvePath(t.stateHome, provider) == Success(home + "/.local/state")
      && ResolvePath(t.cacheHome, provider) == Success(home + "/.cache")
      && ResolvesPaths(t.dataDirs, provider) == ["/usr/local/share", "/usr/share"]
      && ResolvesPaths(t.configDirs, provider) == ["/etc/xdg"]
    ensures var home := provider("HOME").value;
      && ResolvePath(LibraryTable.cacheHome, provider) == Success(home + "/.cache")
      && ResolvePath(PackageTable.cacheHome, provider) == Success(home + "/.cache")
  {
    var home := provider("HOME").value;
    assert home + "/" + ".local/share" == home + "/.local/share";
    assert home + "/" + ".config" == home + "/.config";
    assert home + "/" + ".local/state" == home + "/.local/state";
    assert home + "/" + ".cache" == home + "/.cache";
  }
}
