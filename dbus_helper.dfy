/** Utils/DBusHelper: the portal's bus name and root object path, handle
    tokens, and the sender-name form of a connection's unique name. */
module DBusHelper {
  import Text

  const BusName: string := "org.freedesktop.portal.Desktop"
  const ObjectPath: string := "/org/freedesktop/portal/desktop"

  /** The handle token prefix. */
  const HandleTokenPrefix: string := "LinuxDesktopUtils_"

  /** Random.Shared.Next() draws from [0, int.MaxValue). */
  const RandomNextBound: nat := 0x7FFF_FFFF

  /** CreateHandleToken with the random draw given as a parameter. */
  function CreateHandleToken(draw: nat): (token: string)
    requires draw < RandomNextBound
    ensures |token| > |HandleTokenPrefix| && token[..|HandleTokenPrefix|] == HandleTokenPrefix
    ensures forall i :: |HandleTokenPrefix| <= i < |token| ==> '0' <= token[i] <= '9'
  {
    HandleTokenPrefix + Text.NatToDecimal(draw)
  }

  /** A character allowed in an element of a D-Bus object path. */
  predicate IsPathElementChar(c: char)
  {
    ('A' <= c <= 'Z') || ('a' <= c <= 'z') || ('0' <= c <= '9') || c == '_'
  }

  /** A handle token is a valid object path element (it becomes the last
      element of the request path) and different draws give different tokens. */
  lemma {:induction false} HandleTokenIsPathElement(draw: nat)
    requires draw < RandomNextBound
    ensures var t := CreateHandleToken(draw); t != [] && forall i :: 0 <= i < |t| ==> IsPathElementChar(t[i])
  {
    var t := CreateHandleToken(draw);
    forall i | 0 <= i < |t| ensures IsPathElementChar(t[i]) {
      if i < |HandleTokenPrefix| {
        assert t[i] == HandleTokenPrefix[i];
      }
    }
  }

  lemma {:induction false} HandleTokenInjective(a: nat, b: nat)
    requires a < RandomNextBound && b < RandomNextBound
    ensures CreateHandleToken(a) == CreateHandleToken(b) ==> a == b
  {
    if CreateHandleToken(a) == CreateHandleToken(b) {
      var n := |HandleTokenPrefix|;
      assert Text.NatToDecimal(a) == CreateHandleToken(a)[n..];
      assert Text.NatToDecimal(b) == CreateHandleToken(b)[n..];
      Text.DecimalInjective(a, b);
    }
  }

  /** The unique name without its leading ':' (only for names longer than two characters). */
  function StripColon(uniqueName: string): string
  {
    if |uniqueName| > 2 && uniqueName[0] == ':' then uniqueName[1..] else uniqueName
  }

  function ReplaceDot(c: char): char
  {
    if c == '.' then '_' else c
  }

  /** The sender name the portal puts into request object paths. */
  function SenderName(uniqueName: string): string
  {
    var name := StripColon(uniqueName);
    seq(|name|, i requires 0 <= i < |name| => ReplaceDot(name[i]))
  }

  /** UniqueNameToSenderName: rebinds the name past a leading ':' and copies it
      into a buffer of the same length with every '.' replaced by '_'. */
  method UniqueNameToSenderName(uniqueName: string) returns (senderName: string)
    ensures senderName == SenderName(uniqueName)
  {
    var name := uniqueName;
    if |name| > 2 && name[0] == ':' {
      name := name[1..];
    }
    var dest := new char[|name|];
    var i := 0;
    while i < |name|
      invariant 0 <= i <= |name|
      invariant forall k :: 0 <= k < i ==> dest[k] == ReplaceDot(name[k])
    {
      dest[i] := if name[i] == '.' then '_' else name[i];
      i := i + 1;
    }
    senderName := dest[..];
  }

  /** Measured against the unique name itself: the sender name is one
      character shorter exactly when the name is longer than two characters
      and starts with ':'; past that, position i holds the name's character
      at i + 1 (or i), a '_' stands exactly where the name had '.' or '_',
      every other character is copied, and no '.' is left. */
  lemma SenderNameShape(uniqueName: string)
    ensures var drop := if |uniqueName| > 2 && uniqueName[0] == ':' then 1 else 0;
      && |SenderName(uniqueName)| == |uniqueName| - drop
      && forall i :: 0 <= i < |SenderName(uniqueName)| ==>
           && (SenderName(uniqueName)[i] == '_' <==> uniqueName[i + drop] == '.' || uniqueName[i + drop] == '_')
           && (uniqueName[i + drop] != '.' ==> SenderName(uniqueName)[i] == uniqueName[i + drop])
    ensures '.' !in SenderName(uniqueName)
  {
  }

  /** Characters other than '.', '_' and ':' occur in the sender name exactly
      when they occur in the unique name; so a name without '/' gives a sender
      name without '/'. */
  lemma SenderNameKeepsOtherCharacters(uniqueName: string, c: char)
    requires c != '.' && c != '_' && c != ':'
    ensures c in SenderName(uniqueName) <==> c in uniqueName
  {
    var name := StripColon(uniqueName);
    var s := SenderName(uniqueName);
    if c in uniqueName {
      var k :| 0 <= k < |uniqueName| && uniqueName[k] == c;
      if name != uniqueName {
        assert name[k - 1] == c;
        assert s[k - 1] == c;
      } else {
        assert s[k] == c;
      }
    }
    if c in s {
      var k :| 0 <= k < |s| && s[k] == c;
      assert name[k] == c;
      if name != uniqueName {
        assert uniqueName[k + 1] == c;
      }
    }
  }

  /** A bus-assigned unique name loses its ':' and its dots; a two-character
      name keeps its ':' because the length guard is strict. */
  lemma SenderNameExample()
    ensures SenderName(":1.234") == "1_234"
    ensures SenderName(":a") == ":a"
  {
    assert StripColon(":1.234") == "1.234";
    assert SenderName(":1.234") == ['1', '_', '2', '3', '4'];
  }
}
