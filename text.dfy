/** String helpers the source takes from .NET: ordinal case-insensitive
    comparison, char.IsWhiteSpace, Trim, Split and invariant decimal
    formatting of integers. */
module Text {
  import Wrappers

  /** !string.IsNullOrEmpty: a string that is present and not empty. */
  predicate HasText(s: Wrappers.Option<string>)
  {
    s.Some? && s.value != ""
  }

  /** Upper-casing used by StringComparison.OrdinalIgnoreCase, restricted to
      ASCII letters (D-Bus object paths and the keys compared here are ASCII). */
  function UpperChar(c: char): (u: char)
    ensures 'a' <= c <= 'z' ==> u as int == c as int - 32
    ensures !('a' <= c <= 'z') ==> u == c
  {
    if 'a' <= c <= 'z' then (c as int - 32) as char else c
  }

  function Upper(s: string): (u: string)
    ensures |u| == |s|
    ensures forall i :: 0 <= i < |s| ==> u[i] == UpperChar(s[i])
  {
    seq(|s|, i requires 0 <= i < |s| => UpperChar(s[i]))
  }

  /** string.Equals(a, b, StringComparison.OrdinalIgnoreCase). */
  predicate EqualsIgnoreCase(a: string, b: string)
  {
    Upper(a) == Upper(b)
  }

  lemma EqualsIgnoreCaseIsEquivalence(a: string, b: string, c: string)
    ensures EqualsIgnoreCase(a, a)
    ensures EqualsIgnoreCase(a, b) ==> EqualsIgnoreCase(b, a)
    ensures EqualsIgnoreCase(a, b) && EqualsIgnoreCase(b, c) ==> EqualsIgnoreCase(a, c)
  {
  }

  /** Strings that differ only in the case of ASCII letters compare equal. */
  lemma {:induction false} EqualsIgnoreCaseExample()
    ensures EqualsIgnoreCase("/Request/A_1", "/request/a_1")
    ensures !EqualsIgnoreCase("/request/a_1", "/request/a_2")
  {
    assert Upper("/Request/A_1") == Upper("/request/a_1");
    assert Upper("/request/a_1")[11] != Upper("/request/a_2")[11];
  }

  /** char.IsWhiteSpace: the Unicode space, line and paragraph separators,
      U+0009..U+000D and U+0085. */
  predicate IsWhiteSpace(c: char)
  {
    || c == ' ' || ('\t' <= c <= '\r') || c == '\U{85}' || c == '\U{A0}'
    || c == '\U{1680}' || ('\U{2000}' <= c <= '\U{200A}') || c == '\U{2028}'
    || c == '\U{2029}' || c == '\U{202F}' || c == '\U{205F}' || c == '\U{3000}'
  }

  /** string.IsNullOrWhiteSpace for a string that is present. */
  predicate IsBlank(s: string)
  {
    forall i :: 0 <= i < |s| ==> IsWhiteSpace(s[i])
  }

  function TrimStart(s: string): (r: string)
    ensures |r| <= |s| && r == s[|s| - |r|..]
    ensures r == [] || !IsWhiteSpace(r[0])
    ensures forall i :: 0 <= i < |s| - |r| ==> IsWhiteSpace(s[i])
  {
    if s != [] && IsWhiteSpace(s[0]) then TrimStart(s[1..]) else s
  }

  function TrimEnd(s: string): (r: string)
    ensures |r| <= |s| && r == s[..|r|]
    ensures r == [] || !IsWhiteSpace(r[|r| - 1])
    ensures forall i :: |r| <= i < |s| ==> IsWhiteSpace(s[i])
  {
    if s != [] && IsWhiteSpace(s[|s| - 1]) then TrimEnd(s[..|s| - 1]) else s
  }

  /** string.Trim(): removes leading and trailing white space. */
  function Trim(s: string): (r: string)
  {
    TrimEnd(TrimStart(s))
  }

  lemma TrimProperties(s: string)
    ensures Trim(s) == [] || (!IsWhiteSpace(Trim(s)[0]) && !IsWhiteSpace(Trim(s)[|Trim(s)| - 1]))
    ensures Trim(s) == [] <==> IsBlank(s)
  {
    var t := TrimStart(s);
    var r := TrimEnd(t);
    if r != [] {
      assert r[0] == t[0];
    }
  }

  /** string.Split(sep): the pieces between separators, empty pieces kept. */
  function Split(s: string, sep: char): (r: seq<string>)
    ensures |r| >= 1
    ensures forall k :: 0 <= k < |r| ==> sep !in r[k]
    decreases |s|
  {
    if s == [] then [[]]
    else
      var rest := Split(s[1..], sep);
      if s[0] == sep then [[]] + rest
      else [[s[0]] + rest[0]] + rest[1..]
  }

  /** The inverse of Split: the pieces glued back with the separator. */
  function Join(pieces: seq<string>, sep: char): string
  {
    if pieces == [] then []
    else if |pieces| == 1 then pieces[0]
    else pieces[0] + [sep] + Join(pieces[1..], sep)
  }

  lemma {:induction false} JoinSplit(s: string, sep: char)
    ensures Join(Split(s, sep), sep) == s
    decreases |s|
  {
    if s != [] {
      JoinSplit(s[1..], sep);
      var rest := Split(s[1..], sep);
      if s[0] == sep {
        assert Split(s, sep)[1..] == rest;
      } else {
        var r := Split(s, sep);
        assert r[0] == [s[0]] + rest[0];
        if |rest| == 1 {
          assert |r| == 1;
        } else {
          assert r[1..] == rest[1..];
        }
      }
    }
  }

  /** Split(sep, StringSplitOptions.TrimEntries | RemoveEmptyEntries):
      each piece trimmed, empty results dropped, order kept. */
  function SplitTrimRemoveEmpty(s: string, sep: char): seq<string>
  {
    TrimAndDropEmpty(Split(s, sep))
  }

  function TrimAndDropEmpty(pieces: seq<string>): (r: seq<string>)
    ensures |r| <= |pieces|
    ensures forall k :: 0 <= k < |r| ==>
      r[k] != [] && !IsWhiteSpace(r[k][0]) && !IsWhiteSpace(r[k][|r[k]| - 1])
  {
    if pieces == [] then []
    else
      var t := Trim(pieces[0]);
      TrimProperties(pieces[0]);
      if t == [] then TrimAndDropEmpty(pieces[1..]) else [t] + TrimAndDropEmpty(pieces[1..])
  }

  /** The entries are the non-empty trimmed pieces, in the pieces' order. */
  ghost predicate IsTrimmedSubsequence(r: seq<string>, pieces: seq<string>)
    decreases |pieces|
  {
    if r == [] then forall k :: 0 <= k < |pieces| ==> Trim(pieces[k]) == []
    else
      (pieces != [] &&
       if Trim(pieces[0]) == [] then IsTrimmedSubsequence(r, pieces[1..])
       else r[0] == Trim(pieces[0]) && IsTrimmedSubsequence(r[1..], pieces[1..]))
  }

  lemma {:induction false} TrimAndDropEmptyKeepsOrder(pieces: seq<string>)
    ensures IsTrimmedSubsequence(TrimAndDropEmpty(pieces), pieces)
    decreases |pieces|
  {
    if pieces != [] {
      TrimAndDropEmptyKeepsOrder(pieces[1..]);
      var r := TrimAndDropEmpty(pieces);
      var rest := TrimAndDropEmpty(pieces[1..]);
      if Trim(pieces[0]) == [] {
        assert r == rest;
        if r == [] {
          forall k | 0 <= k < |pieces| ensures Trim(pieces[k]) == [] {
            if k > 0 { assert pieces[k] == pieces[1..][k - 1]; }
          }
        }
      } else {
        assert r == [Trim(pieces[0])] + rest;
        assert r[1..] == rest;
      }
    }
  }

  lemma TrimIdempotent(s: string)
    ensures Trim(Trim(s)) == Trim(s)
  {
    var r := Trim(s);
    TrimProperties(s);
    if r != [] {
      assert TrimStart(r) == r;
      assert TrimEnd(r) == r;
    }
  }

  lemma {:induction false} SplitEntriesHaveNoSeparator(s: string, sep: char)
    ensures forall k :: 0 <= k < |SplitTrimRemoveEmpty(s, sep)| ==> sep !in SplitTrimRemoveEmpty(s, sep)[k]
  {
    NoSepSurvivesTrim(Split(s, sep), sep);
  }

  lemma {:induction false} NoSepSurvivesTrim(pieces: seq<string>, sep: char)
    requires forall k :: 0 <= k < |pieces| ==> sep !in pieces[k]
    ensures forall k :: 0 <= k < |TrimAndDropEmpty(pieces)| ==> sep !in TrimAndDropEmpty(pieces)[k]
    decreases |pieces|
  {
    if pieces != [] {
      NoSepSurvivesTrim(pieces[1..], sep);
      var t := Trim(pieces[0]);
      var m := TrimStart(pieces[0]);
      assert forall c :: c in t ==> c in m;
      assert forall c :: c in m ==> c in pieces[0];
      var r := TrimAndDropEmpty(pieces);
      if t != [] {
        assert r[1..] == TrimAndDropEmpty(pieces[1..]);
      }
    }
  }

  /** The digit characters '0'..'9'. */
  function Digit(d: nat): (c: char)
    requires d < 10
    ensures '0' <= c <= '9'
  {
    ('0' as int + d) as char
  }

  /** int.ToString(CultureInfo.InvariantCulture) for a non-negative value. */
  function NatToDecimal(n: nat): (s: string)
    ensures |s| >= 1
    ensures forall i :: 0 <= i < |s| ==> '0' <= s[i] <= '9'
    decreases n
  {
    if n < 10 then [Digit(n)] else NatToDecimal(n / 10) + [Digit(n % 10)]
  }

  /** The inverse: reads a string of decimal digits. */
  function DecimalToNat(s: string): nat
    requires forall i :: 0 <= i < |s| ==> '0' <= s[i] <= '9'
  {
    if s == [] then 0 else 10 * DecimalToNat(s[..|s| - 1]) + (s[|s| - 1] as int - '0' as int)
  }

  lemma {:induction false} DecimalRoundTrip(n: nat)
    ensures DecimalToNat(NatToDecimal(n)) == n
    decreases n
  {
    if n >= 10 {
      DecimalRoundTrip(n / 10);
      var s := NatToDecimal(n);
      assert s[..|s| - 1] == NatToDecimal(n / 10);
    }
  }

  lemma DecimalInjective(a: nat, b: nat)
    ensures NatToDecimal(a) == NatToDecimal(b) ==> a == b
  {
    DecimalRoundTrip(a);
    DecimalRoundTrip(b);
  }
}
