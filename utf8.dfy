/** The UTF-8 form of a path with a terminating nul byte, as the FileChooser
    portal's byte-string options (current_folder, current_file) carry it. */
module Utf8 {
  import opened Wrappers
  import opened Variants

  /** The one to four bytes of one Unicode scalar value. */
  function EncodeChar(c: char): (b: seq<uint8>)
    ensures 1 <= |b| <= 4
    ensures b[0] == 0 <==> c == '\0'
    ensures forall k :: 1 <= k < |b| ==> 0x80 <= b[k] < 0xC0
  {
    var n := c as int;
    if n < 0x80 then [n]
    else if n < 0x800 then [0xC0 + n / 0x40, 0x80 + n % 0x40]
    else if n < 0x1_0000 then [0xE0 + n / 0x1000, 0x80 + (n / 0x40) % 0x40, 0x80 + n % 0x40]
    else [0xF0 + n / 0x4_0000, 0x80 + (n / 0x1000) % 0x40, 0x80 + (n / 0x40) % 0x40, 0x80 + n % 0x40]
  }

  /** Encoding.UTF8.GetBytes. */
  function Encode(s: string): seq<uint8>
  {
    if s == [] then [] else EncodeChar(s[0]) + Encode(s[1..])
  }

  /** ToByteArray(Encoding.UTF8, nullTerminated: true). */
  function NulTerminated(s: string): (b: seq<uint8>)
    ensures |b| >= 1 && b[|b| - 1] == 0
  {
    Encode(s) + [0]
  }

  /** The length of the sequence a leading byte announces, 0 for a byte that
      cannot start one. */
  function SequenceLength(b0: uint8): nat
  {
    if b0 < 0x80 then 1
    else if 0xC0 <= b0 < 0xE0 then 2
    else if 0xE0 <= b0 < 0xF0 then 3
    else if 0xF0 <= b0 < 0xF8 then 4
    else 0
  }

  predicate IsContinuation(b: uint8)
  {
    0x80 <= b < 0xC0
  }

  /** The scalar value a whole sequence stands for, when it is one. */
  function DecodeScalar(b: seq<uint8>): Option<char>
  {
    var n: int :=
      if |b| == 1 then b[0]
      else if |b| == 2 then (b[0] as int - 0xC0) * 0x40 + (b[1] as int - 0x80)
      else if |b| == 3 then (b[0] as int - 0xE0) * 0x1000 + (b[1] as int - 0x80) * 0x40 + (b[2] as int - 0x80)
      else if |b| == 4 then (b[0] as int - 0xF0) * 0x4_0000 + (b[1] as int - 0x80) * 0x1000 + (b[2] as int - 0x80) * 0x40 + (b[3] as int - 0x80)
      else -1;
    if 1 <= |b| <= 4 && (forall k :: 1 <= k < |b| ==> IsContinuation(b[k])) &&
       (0 <= n < 0xD800 || 0xE000 <= n < 0x11_0000)
    then Some(n as char)
    else None
  }

  /** Reads the bytes back into text; None for bytes that are not UTF-8 of
      this form. */
  function Decode(b: seq<uint8>): Option<string>
    decreases |b|
  {
    if b == [] then Some([])
    else
      var len := SequenceLength(b[0]);
      if len == 0 || len > |b| then None
      else
        match DecodeScalar(b[..len])
        case None => None
        case Some(c) =>
          match Decode(b[len..])
          case None => None
          case Some(rest) => Some([c] + rest)
  }

  lemma DecodeEncodeTwo(c: char)
    requires 0x80 <= c as int < 0x800
    ensures SequenceLength(EncodeChar(c)[0]) == 2 == |EncodeChar(c)|
    ensures DecodeScalar(EncodeChar(c)) == Some(c)
  {
    var n := c as int;
    var e := EncodeChar(c);
    assert n == (n / 0x40) * 0x40 + n % 0x40;
    assert (e[0] as int - 0xC0) * 0x40 + (e[1] as int - 0x80) == n;
  }

  lemma DecodeEncodeThree(c: char)
    requires 0x800 <= c as int < 0x1_0000
    ensures SequenceLength(EncodeChar(c)[0]) == 3 == |EncodeChar(c)|
    ensures DecodeScalar(EncodeChar(c)) == Some(c)
  {
    var n := c as int;
    var e := EncodeChar(c);
    assert n / 0x40 == (n / 0x1000) * 0x40 + (n / 0x40) % 0x40;
    assert n == (n / 0x40) * 0x40 + n % 0x40;
    assert (e[0] as int - 0xE0) * 0x1000 + (e[1] as int - 0x80) * 0x40 + (e[2] as int - 0x80) == n;
  }

  lemma DecodeEncodeFour(c: char)
    requires 0x1_0000 <= c as int
    ensures SequenceLength(EncodeChar(c)[0]) == 4 == |EncodeChar(c)|
    ensures DecodeScalar(EncodeChar(c)) == Some(c)
  {
    var n := c as int;
    var e := EncodeChar(c);
    assert n / 0x1000 == (n / 0x4_0000) * 0x40 + (n / 0x1000) % 0x40;
    assert n / 0x40 == (n / 0x1000) * 0x40 + (n / 0x40) % 0x40;
    assert n == (n / 0x40) * 0x40 + n % 0x40;
    assert (e[0] as int - 0xF0) * 0x4_0000 + (e[1] as int - 0x80) * 0x1000 + (e[2] as int - 0x80) * 0x40 + (e[3] as int - 0x80) == n;
  }

  /** One scalar value reads back from its own bytes, and its leading byte
      announces exactly their number. */
  lemma DecodeEncodeChar(c: char)
    ensures SequenceLength(EncodeChar(c)[0]) == |EncodeChar(c)|
    ensures DecodeScalar(EncodeChar(c)) == Some(c)
  {
    var n := c as int;
    if n < 0x80 {
    } else if n < 0x800 {
      DecodeEncodeTwo(c);
    } else if n < 0x1_0000 {
      DecodeEncodeThree(c);
    } else {
      DecodeEncodeFour(c);
    }
  }

  /** Decoding undoes the encoding: the portal reads back the same path. */
  lemma {:induction false} DecodeEncode(s: string)
    ensures Decode(Encode(s)) == Some(s)
  {
    if s != [] {
      DecodeEncode(s[1..]);
      var e := EncodeChar(s[0]);
      var b := Encode(s);
      DecodeEncodeChar(s[0]);
      assert b[..|e|] == e;
      assert b[|e|..] == Encode(s[1..]);
      assert [s[0]] + s[1..] == s;
    }
  }

  /** A nul byte appears in the encoding exactly where the text has '\0'. */
  lemma {:induction false} EncodeHasNulIff(s: string)
    ensures 0 in Encode(s) <==> '\0' in s
  {
    if s != [] {
      EncodeHasNulIff(s[1..]);
      var e := EncodeChar(s[0]);
      assert Encode(s) == e + Encode(s[1..]);
      assert 0 in e <==> s[0] == '\0' by {
        assert forall k :: 0 <= k < |e| ==> (e[k] == 0 <==> k == 0 && s[0] == '\0');
      }
      assert s == [s[0]] + s[1..];
    }
  }

  /** The terminator is the first nul byte exactly when the path holds no
      '\0', so the portal reads the whole path. */
  lemma NulTerminatedEndsAtPath(s: string)
    ensures var b := NulTerminated(s);
      ('\0' !in s <==> forall k :: 0 <= k < |b| - 1 ==> b[k] != 0)
  {
    EncodeHasNulIff(s);
    var b := NulTerminated(s);
    assert b[..|b| - 1] == Encode(s);
  }
}
