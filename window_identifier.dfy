/** WindowIdentifier: the parent-window handle a portal dialog is attached
    to, one of Empty, X11 and Wayland. */
module WindowIdentifiers {
  import opened Wrappers

  datatype WindowIdentifier = Empty | X11(value: string) | Wayland(value: string)
  {
    /** ToString dispatches on the wrapped variant. */
    function ToString(): string
    {
      match this
      case Empty => ""
      case X11(v) => "x11:" + v
      case Wayland(v) => "wayland:" + v
    }
  }

  /** The inverse of ToString, reading the prefix back. */
  function Parse(s: string): Option<WindowIdentifier>
  {
    if s == "" then Some(Empty)
    else if |s| >= 4 && s[..4] == "x11:" then Some(X11(s[4..]))
    else if |s| >= 8 && s[..8] == "wayland:" then Some(Wayland(s[8..]))
    else None
  }

  /** X11 renders as "x11:" + value, Wayland as "wayland:" + value and Empty as "". */
  lemma ToStringForms(v: string)
    ensures X11(v).ToString() == "x11:" + v && X11(v).ToString()[4..] == v
    ensures Wayland(v).ToString() == "wayland:" + v && Wayland(v).ToString()[8..] == v
    ensures Empty.ToString() == ""
  {
  }

  /** Stripping the prefix recovers the identifier. */
  lemma {:induction false} ParseToString(w: WindowIdentifier)
    ensures Parse(w.ToString()) == Some(w)
  {
    var s := w.ToString();
    match w
    case Empty =>
    case X11(v) =>
      assert s[..4] == "x11:";
    case Wayland(v) =>
      assert s[..8] == "wayland:";
      assert s[..4] != "x11:" by { assert s[0] == 'w'; }
  }

  /** Distinct identifiers never render to the same string. */
  lemma {:induction false} ToStringInjective(a: WindowIdentifier, b: WindowIdentifier)
    ensures a.ToString() == b.ToString() ==> a == b
  {
    ParseToString(a);
    ParseToString(b);
  }
}
