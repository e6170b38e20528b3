/** GetStatusResults of the NetworkMonitor portal: the availability, metered
    and connectivity entries of a GetStatus reply. */
module NetworkMonitor {
  import opened Wrappers
  import opened Errors
  import opened Variants
  import Text

  /** ConnectivityStatus, a uint-backed enum; Unset is default(ConnectivityStatus),
      the 0 that no member names. */
  datatype ConnectivityStatus = Unset | LocalOnly | Limited | Captive | Full
  {
    /** The underlying uint. */
    function Raw(): (n: uint32)
      ensures n <= 4
      ensures n == 0 <==> Unset?
    {
      match this
      case Unset => 0
      case LocalOnly => 1
      case Limited => 2
      case Captive => 3
      case Full => 4
    }
  }

  /** (ConnectivityStatus)rawStatus for a value the range check let through. */
  function StatusOf(raw: uint32): (s: ConnectivityStatus)
    requires 1 <= raw <= 4
    ensures s.Raw() == raw && !s.Unset?
  {
    if raw == 1 then LocalOnly else if raw == 2 then Limited else if raw == 3 then Captive else Full
  }

  /** The cast back from a named member gives the member again. */
  lemma StatusOfRaw(s: ConnectivityStatus)
    requires !s.Unset?
    ensures 1 <= s.Raw() <= 4 && StatusOf(s.Raw()) == s
  {
  }

  datatype GetStatusResults = GetStatusResults(isAvailable: bool, isMetered: bool, status: ConnectivityStatus)

  /** The NotSupportedException message for an out-of-range status. */
  function InvalidStatusMessage(raw: uint32): string
  {
    "Portal returned invalid connectivity status: `" + Text.NatToDecimal(raw) + "`"
  }

  /** From: each key is read only when present; a present entry of the
      wrong kind fails in GetBool or GetUInt32, a connectivity outside
      LocalOnly..Full is NotSupportedException, and a missing key leaves its
      field at its default (false, false, Unset). */
  method From(varDict: VarDict) returns (r: Result<GetStatusResults, Error>)
    ensures r.Success? <==>
      && ("available" in varDict ==> varDict["available"].Bool?)
      && ("metered" in varDict ==> varDict["metered"].Bool?)
      && ("connectivity" in varDict ==> varDict["connectivity"].U32? && 1 <= varDict["connectivity"].n <= 4)
    ensures r.Success? ==>
      && r.value.isAvailable == ("available" in varDict && varDict["available"].b)
      && r.value.isMetered == ("metered" in varDict && varDict["metered"].b)
      && r.value.status.Raw() == (if "connectivity" in varDict then varDict["connectivity"].n else 0)
    ensures "available" in varDict && !varDict["available"].Bool? ==> r == Failure(InvalidOperation)
    ensures ("available" in varDict ==> varDict["available"].Bool?) && "metered" in varDict && !varDict["metered"].Bool? ==>
      r == Failure(InvalidOperation)
    ensures ("available" in varDict ==> varDict["available"].Bool?) && ("metered" in varDict ==> varDict["metered"].Bool?) &&
            "connectivity" in varDict ==>
      && (!varDict["connectivity"].U32? ==> r == Failure(InvalidOperation))
      && (varDict["connectivity"].U32? && !(1 <= varDict["connectivity"].n <= 4) ==>
            r == Failure(NotSupported(InvalidStatusMessage(varDict["connectivity"].n))))
  {
    var res := GetStatusResults(false, false, Unset);

    if "available" in varDict {
      var isAvailable := varDict["available"].GetBool();
      if isAvailable.Failure? {
        return Failure(isAvailable.error);
      }
      res := res.(isAvailable := isAvailable.value);
    }

    if "metered" in varDict {
      var isMetered := varDict["metered"].GetBool();
      if isMetered.Failure? {
        return Failure(isMetered.error);
      }
      res := res.(isMetered := isMetered.value);
    }

    if "connectivity" in varDict {
      var rawStatus := varDict["connectivity"].GetUInt32();
      if rawStatus.Failure? {
        return Failure(rawStatus.error);
      }
      if rawStatus.value < LocalOnly.Raw() || rawStatus.value > Full.Raw() {
        return Failure(NotSupported(InvalidStatusMessage(rawStatus.value)));
      }
      res := res.(status := StatusOf(rawStatus.value));
    }

    return Success(res);
  }
}
