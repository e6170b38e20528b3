/** ResponseStatus, Response and Response<T>: what a Request's Response
    signal completes the request's future with. */
module Responses {
  import opened Variants

  /** A raw response code that names no ResponseStatus member. */
  type UnnamedCode = x: uint32 | 2 < x witness 3

  /** The enum ResponseStatus : uint; a cast of any other uint gives an unnamed value. */
  datatype ResponseStatus = Success | UserCancelled | Aborted | Unnamed(code: UnnamedCode)

  /** The cast (ResponseStatus)raw. */
  function FromRaw(raw: uint32): ResponseStatus
  {
    if raw == 0 then Success else if raw == 1 then UserCancelled else if raw == 2 then Aborted else Unnamed(raw)
  }

  /** The enum's underlying value. */
  function ToRaw(s: ResponseStatus): uint32
  {
    match s
    case Success => 0
    case UserCancelled => 1
    case Aborted => 2
    case Unnamed(code) => code
  }

  lemma StatusValues()
    ensures FromRaw(0) == Success && FromRaw(1) == UserCancelled && FromRaw(2) == Aborted
    ensures forall raw: uint32 :: FromRaw(raw).Unnamed? <==> raw > 2
  {
  }

  /** The cast loses nothing in either direction. */
  lemma CastRoundTrip(raw: uint32, s: ResponseStatus)
    ensures ToRaw(FromRaw(raw)) == raw
    ensures FromRaw(ToRaw(s)) == s
  {
  }

  /** Response: a status only. */
  datatype Response = Response(status: ResponseStatus)

  /** Response<T>: a status and the decoded results. */
  datatype ResponseWithResults<T> = ResponseWithResults(status: ResponseStatus, results: T)
}
