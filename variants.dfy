/** The exceptions the core throws, and the D-Bus values (VariantValue) that
    option dictionaries and results dictionaries hold. */
module Errors {

  /** Why a VariantParsingException was thrown; each case carries what its
      message names. */
  datatype ParseFailure =
    | TypeMismatch(expectedType: string, foundType: string)
    | ItemTypeMismatch(expectedItemType: string, foundItemType: string)
    | CountMismatch(expectedCount: int, foundCount: int)
    | NotBooleanString(value: string)
    | NotFileUri(scheme: string)

  datatype Error =
    | VariantParsing(failure: ParseFailure)
    | KeyNotFound(key: string)                 // KeyNotFoundException
    | InvalidOperation                         // a VariantValue read as the wrong kind
    | IndexOutOfRange                          // indexing an empty array
    | NotSupported(detail: string)             // NotSupportedException
    | NotImplemented                           // NotImplementedException of the older decoder
    | UriFormat(text: string)                  // new Uri(text, UriKind.Absolute) rejected text
    | PlatformNotSupported(variable: string)   // $HOME missing for a fallback
    | ObjectDisposed                           // ObjectDisposedException
    | ArgumentNull(parameter: string)          // ArgumentNullException
    | PortalVersion(name: string, requiredVersion: nat, availableVersion: nat)
    | Transport(code: nat)                     // a D-Bus level failure reported by the transport

  /** PortalVersionException derives from PortalException. */
  predicate IsPortalException(e: Error)
  {
    e.PortalVersion?
  }
}

module Variants {
  import Wrappers
  import Errors

  type uint8 = x: int | 0 <= x < 0x100
  type uint32 = x: int | 0 <= x < 0x1_0000_0000

  /** VariantValueType, restricted to the kinds the core reads or writes. */
  datatype VariantType = InvalidType | ByteType | BoolType | UInt32Type | StringType | ArrayType | StructType
  {
    function Name(): string
    {
      match this
      case InvalidType => "Invalid"
      case ByteType => "Byte"
      case BoolType => "Bool"
      case UInt32Type => "UInt32"
      case StringType => "String"
      case ArrayType => "Array"
      case StructType => "Struct"
    }
  }

  datatype VariantValue =
    | Str(s: string)
    | Bool(b: bool)
    | U32(n: uint32)
    | Byte(x: uint8)
    | Array(itemType: VariantType, items: seq<VariantValue>)
    | Struct(fields: seq<VariantValue>)
  {
    /** VariantValue.Type */
    function Type(): VariantType
    {
      match this
      case Str(_) => StringType
      case Bool(_) => BoolType
      case U32(_) => UInt32Type
      case Byte(_) => ByteType
      case Array(_, _) => ArrayType
      case Struct(_) => StructType
    }

    /** VariantValue.ItemType: the element type of an array, Invalid otherwise. */
    function ItemType(): VariantType
    {
      if Array? then itemType else InvalidType
    }

    /** VariantValue.Count: defined for arrays and structs only. */
    function Count(): Wrappers.Result<nat, Errors.Error>
    {
      match this
      case Array(_, items) => Wrappers.Success(|items|)
      case Struct(fields) => Wrappers.Success(|fields|)
      case _ => Wrappers.Failure(Errors.InvalidOperation)
    }

    /** VariantValue.GetItem(i) on an array or a struct. */
    function GetItem(i: nat): Wrappers.Result<VariantValue, Errors.Error>
    {
      match this
      case Array(_, items) => if i < |items| then Wrappers.Success(items[i]) else Wrappers.Failure(Errors.IndexOutOfRange)
      case Struct(fields) => if i < |fields| then Wrappers.Success(fields[i]) else Wrappers.Failure(Errors.IndexOutOfRange)
      case _ => Wrappers.Failure(Errors.InvalidOperation)
    }

    function GetString(): Wrappers.Result<string, Errors.Error>
    {
      if Str? then Wrappers.Success(s) else Wrappers.Failure(Errors.InvalidOperation)
    }

    function GetBool(): Wrappers.Result<bool, Errors.Error>
    {
      if Bool? then Wrappers.Success(b) else Wrappers.Failure(Errors.InvalidOperation)
    }

    function GetUInt32(): Wrappers.Result<uint32, Errors.Error>
    {
      if U32? then Wrappers.Success(n) else Wrappers.Failure(Errors.InvalidOperation)
    }
  }

  /** A results or options dictionary, a{sv}. */
  type VarDict = map<string, VariantValue>

  /** A string as an array of bytes, as the FileChooser's byte-string options expect. */
  function ByteArray(bytes: seq<uint8>): (v: VariantValue)
    ensures v.Array? && v.itemType == ByteType && |v.items| == |bytes|
    ensures forall i :: 0 <= i < |bytes| ==> v.items[i] == Byte(bytes[i])
  {
    Array(ByteType, seq(|bytes|, i requires 0 <= i < |bytes| => Byte(bytes[i])))
  }
}

module VariantParsing {
  import opened Wrappers
  import opened Errors
  import opened Variants

  function ExpectType(v: VariantValue, expected: VariantType): (r: Outcome<Error>)
    ensures r.Pass? <==> v.Type() == expected
    ensures r.Fail? ==> r.error == VariantParsing(TypeMismatch(expected.Name(), v.Type().Name()))
  {
    if v.Type() == expected then Pass
    else Fail(VariantParsing(TypeMismatch(expected.Name(), v.Type().Name())))
  }

  function ExpectItemType(v: VariantValue, expected: VariantType): (r: Outcome<Error>)
    ensures r.Pass? <==> v.ItemType() == expected
    ensures r.Fail? ==> r.error.VariantParsing? && r.error.failure.ItemTypeMismatch?
  {
    if v.ItemType() == expected then Pass
    else Fail(VariantParsing(ItemTypeMismatch(expected.Name(), v.ItemType().Name())))
  }

  /** ExpectCount reads VariantValue.Count, which throws on a scalar value. */
  function ExpectCount(v: VariantValue, expected: int): (r: Outcome<Error>)
    ensures r.Pass? <==> (v.Count().Success? && v.Count().value == expected)
    ensures r.Fail? && v.Count().Success? ==> r.error == VariantParsing(CountMismatch(expected, v.Count().value))
  {
    match v.Count()
    case Failure(e) => Fail(e)
    case Success(n) => if n == expected then Pass else Fail(VariantParsing(CountMismatch(expected, n)))
  }

  /** ExpectArray: the type, then the item type, then (when given) the count. */
  function ExpectArray(v: VariantValue, expectedItemType: VariantType, expectedCount: Option<int>): (r: Outcome<Error>)
  {
    match ExpectType(v, ArrayType)
    case Fail(e) => Fail(e)
    case Pass =>
      match ExpectItemType(v, expectedItemType)
      case Fail(e) => Fail(e)
      case Pass =>
        if expectedCount.Some? then ExpectCount(v, expectedCount.value) else Pass
  }

  function ExpectStruct(v: VariantValue, expectedCount: int): (r: Outcome<Error>)
  {
    match ExpectType(v, StructType)
    case Fail(e) => Fail(e)
    case Pass => ExpectCount(v, expectedCount)
  }

  /** ExpectArray passes exactly for an array of the item type (and length),
      and otherwise reports the first check that failed. */
  lemma ExpectArrayPassesExactly(v: VariantValue, t: VariantType, count: Option<int>)
    ensures ExpectArray(v, t, count).Pass? <==>
      v.Array? && v.itemType == t && (count.Some? ==> |v.items| == count.value)
    ensures !v.Array? ==> ExpectArray(v, t, count) == Fail(VariantParsing(TypeMismatch("Array", v.Type().Name())))
    ensures v.Array? && v.itemType != t ==> ExpectArray(v, t, count).error.failure.ItemTypeMismatch?
    ensures v.Array? && v.itemType == t && count.Some? && |v.items| != count.value ==>
      ExpectArray(v, t, count) == Fail(VariantParsing(CountMismatch(count.value, |v.items|)))
  {
  }

  /** ExpectStruct passes exactly for a struct with that many fields. */
  lemma ExpectStructPassesExactly(v: VariantValue, count: int)
    ensures ExpectStruct(v, count).Pass? <==> v.Struct? && |v.fields| == count
    ensures ExpectStruct(v, count).Fail? ==> ExpectStruct(v, count).error.VariantParsing?
  {
  }
}
