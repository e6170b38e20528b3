/** OpenFileFilter and OpenFileFilterList: the (sa(us)) filters of the
    FileChooser portal, the filter the portal reports back, and the
    name-only equality the library gives filters. */
module FileChooserFilters {
  import opened Wrappers
  import opened Errors
  import opened Variants
  import opened VariantParsing
  import Text

  /** OneOf<GlobPattern, MimeType>. */
  datatype Pattern = Glob(glob: string) | Mime(mimeType: string)
  {
    /** The Match over the two cases: the wrapped value verbatim. */
    function Value(): (s: string)
      ensures s == (if Glob? then glob else mimeType)
    {
      match this
      case Glob(g) => g
      case Mime(m) => m
    }
  }

  datatype Filter = Filter(filterName: string, patterns: seq<Pattern>, isDefault: bool)

  /** The (uint) cast of a non-negative int: unchecked, so it wraps modulo
      2^32 (list indices stay far below that). */
  function IndexAsUInt32(i: nat): (u: uint32)
    ensures i < 0x1_0000_0000 ==> u == i
  {
    i % 0x1_0000_0000
  }

  /** The (us) pair ToVariant builds for pattern i, as written: its
      position, then its text. */
  function PatternToVariant(p: Pattern, i: nat): VariantValue
  {
    Struct([U32(IndexAsUInt32(i)), Str(p.Value())])
  }

  /** OpenFileFilter.ToVariant as written: (name, [(position, pattern)]). */
  function FilterToVariant(f: Filter): VariantValue
  {
    Struct([Str(f.filterName),
            Array(StructType, seq(|f.patterns|, i requires 0 <= i < |f.patterns| => PatternToVariant(f.patterns[i], i)))])
  }

  /** The kind the FileChooser portal reads from a pattern's tag: 0 for a
      glob, 1 for a MIME type, which is the index of the OneOf case. */
  function KindTag(p: Pattern): uint32
  {
    match p
    case Glob(_) => 0
    case Mime(_) => 1
  }

  /** The (us) pair for a pattern, tagged with its kind. */
  function TaggedPatternToVariant(p: Pattern): VariantValue
  {
    Struct([U32(KindTag(p)), Str(p.Value())])
  }

  /** OpenFileFilter.ToVariant as intended, each pattern tagged by its
      kind: (name, [(kind, pattern)]). */
  function IntendedFilterToVariant(f: Filter): (v: VariantValue)
  {
    Struct([Str(f.filterName),
            Array(StructType, seq(|f.patterns|, i requires 0 <= i < |f.patterns| => TaggedPatternToVariant(f.patterns[i])))])
  }

  /** How the portal reads one (us) pair: tag 0 is a glob, tag 1 a MIME
      type, and anything else is not a pattern. */
  function PatternFromVariant(v: VariantValue): Option<Pattern>
  {
    if v.Struct? && |v.fields| == 2 && v.fields[0].U32? && v.fields[1].Str? then
      if v.fields[0].n == 0 then Some(Glob(v.fields[1].s))
      else if v.fields[0].n == 1 then Some(Mime(v.fields[1].s))
      else None
    else None
  }

  /** OpenFileFilter.FromVariant: a struct of two items whose first is the
      name; the patterns are not read back and IsDefault stays false. */
  function FilterFromVariant(v: VariantValue): (r: Result<Filter, Error>)
  {
    match ExpectType(v, StructType)
    case Fail(e) => Failure(e)
    case Pass =>
      match ExpectCount(v, 2)
      case Fail(e) => Failure(e)
      case Pass =>
        match v.GetItem(0)
        case Failure(e) => Failure(e)
        case Success(item) =>
          match item.GetString()
          case Failure(e) => Failure(e)
          case Success(name) => Success(Filter(name, [], false))
  }

  /** OpenFileFilter.Equals: the names compared ordinally ignoring case. */
  predicate FilterEquals(a: Filter, b: Filter)
  {
    Text.EqualsIgnoreCase(a.filterName, b.filterName)
  }

  /** The string GetHashCode(OrdinalIgnoreCase) hashes: the upper-cased name. */
  function HashKey(f: Filter): string
  {
    Text.Upper(f.filterName)
  }

  /** OpenFileFilterList.ToVariant: one filter struct per filter, in order. */
  function FilterListToVariant(filters: seq<Filter>): (v: VariantValue)
    ensures v.Array? && v.itemType == StructType && |v.items| == |filters|
    ensures forall i :: 0 <= i < |filters| ==> v.items[i] == FilterToVariant(filters[i])
  {
    Array(StructType, seq(|filters|, i requires 0 <= i < |filters| => FilterToVariant(filters[i])))
  }

  /** As written, ToVariant keeps the name and emits one (position, text)
      pair per pattern, in order: the tag is the position, not the kind. */
  lemma FilterToVariantShape(f: Filter)
    requires |f.patterns| < 0x1_0000_0000
    ensures var v := FilterToVariant(f);
      && v.Struct? && |v.fields| == 2 && v.fields[0] == Str(f.filterName)
      && v.fields[1].Array? && v.fields[1].itemType == StructType
      && |v.fields[1].items| == |f.patterns|
      && forall i :: 0 <= i < |f.patterns| ==>
           v.fields[1].items[i] == Struct([U32(i), Str(f.patterns[i].Value())])
  {
  }

  /** As written, a glob and a MIME type with the same text, at the same
      position, encode identically: the encoding does not say which kind a
      pattern is. */
  lemma PatternKindIsLost(text: string, i: nat)
    ensures PatternToVariant(Glob(text), i) == PatternToVariant(Mime(text), i)
    ensures Glob(text) != Mime(text)
  {
  }

  /** A filter of three globs, as written: the portal reads the second one
      as a MIME type and the third as no pattern at all; tagged by kind, it
      reads all three back as globs. */
  lemma PositionTagCounterexample()
    ensures var f := Filter("Images", [Glob("*.png"), Glob("*.jpg"), Glob("*.gif")], false);
      var v := FilterToVariant(f);
      && PatternFromVariant(v.fields[1].items[0]) == Some(Glob("*.png"))
      && PatternFromVariant(v.fields[1].items[1]) == Some(Mime("*.jpg"))
      && PatternFromVariant(v.fields[1].items[2]) == None
      && PatternFromVariant(IntendedFilterToVariant(f).fields[1].items[1]) == Some(Glob("*.jpg"))
  {
    var f := Filter("Images", [Glob("*.png"), Glob("*.jpg"), Glob("*.gif")], false);
    FilterToVariantShape(f);
  }

  /** Tagged by kind, ToVariant keeps the name and emits one (kind, text)
      pair per pattern, in order, and the portal reads every pattern back
      as the kind it was. */
  lemma FilterPatternsRoundTrip(f: Filter)
    ensures var v := IntendedFilterToVariant(f);
      && v.Struct? && |v.fields| == 2 && v.fields[0] == Str(f.filterName)
      && v.fields[1].Array? && v.fields[1].itemType == StructType
      && |v.fields[1].items| == |f.patterns|
      && forall i :: 0 <= i < |f.patterns| ==>
           && v.fields[1].items[i] == Struct([U32(if f.patterns[i].Glob? then 0 else 1), Str(f.patterns[i].Value())])
           && PatternFromVariant(v.fields[1].items[i]) == Some(f.patterns[i])
  {
  }

  /** FromVariant accepts exactly a two-item struct whose first item is a
      string, and reads back only that name. */
  lemma FilterFromVariantAccepts(v: VariantValue)
    ensures FilterFromVariant(v).Success? <==> v.Struct? && |v.fields| == 2 && v.fields[0].Str?
    ensures FilterFromVariant(v).Success? ==> FilterFromVariant(v).value == Filter(v.fields[0].s, [], false)
    ensures !v.Struct? ==> FilterFromVariant(v) == Failure(VariantParsing(TypeMismatch("Struct", v.Type().Name())))
    ensures v.Struct? && |v.fields| != 2 ==> FilterFromVariant(v) == Failure(VariantParsing(CountMismatch(2, |v.fields|)))
  {
  }

  /** The round trip: decoding an encoded filter gives a filter equal to it
      under Equals, but with its patterns and IsDefault dropped. */
  lemma FilterRoundTrip(f: Filter)
    ensures FilterFromVariant(FilterToVariant(f)) == Success(Filter(f.filterName, [], false))
    ensures FilterEquals(FilterFromVariant(FilterToVariant(f)).value, f)
    ensures f.patterns != [] || f.isDefault ==> FilterFromVariant(FilterToVariant(f)).value != f
  {
  }

  /** Equals is an equivalence, and equal filters hash alike. */
  lemma FilterEqualsIsEquivalence(a: Filter, b: Filter, c: Filter)
    ensures FilterEquals(a, a)
    ensures FilterEquals(a, b) ==> FilterEquals(b, a)
    ensures FilterEquals(a, b) && FilterEquals(b, c) ==> FilterEquals(a, c)
    ensures FilterEquals(a, b) ==> HashKey(a) == HashKey(b)
  {
  }

  /** Equals looks at the name only. */
  lemma FilterEqualsIgnoresPatterns(name: string, p1: seq<Pattern>, p2: seq<Pattern>, d1: bool, d2: bool)
    ensures FilterEquals(Filter(name, p1, d1), Filter(name, p2, d2))
  {
  }

  /** List<T>.FindIndex(filter => filter.IsDefault): the first default
      filter's position, or -1. */
  function FindDefaultIndex(filters: seq<Filter>): int
  {
    FirstIndex(filters, (f: Filter) => f.isDefault)
  }
}
