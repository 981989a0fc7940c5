// The convert package's shared vocabulary: the dynamically typed values
// its functions accept (Go's interface{}) and the reasons they fail with.

module ConvertBase {

  import opened Wrappers
  import opened GoStd

  /** The width of a sized Go integer type; int and uint are 64 bits wide. */
  datatype Width = W8 | W16 | W32 | W64
  {
    function MinSigned(): (lo: int)
      ensures MinInt64 <= lo < 0
    {
      match this
      case W8 => -0x80
      case W16 => -0x8000
      case W32 => -0x8000_0000
      case W64 => MinInt64
    }

    function MaxSigned(): (hi: int)
      ensures 0 < hi <= MaxInt64 && hi == -MinSigned() - 1
    {
      match this
      case W8 => 0x7f
      case W16 => 0x7fff
      case W32 => 0x7fff_ffff
      case W64 => MaxInt64
    }

    function MaxUnsigned(): (hi: int)
      ensures 0 < hi < TwoTo64 && hi == 2 * MaxSigned() + 1
    {
      match this
      case W8 => 0xff
      case W16 => 0xffff
      case W32 => 0xffff_ffff
      case W64 => TwoTo64 - 1
    }
  }

  /**
   * A Go value held in an interface{}: a sized signed or unsigned integer,
   * a bool, a string, a map[string]interface{}, a []byte, a []rune, or a
   * value of any other type, which has a String method when `shown` holds
   * what it returns.
   * Floating-point values are not part of this model.
   */
  datatype Value =
    | Nil
    | Int(w: Width, i: int)
    | Uint(w: Width, u: nat)
    | Bool(b: bool)
    | Str(s: string)
    | Dict(entries: map<string, Value>)
    | ByteSlice(bytes: seq<int>)
    | RuneSlice(runes: seq<int>)
    | Named(typeName: string, shown: Option<string>)
  {
    /** The integers lie inside their types' ranges, here, in a slice's elements and in every nested map value. */
    predicate Fits()
    {
      match this
      case Int(w, i) => w.MinSigned() <= i <= w.MaxSigned()
      case Uint(w, u) => u <= w.MaxUnsigned()
      case Dict(m) => forall k :: k in m ==> m[k].Fits()
      case ByteSlice(bs) => forall i :: 0 <= i < |bs| ==> IsByte(bs[i])
      case RuneSlice(rs) => forall i :: 0 <= i < |rs| ==> W32.MinSigned() <= rs[i] <= W32.MaxSigned()
      case _ => true
    }
  }

  /**
   * Why a conversion failed: the message a ConvertError carries, without
   * the source and target type names and the formatted value.
   */
  datatype ConvertError =
    | NilInput
    | EmptyString
    | ParseFailure
    | Unsupported
    | NegativeToUnsigned
    | OutOfRange
    | UnknownBoolWord
    | BadBase
    | NegativeText
    | NotSliceOrArray
    | EmptyFieldName
    | FieldNotFound
    | MapKeyNotString
    | UnsupportedElement
    | NotMap
    | NilPointer
    | NilTarget
    | NotStruct
    | NotStructPointer
    | MapExpected
    | UnsupportedField
    /** Not a returned error: the runtime panic "hash of unhashable type" of a map[interface{}] lookup. */
    | UnhashablePanic

  /**
   * An interface{} argument that must hold a value of one kind (a slice, a
   * map, a struct): nil, a value of that kind, or a value of another kind.
   */
  datatype Dynamic<T> = NilInterface | Holds(value: T) | OtherKind

  /**
   * A struct field as reflect reports it: its name, whether it is exported
   * (an empty PkgPath), and its tag's key:"value" pairs.
   */
  datatype StructField = StructField(name: string, exported: bool, tags: map<string, string>)
  {
    /** reflect.StructTag.Get: the value stored under key, "" when there is none. */
    function Get(key: string): (v: string)
      ensures key !in tags ==> v == ""
      ensures key in tags ==> v == tags[key]
    {
      if key in tags then tags[key] else ""
    }
  }

  /** The text before the first comma, the whole text when it has none (strings.IndexByte, then a slice). */
  function BeforeComma(s: string): (r: string)
    ensures |r| <= |s| && r == s[..|r|]
    ensures ',' !in r
    ensures |r| < |s| ==> s[|r|] == ','
  {
    if s == [] || s[0] == ',' then [] else [s[0]] + BeforeComma(s[1..])
  }
}
