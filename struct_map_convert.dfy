// convert/struct_map_convert.go: a struct's exported fields read into a
// map[string]interface{}, and a map's entries written into the fields of
// the struct a pointer points to, with a tag choosing each field's key.

module StructMapConvert {

  import opened Wrappers
  import opened GoStd
  import opened ConvertBase
  import Strconv
  import ConvertNumeric
  import ConvertBool
  import ConvertString
  import ArrayUnique

  // ---------------------------------------------------------------------
  // Struct types and the values stored in their fields

  /**
   * A field's type, as far as the conversions look at it: string, bool, a
   * sized integer, interface{}, map[string]interface{}, []byte, []rune, a
   * struct, a pointer, or a type of another kind (a slice of another
   * element type, a channel, another map type), known by its name: no
   * value converts into one of those.
   */
  datatype FieldType =
    | StringType
    | BoolType
    | IntType(w: Width)
    | UintType(w: Width)
    | AnyType
    | MapType
    | ByteSliceType
    | RuneSliceType
    | StructType(fields: seq<FieldDecl>)
    | PointerType(elem: FieldType)
    | OtherType(name: string)

  /** A struct field: what reflect.StructField says about it, and its type. */
  datatype FieldDecl = FieldDecl(field: StructField, typ: FieldType)

  /** What a field holds: a plain value, a struct's field values, a nil pointer, or a pointer to a value. */
  datatype Data =
    | Plain(v: Value)
    | Record(fields: seq<Data>)
    | NilPtr
    | Ptr(target: Data)

  /** The data is a value of the type: the invariant reflect keeps for every field. */
  predicate Conforms(t: FieldType, d: Data)
    decreases t
  {
    match t
    case StringType => d.Plain? && d.v.Str?
    case BoolType => d.Plain? && d.v.Bool?
    case IntType(w) => d.Plain? && d.v.Int? && d.v.w == w && w.MinSigned() <= d.v.i <= w.MaxSigned()
    case UintType(w) => d.Plain? && d.v.Uint? && d.v.w == w && d.v.u <= w.MaxUnsigned()
    case AnyType => d.Plain? && d.v.Fits()
    case MapType => d.Plain? && (d.v.Nil? || d.v.Dict?) && d.v.Fits()
    case ByteSliceType => d.Plain? && d.v.ByteSlice? && d.v.Fits()
    case RuneSliceType => d.Plain? && d.v.RuneSlice? && d.v.Fits()
    case StructType(ds) =>
      d.Record? && |d.fields| == |ds| && forall i :: 0 <= i < |ds| ==> Conforms(ds[i].typ, d.fields[i])
    case PointerType(e) => d.NilPtr? || (d.Ptr? && Conforms(e, d.target))
    case OtherType(n) => d.Plain? && d.v.Named? && d.v.typeName == n
  }

  /** The zero value of a type, which reflect.New allocates. */
  function Zero(t: FieldType): (d: Data)
    ensures Conforms(t, d)
    decreases t
  {
    match t
    case StringType => Plain(Str(""))
    case BoolType => Plain(Bool(false))
    case IntType(w) => Plain(Int(w, 0))
    case UintType(w) => Plain(Uint(w, 0))
    case AnyType => Plain(Nil)
    case MapType => Plain(Nil)
    case ByteSliceType => Plain(ByteSlice([]))
    case RuneSliceType => Plain(RuneSlice([]))
    case StructType(ds) => Record(seq(|ds|, i requires 0 <= i < |ds| => Zero(ds[i].typ)))
    case PointerType(_) => NilPtr
    case OtherType(n) => Plain(Named(n, None))
  }

  // ---------------------------------------------------------------------
  // getFieldKey

  /**
   * getFieldKey: the key a field is stored under, or None when its tag
   * says "-". Without a tag name the key is the field's name; otherwise it
   * is the tag value's text before the first comma, falling back to the
   * field's name when that text is empty.
   */
  function FieldKey(f: StructField, tag: string): (r: Option<string>)
    ensures r.None? <==> tag != "" && f.Get(tag) == "-"
    ensures r.Some? ==> r.value == f.name || (r.value != "" && r.value == BeforeComma(f.Get(tag)))
  {
    if tag == "" then Some(f.name)
    else
      var tv := f.Get(tag);
      if tv == "-" then None
      else if tv == "" then Some(f.name)
      else
        var name := BeforeComma(tv);
        if name == "" then Some(f.name) else Some(name)
  }

  /**
   * The four rules for choosing a key: no tag name means the field name;
   * "-" skips the field; a non-empty text before the first comma is the
   * key; an empty one falls back to the field name.
   */
  lemma FieldKeyRules(f: StructField, tag: string)
    ensures tag == "" ==> FieldKey(f, tag) == Some(f.name)
    ensures tag != "" && f.Get(tag) == "-" ==> FieldKey(f, tag) == None
    ensures tag != "" && f.Get(tag) != "-" && BeforeComma(f.Get(tag)) != "" ==> FieldKey(f, tag) == Some(BeforeComma(f.Get(tag)))
    ensures tag != "" && BeforeComma(f.Get(tag)) == "" ==> FieldKey(f, tag) == Some(f.name)
  {
  }

  /**
   * The key of an exported field designates that field in the sense of
   * fieldIndexByNameOrTag in array_unique.go: a struct's keys written by
   * ToMapFromStruct are names UniqueSliceByField accepts.
   */
  lemma KeyDesignatesField(f: StructField, tag: string, k: string)
    requires f.exported && FieldKey(f, tag) == Some(k)
    ensures ArrayUnique.Designates(f, k, tag)
  {
  }

  /** Sample tags on a field Name: an option after the comma, "-", an empty name, no tag name. */
  lemma FieldKeySamples(tv: string)
    requires tv == "name,omitempty"
    ensures FieldKey(StructField("Name", true, map["json" := tv]), "json") == Some("name")
    ensures FieldKey(StructField("Name", true, map["json" := "-"]), "json") == None
    ensures FieldKey(StructField("Name", true, map["json" := ",omitempty"]), "json") == Some("Name")
    ensures FieldKey(StructField("Name", true, map["json" := tv]), "") == Some("Name")
    ensures FieldKey(StructField("Name", true, map[]), "json") == Some("Name")
  {
    assert tv[4] == ',';
    assert BeforeComma(tv) == "name" by {
      assert BeforeComma(tv) == tv[..|BeforeComma(tv)|];
    }
    assert BeforeComma(",omitempty") == "";
  }

  // ---------------------------------------------------------------------
  // setFieldValue on the kinds that need no recursion

  /** reflect's Convert into a signed integer type: x reduced into the type's range. */
  function WrapSigned(w: Width, x: int): (r: int)
    ensures w.MinSigned() <= r <= w.MaxSigned()
    ensures w.MinSigned() <= x <= w.MaxSigned() ==> r == x
  {
    (x - w.MinSigned()) % (w.MaxUnsigned() + 1) + w.MinSigned()
  }

  /** reflect's Convert into an unsigned integer type: x reduced into the type's range. */
  function WrapUnsigned(w: Width, x: int): (r: nat)
    ensures r <= w.MaxUnsigned()
    ensures 0 <= x <= w.MaxUnsigned() ==> r == x
  {
    x % (w.MaxUnsigned() + 1)
  }

  /** Go's string(rune(x)): the one character x stands for, U+FFFD when x is no Unicode scalar value. */
  function RuneText(x: int): (s: string)
    ensures |s| == 1
    ensures 0 <= x < 0xD800 ==> s[0] as int == x
    ensures x < 0 || x >= 0x11_0000 ==> s[0] as int == 0xFFFD
  {
    if 0 <= x < 0xD800 || 0xE000 <= x < 0x11_0000 then [x as char] else [0xFFFD as char]
  }

  /** A field type setFieldValue sets without recursing: neither a struct nor a pointer. */
  predicate Simple(t: FieldType)
  {
    !t.StructType? && !t.PointerType?
  }

  /** reflect's AssignableTo: the value's own type is the field's type, or the field is an interface{}. */
  predicate AssignableTo(v: Value, t: FieldType)
  {
    match t
    case StringType => v.Str?
    case BoolType => v.Bool?
    case IntType(w) => v.Int? && v.w == w
    case UintType(w) => v.Uint? && v.w == w
    case AnyType => true
    case MapType => v.Dict?
    case ByteSliceType => v.ByteSlice?
    case RuneSliceType => v.RuneSlice?
    case OtherType(n) => v.Named? && v.typeName == n
    case _ => false
  }

  /**
   * reflect's ConvertibleTo, for a value that is not assignable: integers
   * convert to every integer type and to string, a string converts to
   * []byte and []rune, and both of those convert to string.
   */
  predicate ConvertibleTo(v: Value, t: FieldType)
  {
    || ((v.Int? || v.Uint?) && (t.IntType? || t.UintType? || t.StringType?))
    || (v.Str? && (t.ByteSliceType? || t.RuneSliceType?))
    || ((v.ByteSlice? || v.RuneSlice?) && t.StringType?)
  }

  /** []rune(s): the code points of the string's runes. */
  function CodePoints(s: string): (rs: seq<int>)
    ensures |rs| == |s| && forall i :: 0 <= i < |s| ==> rs[i] == s[i] as int
  {
    seq(|s|, i requires 0 <= i < |s| => s[i] as int)
  }

  /** string(rs) for a []rune: each element's string(rune(x)), one after the other. */
  function RunesText(rs: seq<int>): (s: string)
    ensures |s| == |rs|
    ensures forall i :: 0 <= i < |rs| ==> [s[i]] == RuneText(rs[i])
  {
    if rs == [] then [] else RuneText(rs[0]) + RunesText(rs[1..])
  }

  /** string([]rune(s)) == s: the code points of a string's runes spell it again. */
  lemma RunesTextOfCodePoints(s: string)
    ensures RunesText(CodePoints(s)) == s
  {
    var t := RunesText(CodePoints(s));
    forall i | 0 <= i < |s|
      ensures t[i] == s[i]
    {
      assert [t[i]] == RuneText(s[i] as int);
    }
  }

  /** The number an integer value holds. */
  function Number(v: Value): int
    requires v.Int? || v.Uint?
  {
    if v.Int? then v.i else v.u
  }

  /**
   * reflect's Convert: an integer wrapped into an integer type or read as
   * a rune into a string; a string into its UTF-8 bytes or its code
   * points; a []byte into the runes its bytes read as, a []rune into the
   * runes its elements stand for.
   */
  function Converted(v: Value, t: FieldType): (d: Data)
    requires ConvertibleTo(v, t)
    ensures Conforms(t, d)
  {
    match t
    case IntType(w) => Plain(Int(w, WrapSigned(w, Number(v))))
    case UintType(w) => Plain(Uint(w, WrapUnsigned(w, Number(v))))
    case StringType =>
      if v.ByteSlice? then Plain(Str(DecodeRunes(v.bytes)))
      else if v.RuneSlice? then Plain(Str(RunesText(v.runes)))
      else Plain(Str(RuneText(Number(v))))
    case ByteSliceType => Plain(ByteSlice(EncodeRunes(v.s)))
    case RuneSliceType => Plain(RuneSlice(CodePoints(v.s)))
  }

  /** fmt's %v: ToString's text where it has one, and `show` for maps and values without a String method. */
  function Shown(v: Value, show: Value -> string): string
  {
    match ConvertString.ToString(v)
    case Ok(s) => s
    case Err(_) => show(v)
  }

  /**
   * The switch on the field's kind that setFieldValue falls back on: a
   * string field takes %v, a bool field ToBool, a signed field ToInt64
   * with a range check for int8, int16 and int32, an unsigned field
   * ToUint64 with a range check for uint8, uint16 and uint32.
   */
  function ByKind(t: FieldType, v: Value, show: Value -> string): (r: Result<Data, ConvertError>)
    requires v.Fits()
    ensures r.Ok? ==> Conforms(t, r.value)
  {
    match t
    case StringType => Ok(Plain(Str(Shown(v, show))))
    case BoolType =>
      (match ConvertBool.ToBool(v)
       case Ok(b) => Ok(Plain(Bool(b)))
       case Err(e) => Err(e))
    case IntType(w) =>
      (match ConvertNumeric.NarrowSigned(ConvertNumeric.ToInt64(v), w)
       case Ok(i) => Ok(Plain(Int(w, i)))
       case Err(e) => Err(e))
    case UintType(w) =>
      (match ConvertNumeric.NarrowUnsigned(ConvertNumeric.ToUint64(v), w)
       case Ok(u) => Ok(Plain(Uint(w, u)))
       case Err(e) => Err(e))
    case _ => Err(UnsupportedField)
  }

  /** setFieldValue below the struct and pointer cases: assign, else convert, else go by the field's kind. */
  function SetSimple(t: FieldType, v: Value, show: Value -> string): (r: Result<Data, ConvertError>)
    requires Simple(t) && !v.Nil? && v.Fits()
    ensures r.Ok? ==> Conforms(t, r.value)
  {
    if AssignableTo(v, t) then Ok(Plain(v))
    else if ConvertibleTo(v, t) then Ok(Converted(v, t))
    else ByKind(t, v, show)
  }

  // ---------------------------------------------------------------------
  // setFieldValue and the field loop of FillStructFromMap

  /**
   * What a call left behind: the field's (or the struct's) data after it,
   * and the error it returned. A failed call leaves a simple field or a
   * pointer as it was, but a struct filled in place keeps the fields set
   * before the failing one.
   */
  datatype Outcome = Outcome(after: Data, failure: Option<ConvertError>)

  /** Both loops look at the field: it is exported and its tag does not skip it. */
  predicate Keyed(d: FieldDecl, tag: string)
  {
    d.field.exported && FieldKey(d.field, tag).Some?
  }

  /** The field takes a value from m: it is keyed, and its key is in m. */
  predicate Selected(d: FieldDecl, m: map<string, Value>, tag: string)
  {
    Keyed(d, tag) && FieldKey(d.field, tag).value in m
  }

  /**
   * setFieldValue: nil sets a pointer to nil and leaves anything else as
   * it was; a pointer to a struct needs a map, filled into a new struct;
   * another pointer gets a new value set recursively; a struct needs a
   * map and is filled in place; any other field takes SetSimple's value.
   * `show` is fmt's %v on values without a String method.
   */
  function SetField(t: FieldType, cur: Data, val: Value, tag: string, show: Value -> string): (o: Outcome)
    requires Conforms(t, cur) && val.Fits()
    ensures Conforms(t, o.after)
    ensures o.failure.Some? && !t.StructType? ==> o.after == cur
    decreases t, 1, 0
  {
    if val.Nil? then
      Outcome(if t.PointerType? then NilPtr else cur, None)
    else if t.PointerType? then
      var blank := Zero(t.elem);
      var o :=
        if t.elem.StructType? then
          if val.Dict? then FillFrom(t.elem, 0, val.entries, blank.fields, tag, show)
          else Outcome(blank, Some(MapExpected))
        else SetField(t.elem, blank, val, tag, show);
      if o.failure.Some? then Outcome(cur, o.failure) else Outcome(Ptr(o.after), None)
    else if t.StructType? then
      if val.Dict? then FillFrom(t, 0, val.entries, cur.fields, tag, show)
      else Outcome(cur, Some(MapExpected))
    else
      match SetSimple(t, val, show)
      case Ok(d) => Outcome(d, None)
      case Err(e) => Outcome(cur, Some(e))
  }

  /**
   * The loop of FillStructFromMap from field i on, over a struct of type
   * t holding cur: every selected field is set in turn, and the first
   * failure stops the loop with the fields before it already set.
   */
  function FillFrom(t: FieldType, i: nat, m: map<string, Value>, cur: seq<Data>, tag: string, show: Value -> string): (o: Outcome)
    requires t.StructType? && i <= |t.fields| && Conforms(t, Record(cur))
    requires forall k :: k in m ==> m[k].Fits()
    ensures Conforms(t, o.after)
    decreases t, 0, |t.fields| - i
  {
    if i == |t.fields| then Outcome(Record(cur), None)
    else
      var d := t.fields[i];
      if !Selected(d, m, tag) then FillFrom(t, i + 1, m, cur, tag, show)
      else
        var o := SetField(d.typ, cur[i], m[FieldKey(d.field, tag).value], tag, show);
        var next := cur[i := o.after];
        if o.failure.Some? then Outcome(Record(next), o.failure)
        else FillFrom(t, i + 1, m, next, tag, show)
  }

  // ---------------------------------------------------------------------
  // What the field loop changes

  /** A field the loop has passed, or one it does not select, keeps its data. */
  lemma {:induction false} FillLeavesUnselected(t: FieldType, i: nat, m: map<string, Value>, cur: seq<Data>, tag: string, show: Value -> string, j: nat)
    requires t.StructType? && i <= |t.fields| && Conforms(t, Record(cur))
    requires forall k :: k in m ==> m[k].Fits()
    requires j < |cur| && (j < i || !Selected(t.fields[j], m, tag))
    ensures FillFrom(t, i, m, cur, tag, show).after.fields[j] == cur[j]
    decreases |t.fields| - i
  {
    if i < |t.fields| {
      var d := t.fields[i];
      if !Selected(d, m, tag) {
        FillLeavesUnselected(t, i + 1, m, cur, tag, show, j);
      } else {
        var o := SetField(d.typ, cur[i], m[FieldKey(d.field, tag).value], tag, show);
        if o.failure.None? {
          FillLeavesUnselected(t, i + 1, m, cur[i := o.after], tag, show, j);
        }
      }
    }
  }

  /** When the loop succeeds, every selected field holds what setFieldValue made of its entry. */
  lemma {:induction false} FillSetsSelected(t: FieldType, i: nat, m: map<string, Value>, cur: seq<Data>, tag: string, show: Value -> string, j: nat)
    requires t.StructType? && i <= |t.fields| && Conforms(t, Record(cur))
    requires forall k :: k in m ==> m[k].Fits()
    requires i <= j < |cur| && Selected(t.fields[j], m, tag)
    requires FillFrom(t, i, m, cur, tag, show).failure.None?
    ensures FillFrom(t, i, m, cur, tag, show).after.fields[j]
         == SetField(t.fields[j].typ, cur[j], m[FieldKey(t.fields[j].field, tag).value], tag, show).after
    decreases |t.fields| - i
  {
    var d := t.fields[i];
    if !Selected(d, m, tag) {
      FillSetsSelected(t, i + 1, m, cur, tag, show, j);
    } else {
      var o := SetField(d.typ, cur[i], m[FieldKey(d.field, tag).value], tag, show);
      var next := cur[i := o.after];
      if j == i {
        FillLeavesUnselected(t, i + 1, m, next, tag, show, j);
      } else {
        FillSetsSelected(t, i + 1, m, next, tag, show, j);
      }
    }
  }

  /** The selected field at e fails to take its entry. */
  predicate FailsAt(t: FieldType, e: nat, m: map<string, Value>, cur: seq<Data>, tag: string, show: Value -> string, err: ConvertError)
    requires t.StructType? && e < |t.fields| && Conforms(t, Record(cur))
    requires forall k :: k in m ==> m[k].Fits()
  {
    Selected(t.fields[e], m, tag)
    && SetField(t.fields[e].typ, cur[e], m[FieldKey(t.fields[e].field, tag).value], tag, show).failure == Some(err)
  }

  /**
   * A failing loop reports the failure of a selected field at some e, and
   * leaves every field after e as it was.
   */
  lemma {:induction false} FillStopsAtFailure(t: FieldType, i: nat, m: map<string, Value>, cur: seq<Data>, tag: string, show: Value -> string)
      returns (e: nat)
    requires t.StructType? && i <= |t.fields| && Conforms(t, Record(cur))
    requires forall k :: k in m ==> m[k].Fits()
    requires FillFrom(t, i, m, cur, tag, show).failure.Some?
    ensures i <= e < |t.fields| && FailsAt(t, e, m, cur, tag, show, FillFrom(t, i, m, cur, tag, show).failure.value)
    ensures forall j :: e < j < |cur| ==> FillFrom(t, i, m, cur, tag, show).after.fields[j] == cur[j]
    decreases |t.fields| - i
  {
    var d := t.fields[i];
    if !Selected(d, m, tag) {
      e := FillStopsAtFailure(t, i + 1, m, cur, tag, show);
    } else {
      var o := SetField(d.typ, cur[i], m[FieldKey(d.field, tag).value], tag, show);
      var next := cur[i := o.after];
      if o.failure.Some? {
        e := i;
      } else {
        e := FillStopsAtFailure(t, i + 1, m, next, tag, show);
      }
    }
  }

  // ---------------------------------------------------------------------
  // Narrowing into int8, int16, int32 and uint8, uint16, uint32

  /** A signed field given a text that ToInt64 reads as n takes n when it fits, and refuses it otherwise. */
  lemma ReadTextNarrowsSigned(w: Width, x: string, n: int, cur: Data, tag: string, show: Value -> string)
    requires ConvertNumeric.ToInt64(Str(x)) == Ok(n) && Conforms(IntType(w), cur)
    ensures SetField(IntType(w), cur, Str(x), tag, show)
         == if w.MinSigned() <= n <= w.MaxSigned() then Outcome(Plain(Int(w, n)), None) else Outcome(cur, Some(OutOfRange))
  {
    assert SetSimple(IntType(w), Str(x), show) == ByKind(IntType(w), Str(x), show);
  }

  /** An unsigned field given a text that ToUint64 reads as u takes u when it fits, and refuses it otherwise. */
  lemma ReadTextNarrowsUnsigned(w: Width, x: string, u: nat, cur: Data, tag: string, show: Value -> string)
    requires ConvertNumeric.ToUint64(Str(x)) == Ok(u) && Conforms(UintType(w), cur)
    ensures SetField(UintType(w), cur, Str(x), tag, show)
         == if u <= w.MaxUnsigned() then Outcome(Plain(Uint(w, u)), None) else Outcome(cur, Some(OutOfRange))
  {
    assert SetSimple(UintType(w), Str(x), show) == ByKind(UintType(w), Str(x), show);
  }

  /**
   * A signed field given the decimal text of an int64 takes that number
   * when it lies in the field's range, and refuses it as out of range,
   * leaving the field as it was, when it does not.
   */
  lemma TextNarrowsSigned(w: Width, n: int, cur: Data, tag: string, show: Value -> string)
    requires MinInt64 <= n <= MaxInt64 && Conforms(IntType(w), cur)
    ensures w.MinSigned() <= n <= w.MaxSigned() ==>
      SetField(IntType(w), cur, Str(Itoa(n)), tag, show) == Outcome(Plain(Int(w, n)), None)
    ensures !(w.MinSigned() <= n <= w.MaxSigned()) ==>
      SetField(IntType(w), cur, Str(Itoa(n)), tag, show) == Outcome(cur, Some(OutOfRange))
  {
    assert ConvertNumeric.ToInt64(Str(Itoa(n))) == Ok(n) by {
      Strconv.ItoaIsFormatInt(n);
      ConvertNumeric.SignedTextRoundTrip(n);
    }
    ReadTextNarrowsSigned(w, Itoa(n), n, cur, tag, show);
  }

  /**
   * An unsigned field given the decimal text of a uint64 takes that number
   * when it lies in the field's range, and refuses it as out of range when
   * it does not.
   */
  lemma TextNarrowsUnsigned(w: Width, u: nat, cur: Data, tag: string, show: Value -> string)
    requires u < TwoTo64 && Conforms(UintType(w), cur)
    ensures u <= w.MaxUnsigned() ==>
      SetField(UintType(w), cur, Str(Strconv.FormatUint(u, 10)), tag, show) == Outcome(Plain(Uint(w, u)), None)
    ensures u > w.MaxUnsigned() ==>
      SetField(UintType(w), cur, Str(Strconv.FormatUint(u, 10)), tag, show) == Outcome(cur, Some(OutOfRange))
  {
    assert ConvertNumeric.ToUint64(Str(Strconv.FormatUint(u, 10))) == Ok(u) by {
      ConvertNumeric.UnsignedTextRoundTrip(u);
    }
    ReadTextNarrowsUnsigned(w, Strconv.FormatUint(u, 10), u, cur, tag, show);
  }

  /**
   * As written, an integer value of another integer type is convertible,
   * so it is wrapped into the field's range and never reaches the range
   * check: the field takes it without an error.
   */
  lemma IntegerSkipsRangeCheck(w: Width, v: Value, cur: Data, tag: string, show: Value -> string)
    requires (v.Int? || v.Uint?) && v.Fits() && !(v.Int? && v.w == w) && Conforms(IntType(w), cur)
    ensures SetField(IntType(w), cur, v, tag, show) == Outcome(Plain(Int(w, WrapSigned(w, Number(v)))), None)
  {
  }

  /** 300 given as an int to an int8 field becomes 44, while its text is refused. */
  lemma ThreeHundredIntoInt8(n: int, cur: Data, tag: string, show: Value -> string)
    requires n == 300 && Conforms(IntType(W8), cur)
    ensures SetField(IntType(W8), cur, Int(W64, n), tag, show) == Outcome(Plain(Int(W8, 44)), None)
    ensures SetField(IntType(W8), cur, Str(Itoa(n)), tag, show) == Outcome(cur, Some(OutOfRange))
  {
    assert WrapSigned(W8, n) == 44;
    IntegerSkipsRangeCheck(W8, Int(W64, n), cur, tag, show);
    TextNarrowsSigned(W8, n, cur, tag, show);
  }

  /** As written, an integer given to a string field is read as a rune, not formatted with %v. */
  lemma IntegerBecomesRune(x: int, cur: Data, tag: string, show: Value -> string)
    requires MinInt64 <= x <= MaxInt64 && Conforms(StringType, cur)
    ensures SetField(StringType, cur, Int(W64, x), tag, show) == Outcome(Plain(Str(RuneText(x))), None)
    ensures SetField(StringType, cur, Int(W64, 65), tag, show) == Outcome(Plain(Str("A")), None)
  {
  }

  /**
   * A string given to a []byte or a []rune field is converted into its
   * UTF-8 bytes or its code points, and either given back to a string
   * field converts into the same string: the round trips of Go's string
   * conversions.
   */
  lemma TextSlicesRoundTrip(s: string, bytesField: Data, runesField: Data, tag: string, show: Value -> string)
    requires Conforms(ByteSliceType, bytesField) && Conforms(RuneSliceType, runesField)
    ensures SetField(ByteSliceType, bytesField, Str(s), tag, show) == Outcome(Plain(ByteSlice(EncodeRunes(s))), None)
    ensures SetField(RuneSliceType, runesField, Str(s), tag, show) == Outcome(Plain(RuneSlice(CodePoints(s))), None)
    ensures SetSimple(StringType, ByteSlice(EncodeRunes(s)), show) == Ok(Plain(Str(s)))
    ensures SetSimple(StringType, RuneSlice(CodePoints(s)), show) == Ok(Plain(Str(s)))
  {
    DecodeEncode(s);
    RunesTextOfCodePoints(s);
  }

  /** A field's []byte or []rune read back through a string field is what the field held, when its bytes are valid UTF-8 and its runes scalar values. */
  lemma SlicesThroughText(bs: seq<int>, rs: seq<int>, show: Value -> string)
    requires ValidUtf8(bs) && forall i :: 0 <= i < |bs| ==> IsByte(bs[i])
    requires RuneSlice(rs).Fits() && forall i :: 0 <= i < |rs| ==> IsScalar(rs[i])
    ensures SetSimple(StringType, ByteSlice(bs), show) == Ok(Plain(Str(DecodeRunes(bs))))
    ensures EncodeRunes(DecodeRunes(bs)) == bs
    ensures SetSimple(StringType, RuneSlice(rs), show) == Ok(Plain(Str(RunesText(rs))))
    ensures CodePoints(RunesText(rs)) == rs
  {
    EncodeDecode(bs);
    var t := RunesText(rs);
    forall i | 0 <= i < |rs|
      ensures t[i] as int == rs[i]
    {
      assert [t[i]] == RuneText(rs[i]);
    }
  }

  /** "hi" fills a []byte field with the bytes 104, 105, and "é" with the two bytes of its UTF-8 encoding. */
  lemma TextIntoBytesSample(show: Value -> string)
    ensures SetSimple(ByteSliceType, Str("hi"), show) == Ok(Plain(ByteSlice([104, 105])))
    ensures SetSimple(ByteSliceType, Str("\U{E9}"), show) == Ok(Plain(ByteSlice([0xC3, 0xA9])))
    ensures SetSimple(RuneSliceType, Str("hi"), show) == Ok(Plain(RuneSlice([104, 105])))
  {
    assert "hi"[1..] == "i" && "i"[1..] == [];
    assert EncodeRunes("hi") == [104, 105];
    assert EncodeRunes("\U{E9}") == [0xC3, 0xA9];
    assert CodePoints("hi") == [104, 105];
  }

  /**
   * setFieldValue's fallback as evidently intended: the range check and
   * %v formatting apply to integer values too, instead of reflect's
   * Convert, which wraps them and reads them as runes. Every other value
   * is set as setFieldValue sets it.
   */
  function SetSimpleChecked(t: FieldType, v: Value, show: Value -> string): (r: Result<Data, ConvertError>)
    requires Simple(t) && !v.Nil? && v.Fits()
    ensures r.Ok? ==> Conforms(t, r.value)
    ensures t.IntType? && r.Ok? && !AssignableTo(v, t) ==> ConvertNumeric.Denoted(v) == Some(r.value.v.i)
    ensures !(v.Int? || v.Uint?) ==> r == SetSimple(t, v, show)
  {
    if AssignableTo(v, t) then Ok(Plain(v))
    else if ConvertibleTo(v, t) && !(v.Int? || v.Uint?) then Ok(Converted(v, t))
    else if t.IntType? then
      match ConvertNumeric.ToSignedChecked(v, t.w)
      case Ok(i) => Ok(Plain(Int(t.w, i)))
      case Err(e) => Err(e)
    else ByKind(t, v, show)
  }

  /**
   * With the check, an integer value takes a sized integer field exactly
   * when its number lies in the field's range, and keeps that number; an
   * integer given to a string field is its decimal text.
   */
  lemma CheckedIntegers(t: FieldType, v: Value, show: Value -> string)
    requires (v.Int? || v.Uint?) && v.Fits()
    ensures t.IntType? ==>
      (SetSimpleChecked(t, v, show).Ok? <==> t.w.MinSigned() <= Number(v) <= t.w.MaxSigned())
    ensures t.UintType? ==>
      (SetSimpleChecked(t, v, show).Ok? <==> 0 <= Number(v) <= t.w.MaxUnsigned())
    ensures (t.IntType? || t.UintType?) && SetSimpleChecked(t, v, show).Ok? ==>
      Number(SetSimpleChecked(t, v, show).value.v) == Number(v)
    ensures t.StringType? ==> SetSimpleChecked(t, v, show) == Ok(Plain(Str(Itoa(Number(v)))))
  {
    if t.IntType? {
      ConvertNumeric.ToSignedCheckedComplete(v, t.w);
      if v.Int? {
        assert ConvertNumeric.ToInt64(v) == Ok(v.i);
      }
    } else if t.StringType? {
      Strconv.ItoaIsFormatInt(Number(v));
    }
  }

  /** 300 as an int is refused by an int8 field, and 65 is "65" in a string field. */
  lemma CheckedSamples(show: Value -> string)
    ensures SetSimpleChecked(IntType(W8), Int(W64, 300), show) == Err(OutOfRange)
    ensures SetSimpleChecked(StringType, Int(W64, 65), show) == Ok(Plain(Str(Itoa(65))))
  {
    CheckedIntegers(IntType(W8), Int(W64, 300), show);
    CheckedIntegers(StringType, Int(W64, 65), show);
  }

  // ---------------------------------------------------------------------
  // FillStructFromMap

  /** A variable a Go pointer points to: its type, which never changes, and what it holds. */
  class Cell {
    const typ: FieldType
    var data: Data

    /** reflect.New: a new variable of the type, holding its zero value. */
    constructor (typ: FieldType)
      ensures this.typ == typ && data == Zero(typ)
    {
      this.typ := typ;
      data := Zero(typ);
    }
  }

  /** FillStructFromMap's out argument: nil, a value that is not a pointer, or a pointer, nil when the cell is null. */
  datatype Target = NilOut | ValueOut | PointerOut(cell: Cell?)

  /**
   * FillStructFromMap: a nil map, a nil out, an out that is no pointer or
   * a nil pointer, and a pointer to something other than a struct are
   * errors that change nothing. Otherwise each exported, unskipped field
   * whose key is in m is set by setFieldValue, in field order, and the
   * first failure is returned with the fields before it already set.
   */
  method FillStructFromMap(m: Option<map<string, Value>>, out: Target, tag: string, show: Value -> string)
      returns (err: Option<ConvertError>)
    requires m.Some? ==> forall k :: k in m.value ==> m.value[k].Fits()
    requires out.PointerOut? && out.cell != null ==> Conforms(out.cell.typ, out.cell.data)
    modifies if out.PointerOut? && out.cell != null then {out.cell} else {}
    ensures m.None? ==> err == Some(NilInput)
    ensures m.Some? && out.NilOut? ==> err == Some(NilTarget)
    ensures m.Some? && (out.ValueOut? || out == PointerOut(null)) ==> err == Some(NotStructPointer)
    ensures m.Some? && out.PointerOut? && out.cell != null && !out.cell.typ.StructType? ==> err == Some(NotStruct)
    ensures out.PointerOut? && out.cell != null ==>
      if m.Some? && out.cell.typ.StructType?
      then Outcome(out.cell.data, err) == FillFrom(out.cell.typ, 0, m.value, old(out.cell.data.fields), tag, show)
      else out.cell.data == old(out.cell.data)
  {
    if m.None? {
      return Some(NilInput);
    }
    if out.NilOut? {
      return Some(NilTarget);
    }
    if out.ValueOut? || out.cell == null {
      return Some(NotStructPointer);
    }
    var c := out.cell;
    var t := c.typ;
    if !t.StructType? {
      return Some(NotStruct);
    }
    var mm := m.value;
    ghost var start := c.data.fields;
    for i := 0 to |t.fields|
      invariant Conforms(t, c.data)
      invariant FillFrom(t, i, mm, c.data.fields, tag, show) == FillFrom(t, 0, mm, start, tag, show)
    {
      var d := t.fields[i];
      if !d.field.exported {
        continue;
      }
      var key := FieldKey(d.field, tag);
      if key.None? || key.value !in mm {
        continue;
      }
      var o := SetField(d.typ, c.data.fields[i], mm[key.value], tag, show);
      c.data := Record(c.data.fields[i := o.after]);
      if o.failure.Some? {
        return o.failure;
      }
    }
    return None;
  }

  // ---------------------------------------------------------------------
  // ToMapFromStruct

  /** A value in ToMapFromStruct's map: nil, a nested struct's map, or the field's own value. */
  datatype Entry = NilEntry | Nested(entries: map<string, Entry>) | Held(d: Data)

  /** A non-nil interface{} value, with its dynamic type. */
  datatype Reflected = Reflected(typ: FieldType, data: Data)

  /**
   * The entry for a field: nil for a nil pointer, the map of the struct a
   * pointer points to or of a nested struct, what a pointer points to, or
   * the field's value.
   */
  function EntryOf(t: FieldType, d: Data, tag: string): (e: Entry)
    requires Conforms(t, d)
    ensures t.PointerType? && d.NilPtr? ==> e == NilEntry
    ensures e.Nested? <==> t.StructType? || (t.PointerType? && t.elem.StructType? && d.Ptr?)
    decreases t, 1, 0
  {
    if t.PointerType? then
      if d.NilPtr? then NilEntry
      else if t.elem.StructType? then
        assert Conforms(t.elem, d.target);
        Nested(Entries(t.elem, d.target.fields, tag, |t.elem.fields|))
      else Held(d.target)
    else if t.StructType? then Nested(Entries(t, d.fields, tag, |t.fields|))
    else Held(d)
  }

  /** The map ToMapFromStruct's loop has built after the first n fields of a struct of type t holding vals. */
  function Entries(t: FieldType, vals: seq<Data>, tag: string, n: nat): (out: map<string, Entry>)
    requires t.StructType? && n <= |t.fields| && Conforms(t, Record(vals))
    decreases t, 0, n
  {
    if n == 0 then map[]
    else
      var prev := Entries(t, vals, tag, n - 1);
      var d := t.fields[n - 1];
      if Keyed(d, tag) then prev[FieldKey(d.field, tag).value := EntryOf(d.typ, vals[n - 1], tag)]
      else prev
  }

  /** The struct ToMapFromStruct reads: the value itself, or what a non-nil pointer points to. */
  function Deref(x: Reflected): (y: Reflected)
    requires Conforms(x.typ, x.data)
    ensures Conforms(y.typ, y.data)
  {
    if x.typ.PointerType? && x.data.Ptr? then Reflected(x.typ.elem, x.data.target) else x
  }

  /** The loop of ToMapFromStruct over a struct's fields, recursing into nested structs. */
  method StructEntries(t: FieldType, vals: seq<Data>, tag: string) returns (out: map<string, Entry>)
    requires t.StructType? && Conforms(t, Record(vals))
    ensures out == Entries(t, vals, tag, |t.fields|)
    decreases t
  {
    out := map[];
    for i := 0 to |t.fields|
      invariant out == Entries(t, vals, tag, i)
    {
      var d := t.fields[i];
      if !d.field.exported {
        continue;
      }
      var key := FieldKey(d.field, tag);
      if key.None? {
        continue;
      }
      var fv := vals[i];
      if d.typ.PointerType? {
        if fv.NilPtr? {
          out := out[key.value := NilEntry];
          continue;
        }
        if d.typ.elem.StructType? {
          assert Conforms(d.typ.elem, fv.target);
          var nested := StructEntries(d.typ.elem, fv.target.fields, tag);
          out := out[key.value := Nested(nested)];
        } else {
          out := out[key.value := Held(fv.target)];
        }
        continue;
      }
      if d.typ.StructType? {
        var nested := StructEntries(d.typ, fv.fields, tag);
        out := out[key.value := Nested(nested)];
        continue;
      }
      out := out[key.value := Held(fv)];
    }
  }

  /**
   * ToMapFromStruct: nil is an error, a nil pointer is an error, and after
   * one dereference anything but a struct is an error; a struct gives the
   * map of its exported, unskipped fields.
   */
  method ToMapFromStruct(v: Option<Reflected>, tag: string) returns (r: Result<map<string, Entry>, ConvertError>)
    requires v.Some? ==> Conforms(v.value.typ, v.value.data)
    ensures v.None? ==> r == Err(NilInput)
    ensures v.Some? && v.value.typ.PointerType? && v.value.data.NilPtr? ==> r == Err(NilPointer)
    ensures v.Some? && !(v.value.typ.PointerType? && v.value.data.NilPtr?) ==>
      var x := Deref(v.value);
      if x.typ.StructType? then r == Ok(Entries(x.typ, x.data.fields, tag, |x.typ.fields|))
      else r == Err(NotStruct)
  {
    if v.None? {
      return Err(NilInput);
    }
    var x := v.value;
    if x.typ.PointerType? {
      if x.data.NilPtr? {
        return Err(NilPointer);
      }
      x := Reflected(x.typ.elem, x.data.target);
    }
    if !x.typ.StructType? {
      return Err(NotStruct);
    }
    var out := StructEntries(x.typ, x.data.fields, tag);
    return Ok(out);
  }

  // ---------------------------------------------------------------------
  // What ToMapFromStruct's map holds

  /** The keys of the keyed fields among the first n. */
  function KeysUpTo(t: FieldType, tag: string, n: nat): set<string>
    requires t.StructType? && n <= |t.fields|
  {
    set j | 0 <= j < n && Keyed(t.fields[j], tag) :: FieldKey(t.fields[j].field, tag).value
  }

  /** Every entry was written by a keyed field, under that field's key. */
  lemma {:induction false} EntryWriter(t: FieldType, vals: seq<Data>, tag: string, n: nat, k: string) returns (j: nat)
    requires t.StructType? && n <= |t.fields| && Conforms(t, Record(vals))
    requires k in Entries(t, vals, tag, n)
    ensures j < n && Keyed(t.fields[j], tag) && FieldKey(t.fields[j].field, tag) == Some(k)
    ensures Entries(t, vals, tag, n)[k] == EntryOf(t.fields[j].typ, vals[j], tag)
    decreases n
  {
    var d := t.fields[n - 1];
    if Keyed(d, tag) && FieldKey(d.field, tag).value == k {
      j := n - 1;
    } else {
      j := EntryWriter(t, vals, tag, n - 1, k);
    }
  }

  /** The last keyed field with a given key, among the first n, wrote the entry under it. */
  predicate LastWithKey(t: FieldType, tag: string, j: nat, n: nat)
    requires t.StructType? && j < n <= |t.fields|
  {
    Keyed(t.fields[j], tag)
    && forall l :: j < l < n && Keyed(t.fields[l], tag) ==> FieldKey(t.fields[l].field, tag) != FieldKey(t.fields[j].field, tag)
  }

  /** The entry under a key is the last keyed field's with that key: later fields overwrite earlier ones. */
  lemma {:induction false} LastWriterWins(t: FieldType, vals: seq<Data>, tag: string, n: nat, j: nat)
    requires t.StructType? && j < n <= |t.fields| && Conforms(t, Record(vals))
    requires LastWithKey(t, tag, j, n)
    ensures FieldKey(t.fields[j].field, tag).value in Entries(t, vals, tag, n)
    ensures Entries(t, vals, tag, n)[FieldKey(t.fields[j].field, tag).value] == EntryOf(t.fields[j].typ, vals[j], tag)
    decreases n
  {
    if j < n - 1 {
      LastWriterWins(t, vals, tag, n - 1, j);
    }
  }

  /** The map's keys are exactly the keys of the exported, unskipped fields. */
  lemma EntriesKeys(t: FieldType, vals: seq<Data>, tag: string)
    requires t.StructType? && Conforms(t, Record(vals))
    ensures Entries(t, vals, tag, |t.fields|).Keys == KeysUpTo(t, tag, |t.fields|)
  {
    var n := |t.fields|;
    var e := Entries(t, vals, tag, n);
    forall k | k in e
      ensures k in KeysUpTo(t, tag, n)
    {
      var j := EntryWriter(t, vals, tag, n, k);
    }
    forall k | k in KeysUpTo(t, tag, n)
      ensures k in e
    {
      var j :| 0 <= j < n && Keyed(t.fields[j], tag) && FieldKey(t.fields[j].field, tag).value == k;
      while j < n - 1 && !LastWithKey(t, tag, j, n)
        invariant j < n && Keyed(t.fields[j], tag) && FieldKey(t.fields[j].field, tag).value == k
        decreases n - j
      {
        var l :| j < l < n && Keyed(t.fields[l], tag) && FieldKey(t.fields[l].field, tag) == FieldKey(t.fields[j].field, tag);
        j := l;
      }
      LastWriterWins(t, vals, tag, n, j);
    }
  }

  /** A nil pointer field, the last with its key, is a nil entry. */
  lemma NilPointerEntry(t: FieldType, vals: seq<Data>, tag: string, j: nat)
    requires t.StructType? && j < |t.fields| && Conforms(t, Record(vals))
    requires LastWithKey(t, tag, j, |t.fields|) && t.fields[j].typ.PointerType? && vals[j].NilPtr?
    ensures FieldKey(t.fields[j].field, tag).value in Entries(t, vals, tag, |t.fields|)
    ensures Entries(t, vals, tag, |t.fields|)[FieldKey(t.fields[j].field, tag).value] == NilEntry
  {
    LastWriterWins(t, vals, tag, |t.fields|, j);
  }

  // ---------------------------------------------------------------------
  // From a struct to a map and back

  /** The loop succeeds when every selected field from i on takes its entry. */
  lemma {:induction false} FillSucceeds(t: FieldType, i: nat, m: map<string, Value>, cur: seq<Data>, tag: string, show: Value -> string)
    requires t.StructType? && i <= |t.fields| && Conforms(t, Record(cur))
    requires forall k :: k in m ==> m[k].Fits()
    requires forall j :: i <= j < |t.fields| && Selected(t.fields[j], m, tag) ==>
      SetField(t.fields[j].typ, cur[j], m[FieldKey(t.fields[j].field, tag).value], tag, show).failure.None?
    ensures FillFrom(t, i, m, cur, tag, show).failure.None?
    decreases |t.fields| - i
  {
    if i < |t.fields| {
      var d := t.fields[i];
      if !Selected(d, m, tag) {
        FillSucceeds(t, i + 1, m, cur, tag, show);
      } else {
        var o := SetField(d.typ, cur[i], m[FieldKey(d.field, tag).value], tag, show);
        FillSucceeds(t, i + 1, m, cur[i := o.after], tag, show);
      }
    }
  }

  /** The entries that hold a plain value, as map[string]interface{} values. */
  function PlainValues(e: map<string, Entry>): (m: map<string, Value>)
    ensures forall k :: k in m <==> k in e && e[k].Held? && e[k].d.Plain?
  {
    map k | k in e && e[k].Held? && e[k].d.Plain? :: e[k].d.v
  }

  /**
   * A struct whose fields are all exported, under keys of their own, of a
   * type that is neither a struct nor a pointer, and hold no nil.
   */
  predicate Flat(t: FieldType, vals: seq<Data>, tag: string)
    requires t.StructType? && Conforms(t, Record(vals))
  {
    (forall j :: 0 <= j < |t.fields| ==> Keyed(t.fields[j], tag) && Simple(t.fields[j].typ) && vals[j].Plain? && !vals[j].v.Nil?)
    && (forall j, l :: 0 <= j < l < |t.fields| ==> FieldKey(t.fields[j].field, tag) != FieldKey(t.fields[l].field, tag))
  }

  /** In a flat struct the entry of the field at j is its own value, under its own key. */
  lemma FlatEntry(t: FieldType, vals: seq<Data>, tag: string, j: nat)
    requires t.StructType? && Conforms(t, Record(vals)) && Flat(t, vals, tag) && j < |t.fields|
    ensures FieldKey(t.fields[j].field, tag).value in PlainValues(Entries(t, vals, tag, |t.fields|))
    ensures PlainValues(Entries(t, vals, tag, |t.fields|))[FieldKey(t.fields[j].field, tag).value] == vals[j].v
  {
    assert Conforms(t.fields[j].typ, vals[j]);
    LastWriterWins(t, vals, tag, |t.fields|, j);
  }

  /**
   * ToMapFromStruct, then FillStructFromMap with the same tag, restores a
   * flat struct whatever its fields held before: each field's entry is
   * assignable to it.
   */
  lemma FlatRoundTrip(t: FieldType, vals: seq<Data>, cur: seq<Data>, tag: string, show: Value -> string)
    requires t.StructType? && Conforms(t, Record(vals)) && Conforms(t, Record(cur)) && Flat(t, vals, tag)
    ensures forall k :: k in PlainValues(Entries(t, vals, tag, |t.fields|)) ==> PlainValues(Entries(t, vals, tag, |t.fields|))[k].Fits()
    ensures FillFrom(t, 0, PlainValues(Entries(t, vals, tag, |t.fields|)), cur, tag, show) == Outcome(Record(vals), None)
  {
    var n := |t.fields|;
    var e := Entries(t, vals, tag, n);
    var m := PlainValues(e);
    forall k | k in m
      ensures m[k].Fits()
    {
      var j := EntryWriter(t, vals, tag, n, k);
      assert Conforms(t.fields[j].typ, vals[j]);
    }
    forall j | 0 <= j < n
      ensures Selected(t.fields[j], m, tag)
      ensures SetField(t.fields[j].typ, cur[j], m[FieldKey(t.fields[j].field, tag).value], tag, show) == Outcome(vals[j], None)
    {
      FlatEntry(t, vals, tag, j);
      assert Conforms(t.fields[j].typ, vals[j]) && Conforms(t.fields[j].typ, cur[j]);
      assert AssignableTo(vals[j].v, t.fields[j].typ);
    }
    FillSucceeds(t, 0, m, cur, tag, show);
    var after := FillFrom(t, 0, m, cur, tag, show).after;
    forall j | 0 <= j < n
      ensures after.fields[j] == vals[j]
    {
      FillSetsSelected(t, 0, m, cur, tag, show, j);
    }
  }
}
