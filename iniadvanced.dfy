// The options-driven INI reader of iniutil/ini_advanced.go: inline comments,
// ':' as a separator, values continued over lines ending in '\', included
// configurations, repeated keys joined with ',' and `${...}` interpolation
// with write-back. Go reads through a bufio.Scanner and opens included files;
// here the reader takes its lines, and an include directive asks a resolver
// for the configuration the included stream loads to.

module IniAdvanced {

  import opened Wrappers
  import opened GoStd
  import opened IniUtil
  import Seqs
  import Collections

  /** ParseOptions without its I/O fields (IncludeResolver, BaseDir). */
  datatype Options = Options(
    inlineComment: bool,
    allowColon: bool,
    allowMultiline: bool,
    includeOverwrite: bool,
    enableInterpolation: bool,
    appendDuplicateKeys: bool)

  /** The zero ParseOptions: every feature off. */
  const Defaults := Options(false, false, false, false, false, false)

  /**
   * The configuration an `.include` argument loads to, or the error opening
   * or loading it: the IncludeResolver (or os.Open on BaseDir) followed by
   * LoadFromReaderWithOptions on the stream.
   */
  type Resolver = string -> Result<Data, IniError>

  // ---------------------------------------------------------------------
  // String helpers

  /** strings.TrimRight(s, string(c)): every trailing c removed. */
  function TrimTrailing(s: string, c: char): (r: string)
    ensures |r| <= |s| && r == s[..|r|]
    ensures r == [] || r[|r| - 1] != c
    ensures forall i :: |r| <= i < |s| ==> s[i] == c
  {
    if s != [] && s[|s| - 1] == c then TrimTrailing(s[..|s| - 1], c) else s
  }

  predicate HasPrefix(s: string, p: string)
  {
    |p| <= |s| && s[..|p|] == p
  }

  // ---------------------------------------------------------------------
  // Inline comments

  /** The number of double quotes in s. */
  function Quotes(s: string): nat
  {
    if s == [] then 0 else Quotes(s[..|s| - 1]) + (if s[|s| - 1] == '"' then 1 else 0)
  }

  /** Position i starts a comment: ';' or '#' outside double quotes. */
  predicate CommentAt(s: string, i: int)
    requires 0 <= i < |s|
  {
    (s[i] == ';' || s[i] == '#') && Quotes(s[..i]) % 2 == 0
  }

  /** Where the first comment in s starts, or |s| when it has none. */
  function CommentStart(s: string): (n: nat)
    ensures n <= |s|
    ensures n < |s| ==> CommentAt(s, n)
    ensures forall j :: 0 <= j < n ==> !CommentAt(s, j)
  {
    CommentFrom(s, 0)
  }

  function CommentFrom(s: string, i: nat): (n: nat)
    requires i <= |s|
    ensures i <= n <= |s|
    ensures n < |s| ==> CommentAt(s, n)
    ensures forall j :: i <= j < n ==> !CommentAt(s, j)
    decreases |s| - i
  {
    if i == |s| then i
    else if CommentAt(s, i) then i
    else CommentFrom(s, i + 1)
  }

  /** stripInlineComment: the text before the first comment, trimmed. */
  method StripInlineComment(s: string) returns (r: string)
    ensures r == TrimSpace(s[..CommentStart(s)])
  {
    var inQuote := false;
    for i := 0 to |s|
      invariant inQuote <==> Quotes(s[..i]) % 2 == 1
      invariant forall j :: 0 <= j < i ==> !CommentAt(s, j)
    {
      QuotesStep(s, i);
      var ch := s[i];
      if ch == '"' {
        inQuote := !inQuote;
        continue;
      }
      if !inQuote && (ch == ';' || ch == '#') {
        FirstComment(s, i);
        return TrimSpace(s[..i]);
      }
    }
    FirstComment(s, |s|);
    return TrimSpace(s);
  }

  lemma QuotesStep(s: string, i: nat)
    requires i < |s|
    ensures Quotes(s[..i + 1]) == Quotes(s[..i]) + (if s[i] == '"' then 1 else 0)
  {
    assert s[..i + 1][..i] == s[..i];
  }

  /** A comment at i with none before it, or none at all when i == |s|, is the first. */
  lemma FirstComment(s: string, i: nat)
    requires i <= |s|
    requires i < |s| ==> CommentAt(s, i)
    requires forall j :: 0 <= j < i ==> !CommentAt(s, j)
    ensures CommentStart(s) == i && s[..|s|] == s
  {
  }

  /** The comment spec as a function, for the parser's specification. */
  function Stripped(s: string): string
  {
    TrimSpace(s[..CommentStart(s)])
  }

  /** Without ';' and '#' nothing is cut; only the surrounding white space goes. */
  lemma StripNoComment(s: string)
    requires ';' !in s && '#' !in s
    ensures Stripped(s) == TrimSpace(s)
  {
    assert s[..|s|] == s;
  }

  // ---------------------------------------------------------------------
  // Key and value separator

  /**
   * The separator position: the first '=' or, with allowColon, the first
   * ':' when it comes earlier (or there is no '='); -1 for neither.
   */
  function SeparatorIndex(s: string, allowColon: bool): (idx: int)
    ensures -1 <= idx < |s|
    ensures idx >= 0 ==> s[idx] == '=' || (allowColon && s[idx] == ':')
    ensures forall j :: 0 <= j < |s| && (idx == -1 || j < idx) ==> s[j] != '=' && (!allowColon || s[j] != ':')
  {
    var eq := IndexRune(s, '=');
    var colon := if allowColon then IndexRune(s, ':') else -1;
    if eq == -1 || (colon != -1 && colon < eq) then colon else eq
  }

  /** Without allowColon the separator is the first '=', as in LoadFromReader. */
  lemma SeparatorWithoutColon(s: string)
    ensures SeparatorIndex(s, false) == IndexRune(s, '=')
  {
  }

  // ---------------------------------------------------------------------
  // The reader

  /** The reader's state between lines. */
  datatype Reader = Reader(data: Data, section: string, inMultiline: bool, multiKey: string, multiVal: string)

  const Start := Reader(map[], "", false, "", "")

  /** The section created when missing. */
  function Ensure(d: Data, section: string): (r: Data)
    ensures section in r && Entries(r, section) == Entries(d, section)
    ensures forall s :: s in d ==> s in r && r[s] == d[s]
    ensures forall s :: s in r ==> s in d || s == section
  {
    if section in d then d else d[section := map[]]
  }

  /**
   * A value stored under key in section: joined to the old value with ','
   * (both trimmed) when appending and the key is present, else replacing it.
   */
  function Store(d: Data, section: string, key: string, val: string, append: bool): (r: Data)
    ensures r.Keys == d.Keys + {section}
    ensures forall s :: s in d && s != section ==> r[s] == d[s]
    ensures r[section].Keys == Entries(d, section).Keys + {key}
    ensures forall k :: k in Entries(d, section) && k != key ==> r[section][k] == d[section][k]
    ensures append && Present(d, section, key) ==> r[section][key] == TrimSpace(d[section][key]) + "," + TrimSpace(val)
    ensures !(append && Present(d, section, key)) ==> r[section][key] == val
  {
    var kv := Entries(d, section);
    d[section := kv[key := if append && key in kv then TrimSpace(kv[key]) + "," + TrimSpace(val) else val]]
  }

  predicate IsInclude(s: string)
  {
    HasPrefix(s, ".include ") || HasPrefix(s, "!include ")
  }

  /** The argument of an include directive, trimmed and without its quotes. */
  function IncludeArg(s: string): string
  {
    Unquote(TrimSpace(TrimPrefix(TrimPrefix(s, ".include "), "!include ")))
  }

  /** A raw line as the reader sees it: trimmed, the first without a byte-order mark. */
  function Trimmed(raw: string, first: bool): string
  {
    TrimSpace(if first then TrimPrefix(raw, Bom) else raw)
  }

  /** What reading one trimmed line does to the state. */
  function Step(opt: Options, resolver: Resolver, st: Reader, s: string): Result<Reader, IniError>
  {
    if s == [] || s[0] == ';' || s[0] == '#' then Ok(st)
    else if st.inMultiline then Ok(Continue(opt, st, s))
    else if IsInclude(s) then
      match resolver(IncludeArg(s))
      case Err(e) => Err(e)
      case Ok(inc) => Ok(st.(data := MergeData(st.data, inc, opt.includeOverwrite)))
    else if s[0] == '[' && s[|s| - 1] == ']' then
      var name := TrimSpace(s[1..|s| - 1]);
      Ok(st.(data := Ensure(st.data, name), section := name))
    else Ok(Entry(opt, st, s))
  }

  /**
   * A line inside a multi-line value: its text without the trailing '\'
   * joins the value on a new line; a line not ending in '\' ends the value,
   * which is stored trimmed.
   */
  function Continue(opt: Options, st: Reader, s: string): Reader
    requires s != []
  {
    var mv := st.multiVal + "\n" + TrimTrailing(s, '\\');
    if s[|s| - 1] == '\\' then st.(multiVal := mv)
    else Reader(Store(st.data, st.section, st.multiKey, TrimSpace(mv), opt.appendDuplicateKeys), st.section, false, "", "")
  }

  /**
   * A `key = value` line: skipped without a separator after the first rune;
   * otherwise the value, trimmed, its comment cut and its quotes removed,
   * is stored or, ending in '\' with allowMultiline, starts a multi-line value.
   */
  function EntryValue(opt: Options, s: string, idx: nat): string
    requires idx < |s|
  {
    var v := TrimSpace(s[idx + 1..]);
    Unquote(if opt.inlineComment then Stripped(v) else v)
  }

  function Entry(opt: Options, st: Reader, s: string): Reader
    requires s != []
  {
    var idx := SeparatorIndex(s, opt.allowColon);
    if idx <= 0 then st
    else
      var key := TrimSpace(s[..idx]);
      var val := EntryValue(opt, s, idx);
      if opt.allowMultiline && s[|s| - 1] == '\\' then
        st.(data := Ensure(st.data, st.section), inMultiline := true, multiKey := key, multiVal := TrimTrailing(val, '\\'))
      else
        st.(data := Store(st.data, st.section, key, val, opt.appendDuplicateKeys))
  }

  /** The state after reading the trimmed lines ss from st, or the first error. */
  function Run(opt: Options, resolver: Resolver, st: Reader, ss: seq<string>): Result<Reader, IniError>
    decreases |ss|
  {
    if ss == [] then Ok(st)
    else
      match Step(opt, resolver, st, ss[0])
      case Err(e) => Err(e)
      case Ok(next) => Run(opt, resolver, next, ss[1..])
  }

  /** The input lines as the reader sees them. */
  function TrimmedLines(lines: seq<string>): (ss: seq<string>)
    ensures |ss| == |lines|
  {
    Seqs.MapFirst(lines, Trimmed, true)
  }

  // ---------------------------------------------------------------------
  // Interpolation

  /** The recursion budget Interpolate gives each value. */
  const MaxDepth := 10

  /** The key of an entry on the stack of values being resolved. */
  function Path(section: string, key: string): string
  {
    section + "|" + key
  }

  /** The result of resolving, and the data after the write-backs made on the way. */
  datatype Outcome = Outcome(res: Result<string, IniError>, data: Data)

  /** The same sections and, in each, the same keys. */
  ghost predicate SameEntries(a: Data, b: Data)
  {
    && (forall s :: s in a <==> s in b)
    && (forall s, k :: Present(a, s, k) <==> Present(b, s, k))
  }

  /** The first '}' at or after k, or |v| when there is none. */
  function CloseFrom(v: string, k: nat): (j: nat)
    requires k <= |v|
    ensures k <= j <= |v|
    ensures j < |v| ==> v[j] == '}'
    ensures forall m :: k <= m < j ==> v[m] != '}'
    decreases |v| - k
  {
    if k == |v| || v[k] == '}' then k else CloseFrom(v, k + 1)
  }

  /**
   * The entry a placeholder names: `sec.key` splits at the first '.',
   * anything else is a key of the current section.
   */
  function Reference(section: string, token: string): (string, string)
  {
    var p := IndexRune(token, '.');
    if p == -1 then (section, token) else (token[..p], token[p + 1..])
  }

  /** `${key}` names the current section; `${sec.key}` splits at the first '.'. */
  lemma ReferenceSplits(section: string, token: string)
    ensures var r := Reference(section, token);
      && ('.' !in token ==> r == (section, token))
      && ('.' in token ==> r.0 + "." + r.1 == token && '.' !in r.0)
  {
    var p := IndexRune(token, '.');
    if p != -1 {
      assert token == token[..p] + "." + token[p + 1..];
    }
  }

  /**
   * resolveValue: the value of section/key with its placeholders expanded,
   * depth levels deep, and written back; `visiting` holds the paths being
   * resolved further up, and meeting one again is a cycle.
   */
  function Resolve(d: Data, section: string, key: string, depth: int, visiting: set<string>): Outcome
    decreases if depth < 0 then 0 else depth, 1, 0
  {
    var path := Path(section, key);
    if path in visiting then Outcome(Err(InterpolationCycle(path)), d)
    else
      var v := Lookup(d, section, key, "");
      if v == "" || depth <= 0 then Outcome(Ok(v), d)
      else
        var o := Expand(d, section, v, 0, "", depth, visiting + {path});
        match o.res
        case Err(_) => o
        case Ok(out) => Outcome(Ok(out), Assign(o.data, section, key, out))
  }

  /**
   * The scan of v from position i with out written so far: `${token}` is
   * replaced by the resolved reference, an unclosed `${` and every other
   * rune are copied.
   */
  function Expand(d: Data, section: string, v: string, i: nat, out: string, depth: int, visiting: set<string>): (o: Outcome)
    requires i <= |v| && depth >= 1
    decreases depth, 0, |v| - i
  {
    if i == |v| then Outcome(Ok(out), d)
    else if v[i] == '$' && i + 1 < |v| && v[i + 1] == '{' then
      var j := CloseFrom(v, i + 2);
      if j == |v| then Expand(d, section, v, i + 1, out + [v[i]], depth, visiting)
      else
        var ref := Reference(section, v[i + 2..j]);
        var o := Resolve(d, ref.0, ref.1, depth - 1, visiting);
        match o.res
        case Err(_) => o
        case Ok(rv) => Expand(o.data, section, v, j + 1, out + rv, depth, visiting)
    else Expand(d, section, v, i + 1, out + [v[i]], depth, visiting)
  }

  /** resolveValue on a configuration: the value resolved, and the write-backs made in c. */
  method ResolveValue(c: Config, section: string, key: string, depth: int, visiting: set<string>)
    returns (r: Result<string, IniError>)
    modifies c
    ensures Outcome(r, c.data) == Resolve(old(c.data), section, key, depth, visiting)
    decreases if depth < 0 then 0 else depth, 1
  {
    var path := Path(section, key);
    if path in visiting {
      return Err(InterpolationCycle(path));
    }
    var v := c.GetString(section, key, "");
    if v == "" || depth <= 0 {
      return Ok(v);
    }
    var inner := visiting + {path};
    ResolveExpands(c.data, section, key, depth, visiting);
    var e := ExpandValue(c, section, v, depth, inner);
    if e.Err? {
      return e;
    }
    c.Set(section, key, e.value);
    return e;
  }

  /** The scan of resolveValue: v with its placeholders expanded, left to right. */
  method ExpandValue(c: Config, section: string, v: string, depth: int, inner: set<string>)
    returns (r: Result<string, IniError>)
    requires depth >= 1
    modifies c
    ensures Outcome(r, c.data) == Expand(old(c.data), section, v, 0, "", depth, inner)
    decreases depth, 0, 1
  {
    var out := "";
    var i := 0;
    while i < |v|
      invariant 0 <= i <= |v|
      invariant Expand(c.data, section, v, i, out, depth, inner) == Expand(old(c.data), section, v, 0, "", depth, inner)
      decreases |v| - i
    {
      var step := ScanStep(c, section, v, i, out, depth, inner);
      if step.Err? {
        return Err(step.error);
      }
      i, out := step.value.0, step.value.1;
    }
    return Ok(out);
  }

  /**
   * One step of the scan at i: a closed placeholder is replaced by the value
   * it refers to, any other rune is copied; the result is where the scan goes
   * on and the output so far.
   */
  method ScanStep(c: Config, section: string, v: string, i: nat, out: string, depth: int, inner: set<string>)
    returns (r: Result<(nat, string), IniError>)
    requires i < |v| && depth >= 1
    modifies c
    ensures r.Err? ==> Expand(old(c.data), section, v, i, out, depth, inner) == Outcome(Err(r.error), c.data)
    ensures r.Ok? ==> i < r.value.0 <= |v|
    ensures r.Ok? ==>
      Expand(old(c.data), section, v, i, out, depth, inner) == Expand(c.data, section, v, r.value.0, r.value.1, depth, inner)
    decreases depth, 0, 0
  {
    if v[i] == '$' && i + 1 < |v| && v[i + 1] == '{' {
      var j := FindClose(v, i + 2);
      if j < |v| {
        var refSec, refKey := SplitReference(section, v[i + 2..j]);
        var rv := ResolveValue(c, refSec, refKey, depth - 1, inner);
        ExpandResolves(old(c.data), section, v, i, out, depth, inner, j, refSec, refKey, Outcome(rv, c.data));
        if rv.Err? {
          return Err(rv.error);
        }
        return Ok((j + 1, out + rv.value));
      }
    }
    ExpandCopies(c.data, section, v, i, out, depth, inner);
    return Ok((i + 1, out + [v[i]]));
  }

  /** The scan for the '}' closing a placeholder. */
  method FindClose(v: string, k: nat) returns (j: nat)
    requires k <= |v|
    ensures j == CloseFrom(v, k)
  {
    j := k;
    while j < |v| && v[j] != '}'
      invariant k <= j <= |v|
      invariant CloseFrom(v, j) == CloseFrom(v, k)
    {
      j := j + 1;
    }
  }

  /** The placeholder's token split at its first '.' into section and key. */
  method SplitReference(section: string, token: string) returns (refSec: string, refKey: string)
    ensures (refSec, refKey) == Reference(section, token)
  {
    refSec, refKey := section, token;
    var p := IndexRune(token, '.');
    if p != -1 {
      refSec, refKey := token[..p], token[p + 1..];
    }
  }

  /** Resolving a present, non-empty value with budget left expands it and writes it back. */
  lemma ResolveExpands(d: Data, section: string, key: string, depth: int, visiting: set<string>)
    requires Path(section, key) !in visiting && Lookup(d, section, key, "") != "" && depth > 0
    ensures var o := Expand(d, section, Lookup(d, section, key, ""), 0, "", depth, visiting + {Path(section, key)});
      Resolve(d, section, key, depth, visiting)
        == if o.res.Err? then o else Outcome(o.res, Assign(o.data, section, key, o.res.value))
  {
  }

  /** A scan that ends without error and without write-backs: its output is written back. */
  lemma ResolveWritesBack(d: Data, section: string, key: string, depth: int, visiting: set<string>, w: string)
    requires Path(section, key) !in visiting && Lookup(d, section, key, "") != "" && depth > 0
    requires Expand(d, section, Lookup(d, section, key, ""), 0, "", depth, visiting + {Path(section, key)}) == Outcome(Ok(w), d)
    ensures Resolve(d, section, key, depth, visiting) == Outcome(Ok(w), Assign(d, section, key, w))
  {
  }

  /** A rune that does not open a closed placeholder is copied. */
  lemma ExpandCopies(d: Data, section: string, v: string, i: nat, out: string, depth: int, visiting: set<string>)
    requires i < |v| && depth >= 1
    requires !(v[i] == '$' && i + 1 < |v| && v[i + 1] == '{' && CloseFrom(v, i + 2) < |v|)
    ensures Expand(d, section, v, i, out, depth, visiting) == Expand(d, section, v, i + 1, out + [v[i]], depth, visiting)
  {
  }

  /** A closed placeholder is replaced by the resolved reference, or the error stops the scan. */
  lemma ExpandResolves(d: Data, section: string, v: string, i: nat, out: string, depth: int, visiting: set<string>,
                       j: nat, refSec: string, refKey: string, o: Outcome)
    requires i + 1 < |v| && v[i] == '$' && v[i + 1] == '{' && depth >= 1
    requires j == CloseFrom(v, i + 2) < |v|
    requires (refSec, refKey) == Reference(section, v[i + 2..j])
    requires o == Resolve(d, refSec, refKey, depth - 1, visiting)
    ensures o.res.Err? ==> Expand(d, section, v, i, out, depth, visiting) == o
    ensures o.res.Ok? ==>
      Expand(d, section, v, i, out, depth, visiting) == Expand(o.data, section, v, j + 1, out + o.res.value, depth, visiting)
  {
    var e := Expand(d, section, v, i, out, depth, visiting);
    assert e == if o.res.Err? then o else Expand(o.data, section, v, j + 1, out + o.res.value, depth, visiting);
  }

  /** order lists every entry of d exactly once. */
  ghost predicate Enumerates(order: seq<(string, string)>, d: Data)
  {
    && Collections.Distinct(order)
    && forall s, k :: (s, k) in order <==> Present(d, s, k)
  }

  /** What Interpolate leaves: its error, if any, and the data. */
  datatype Pass = Pass(err: Option<IniError>, data: Data)

  /** Every entry of order resolved in turn, stopping at the first error. */
  function InterpolateAll(d: Data, order: seq<(string, string)>): Pass
    decreases |order|
  {
    if order == [] then Pass(None, d)
    else
      var o := Resolve(d, order[0].0, order[0].1, MaxDepth, {});
      if o.res.Err? then Pass(Some(o.res.error), o.data)
      else InterpolateAll(o.data, order[1..])
  }

  /**
   * Interpolate: every value resolved with the budget MaxDepth, in the order
   * Go's map iteration happens to visit the entries; a nil configuration is
   * left alone.
   */
  method Interpolate(c: Config?, order: seq<(string, string)>) returns (err: Option<IniError>)
    requires c != null ==> Enumerates(order, c.data)
    modifies c
    ensures c == null ==> err == None
    ensures c != null ==> Pass(err, c.data) == InterpolateAll(old(c.data), order)
  {
    if c == null {
      return None;
    }
    for i := 0 to |order|
      invariant InterpolateAll(old(c.data), order) == InterpolateAll(c.data, order[i..])
    {
      var r := ResolveValue(c, order[i].0, order[i].1, MaxDepth, {});
      if r.Err? {
        return Some(r.error);
      }
    }
    return None;
  }

  // ---------------------------------------------------------------------
  // What resolving does and does not do

  /** v holds no closed placeholder: no '}' anywhere after a `${`. */
  predicate Plain(v: string)
  {
    forall m, n :: 0 <= m && m + 2 <= n < |v| ==> !(v[m] == '$' && v[m + 1] == '{' && v[n] == '}')
  }

  /** Writing back a key's own value changes nothing. */
  lemma AssignSame(d: Data, section: string, key: string)
    requires Present(d, section, key)
    ensures Assign(d, section, key, d[section][key]) == d
  {
    assert Entries(d, section)[key := d[section][key]] == d[section];
  }

  /** Resolving never adds or removes a section or a key: write-backs only overwrite. */
  lemma {:induction false} ResolveKeepsEntries(d: Data, section: string, key: string, depth: int, visiting: set<string>)
    ensures SameEntries(d, Resolve(d, section, key, depth, visiting).data)
    decreases if depth < 0 then 0 else depth, 1, 0
  {
    var path := Path(section, key);
    var v := Lookup(d, section, key, "");
    if path !in visiting && v != "" && depth > 0 {
      ExpandKeepsEntries(d, section, v, 0, "", depth, visiting + {path});
      var o := Expand(d, section, v, 0, "", depth, visiting + {path});
      if o.res.Ok? {
        assert Present(o.data, section, key);
        assert forall s, k :: Present(Assign(o.data, section, key, o.res.value), s, k) <==> Present(o.data, s, k) by {
          forall s, k {
            AssignReads(o.data, section, key, o.res.value, s, k, "");
          }
        }
      }
    }
  }

  /** The scan, too, keeps the entries: every placeholder it resolves does. */
  lemma {:induction false} ExpandKeepsEntries(d: Data, section: string, v: string, i: nat, out: string, depth: int,
                                              visiting: set<string>)
    requires i <= |v| && depth >= 1
    ensures SameEntries(d, Expand(d, section, v, i, out, depth, visiting).data)
    decreases depth, 0, |v| - i
  {
    if i < |v| {
      if v[i] == '$' && i + 1 < |v| && v[i + 1] == '{' && CloseFrom(v, i + 2) < |v| {
        var j := CloseFrom(v, i + 2);
        var ref := Reference(section, v[i + 2..j]);
        ResolveKeepsEntries(d, ref.0, ref.1, depth - 1, visiting);
        var o := Resolve(d, ref.0, ref.1, depth - 1, visiting);
        if o.res.Ok? {
          ExpandKeepsEntries(o.data, section, v, j + 1, out + o.res.value, depth, visiting);
        }
      } else {
        ExpandKeepsEntries(d, section, v, i + 1, out + [v[i]], depth, visiting);
      }
    }
  }

  /** With no closed placeholder left, the scan copies the rest and touches nothing. */
  lemma {:induction false} ExpandVerbatim(d: Data, section: string, v: string, i: nat, out: string, depth: int,
                                          visiting: set<string>)
    requires i <= |v| && depth >= 1 && Plain(v)
    ensures Expand(d, section, v, i, out, depth, visiting) == Outcome(Ok(out + v[i..]), d)
    decreases |v| - i
  {
    if i == |v| {
      assert out + v[i..] == out;
    } else {
      if v[i] == '$' && i + 1 < |v| && v[i + 1] == '{' {
        var j := CloseFrom(v, i + 2);
        if j < |v| {
          assert false;
        }
      }
      ExpandVerbatim(d, section, v, i + 1, out + [v[i]], depth, visiting);
      assert out + [v[i]] + v[i + 1..] == out + v[i..];
    }
  }

  /** A value without placeholders resolves to itself, and the data is left as it was. */
  lemma ResolveVerbatim(d: Data, section: string, key: string, depth: int, visiting: set<string>)
    requires Path(section, key) !in visiting && Plain(Lookup(d, section, key, ""))
    ensures Resolve(d, section, key, depth, visiting) == Outcome(Ok(Lookup(d, section, key, "")), d)
  {
    var v := Lookup(d, section, key, "");
    if v != "" && depth > 0 {
      ExpandVerbatim(d, section, v, 0, "", depth, visiting + {Path(section, key)});
      assert "" + v[0..] == v;
      AssignSame(d, section, key);
    }
  }

  /** A placeholder `${token}` spanning the whole value: the '}' that closes it is the last rune. */
  lemma WholePlaceholder(v: string, token: string)
    requires v == "${" + token + "}" && '}' !in token
    ensures CloseFrom(v, 2) == |v| - 1 && v[2..|v| - 1] == token
  {
    var j := CloseFrom(v, 2);
    assert v[|v| - 1] == '}';
    assert v[2..|v| - 1] == token;
  }

  /** The scan of a whole-value placeholder yields what the reference resolves to. */
  lemma ExpandPlaceholder(d: Data, section: string, token: string, depth: int, visiting: set<string>)
    requires depth >= 1 && '}' !in token
    ensures var ref := Reference(section, token);
      var o := Resolve(d, ref.0, ref.1, depth - 1, visiting);
      Expand(d, section, "${" + token + "}", 0, "", depth, visiting) == o
  {
    var v := "${" + token + "}";
    var ref := Reference(section, token);
    var o := Resolve(d, ref.0, ref.1, depth - 1, visiting);
    var j := |v| - 1;
    assert 1 < |v| && v[0] == '$' && v[1] == '{' && j == CloseFrom(v, 2) < |v| && ref == Reference(section, v[2..j]) by {
      WholePlaceholder(v, token);
    }
    ExpandResolves(d, section, v, 0, "", depth, visiting, j, ref.0, ref.1, o);
    if o.res.Ok? {
      assert "" + o.res.value == o.res.value;
    }
  }

  /**
   * A value that is exactly `${token}`, the reference being another entry
   * without placeholders: it resolves to that entry's value (empty when the
   * entry is missing), which is written back in its place.
   */
  lemma PlaceholderResolves(d: Data, section: string, key: string, token: string, refSec: string, refKey: string,
                            depth: int, visiting: set<string>)
    requires Path(section, key) !in visiting && depth >= 1 && '}' !in token
    requires Lookup(d, section, key, "") == "${" + token + "}"
    requires (refSec, refKey) == Reference(section, token)
    requires Path(refSec, refKey) !in visiting + {Path(section, key)} && Plain(Lookup(d, refSec, refKey, ""))
    ensures Resolve(d, section, key, depth, visiting)
      == Outcome(Ok(Lookup(d, refSec, refKey, "")), Assign(d, section, key, Lookup(d, refSec, refKey, "")))
  {
    var inner := visiting + {Path(section, key)};
    var w := Lookup(d, refSec, refKey, "");
    assert Expand(d, section, Lookup(d, section, key, ""), 0, "", depth, inner) == Outcome(Ok(w), d) by {
      ExpandPlaceholder(d, section, token, depth, inner);
      ResolveVerbatim(d, refSec, refKey, depth - 1, inner);
    }
    ResolveWritesBack(d, section, key, depth, visiting, w);
  }

  /** A value that is exactly `${key}`, naming itself, is an interpolation cycle. */
  lemma SelfReference(d: Data, section: string, key: string, depth: int, visiting: set<string>)
    requires Path(section, key) !in visiting && depth >= 1 && '.' !in key && '}' !in key
    requires Lookup(d, section, key, "") == "${" + key + "}"
    ensures Resolve(d, section, key, depth, visiting).res == Err(InterpolationCycle(Path(section, key)))
  {
    var inner := visiting + {Path(section, key)};
    var cycle := Outcome(Err(InterpolationCycle(Path(section, key))), d);
    assert Expand(d, section, Lookup(d, section, key, ""), 0, "", depth, inner) == cycle by {
      ReferenceSplits(section, key);
      ExpandPlaceholder(d, section, key, depth, inner);
    }
    ResolveExpands(d, section, key, depth, visiting);
  }

  /** Within one section, distinct keys have distinct paths. */
  lemma PathInjective(section: string, a: string, b: string)
    requires a != b
    ensures Path(section, a) != Path(section, b)
  {
    assert a == Path(section, a)[|section| + 1..];
    assert b == Path(section, b)[|section| + 1..];
  }

  /**
   * A chain of references ks[0] -> ks[1] -> ..., each value exactly
   * `${next key}` in one section: resolving ks[0] with budget depth follows
   * depth links and yields the raw value of ks[depth], placeholders and all.
   */
  lemma {:induction false} ChainStops(d: Data, section: string, ks: seq<string>, depth: int, visiting: set<string>)
    requires 1 <= depth < |ks| && Collections.Distinct(ks)
    requires forall i :: 0 <= i < |ks| ==> '.' !in ks[i] && '}' !in ks[i] && Path(section, ks[i]) !in visiting
    requires forall i :: 0 <= i < |ks| - 1 ==> Lookup(d, section, ks[i], "") == "${" + ks[i + 1] + "}"
    ensures Resolve(d, section, ks[0], depth, visiting).res == Ok(Lookup(d, section, ks[depth], ""))
    decreases depth
  {
    var inner := visiting + {Path(section, ks[0])};
    var next := ks[1..];
    assert Path(section, ks[1]) !in inner by {
      PathInjective(section, ks[1], ks[0]);
    }
    ReferenceSplits(section, ks[1]);
    ExpandPlaceholder(d, section, ks[1], depth, inner);
    ResolveExpands(d, section, ks[0], depth, visiting);
    if depth > 1 {
      assert forall i :: 0 <= i < |next| ==> Path(section, next[i]) !in inner by {
        forall i | 0 <= i < |next|
          ensures Path(section, next[i]) !in inner
        {
          assert next[i] == ks[i + 1];
          PathInjective(section, next[i], ks[0]);
        }
      }
      assert forall i :: 0 <= i < |next| - 1 ==> Lookup(d, section, next[i], "") == "${" + next[i + 1] + "}" by {
        forall i | 0 <= i < |next| - 1
          ensures Lookup(d, section, next[i], "") == "${" + next[i + 1] + "}"
        {
          assert next[i] == ks[i + 1] && next[i + 1] == ks[i + 2];
        }
      }
      ChainStops(d, section, next, depth - 1, inner);
    }
  }

  /**
   * With the budget MaxDepth = 10, a chain of eleven or more links is cut:
   * the first key resolves to the eleventh key's value, still holding its
   * placeholder for the twelfth.
   */
  lemma ChainBeyondMaxDepth(d: Data, section: string, ks: seq<string>)
    requires |ks| >= 12 && Collections.Distinct(ks)
    requires forall i :: 0 <= i < |ks| ==> '.' !in ks[i] && '}' !in ks[i]
    requires forall i :: 0 <= i < |ks| - 1 ==> Lookup(d, section, ks[i], "") == "${" + ks[i + 1] + "}"
    ensures Resolve(d, section, ks[0], MaxDepth, {}).res == Ok("${" + ks[11] + "}")
  {
    ChainStops(d, section, ks, MaxDepth, {});
  }

  /** Interpolate keeps every section and key; it only rewrites values. */
  lemma {:induction false} InterpolateKeepsEntries(d: Data, order: seq<(string, string)>)
    ensures SameEntries(d, InterpolateAll(d, order).data)
    decreases |order|
  {
    if order != [] {
      ResolveKeepsEntries(d, order[0].0, order[0].1, MaxDepth, {});
      var o := Resolve(d, order[0].0, order[0].1, MaxDepth, {});
      if o.res.Ok? {
        InterpolateKeepsEntries(o.data, order[1..]);
      }
    }
  }

  /** Data without placeholders passes Interpolate unchanged and without error. */
  lemma {:induction false} InterpolatePlain(d: Data, order: seq<(string, string)>)
    requires forall s, k :: Present(d, s, k) ==> Plain(d[s][k])
    ensures InterpolateAll(d, order) == Pass(None, d)
    decreases |order|
  {
    if order != [] {
      var s, k := order[0].0, order[0].1;
      assert Plain(Lookup(d, s, k, ""));
      ResolveVerbatim(d, s, k, MaxDepth, {});
      InterpolatePlain(d, order[1..]);
    }
  }

  // ---------------------------------------------------------------------
  // Loading with options

  /**
   * The data LoadFromReaderWithOptions returns, or its error: the lines read
   * from the empty state, then, when enabled, interpolation over the entries
   * in the order `order` lists them.
   */
  function LoadWith(opt: Options, resolver: Resolver, lines: seq<string>, order: Data -> seq<(string, string)>)
    : Result<Data, IniError>
  {
    match Run(opt, resolver, Start, TrimmedLines(lines))
    case Err(e) => Err(e)
    case Ok(st) =>
      if !opt.enableInterpolation then Ok(st.data)
      else
        var p := InterpolateAll(st.data, order(st.data));
        if p.err.Some? then Err(p.err.value) else Ok(p.data)
  }

  /** The section created in place when missing. */
  method EnsureSection(cfg: Config, section: string)
    modifies cfg
    ensures cfg.data == Ensure(old(cfg.data), section)
  {
    if section !in cfg.data {
      cfg.data := cfg.data[section := map[]];
    }
  }

  /** A value stored in place at the end of a line, appended to an old one when asked. */
  method StoreValue(cfg: Config, section: string, key: string, val: string, append: bool)
    modifies cfg
    ensures cfg.data == Store(old(cfg.data), section, key, val, append)
  {
    EnsureSection(cfg, section);
    if key in cfg.data[section] && append {
      cfg.data := cfg.data[section := cfg.data[section][key := TrimSpace(cfg.data[section][key]) + "," + TrimSpace(val)]];
    } else {
      cfg.data := cfg.data[section := cfg.data[section][key := val]];
    }
  }

  /**
   * One trimmed line of LoadFromReaderWithOptions: the configuration after it
   * (a new one after an include) and the reader's section and pending
   * multi-line value, or the include's error.
   */
  method ReadLine(cfg: Config, opt: Options, resolver: Resolver, section: string, inMultiline: bool,
                  multiKey: string, multiVal: string, s: string)
    returns (r: Result<Config, IniError>, section': string, inMultiline': bool, multiKey': string, multiVal': string)
    modifies cfg
    ensures r.Ok? ==> r.value == cfg || fresh(r.value)
    ensures Step(opt, resolver, Reader(old(cfg.data), section, inMultiline, multiKey, multiVal), s)
      == if r.Err? then Err(r.error) else Ok(Reader(r.value.data, section', inMultiline', multiKey', multiVal'))
  {
    r, section', inMultiline', multiKey', multiVal' := Ok(cfg), section, inMultiline, multiKey, multiVal;
    if s == [] || s[0] == ';' || s[0] == '#' {
      return;
    }
    if inMultiline {
      section', inMultiline', multiKey', multiVal' := ReadContinued(cfg, opt, section, multiKey, multiVal, s);
      return;
    }
    if HasPrefix(s, ".include ") || HasPrefix(s, "!include ") {
      r := ReadInclude(cfg, opt, resolver, s);
      return;
    }
    if s[0] == '[' && s[|s| - 1] == ']' {
      section' := TrimSpace(s[1..|s| - 1]);
      EnsureSection(cfg, section');
      return;
    }
    inMultiline', multiKey', multiVal' := ReadEntry(cfg, opt, section, multiKey, multiVal, s);
  }

  /** An include directive: a new configuration merging the included one into cfg. */
  method ReadInclude(cfg: Config, opt: Options, resolver: Resolver, s: string) returns (r: Result<Config, IniError>)
    ensures resolver(IncludeArg(s)).Err? ==> r == Err(resolver(IncludeArg(s)).error)
    ensures resolver(IncludeArg(s)).Ok? ==>
      r.Ok? && fresh(r.value) && r.value.data == MergeData(cfg.data, resolver(IncludeArg(s)).value, opt.includeOverwrite)
  {
    var inc := resolver(IncludeArg(s));
    if inc.Err? {
      return Err(inc.error);
    }
    var incCfg := new Config();
    incCfg.data := inc.value;
    var merged := Merge(cfg, incCfg, opt.includeOverwrite);
    return Ok(merged);
  }

  /** A line of a multi-line value, read in place. */
  method ReadContinued(cfg: Config, opt: Options, section: string, multiKey: string, multiVal: string, s: string)
    returns (section': string, inMultiline': bool, multiKey': string, multiVal': string)
    requires s != []
    modifies cfg
    ensures Continue(opt, Reader(old(cfg.data), section, true, multiKey, multiVal), s)
      == Reader(cfg.data, section', inMultiline', multiKey', multiVal')
  {
    var mv := multiVal + "\n" + TrimTrailing(s, '\\');
    if s[|s| - 1] == '\\' {
      return section, true, multiKey, mv;
    }
    StoreValue(cfg, section, multiKey, TrimSpace(mv), opt.appendDuplicateKeys);
    return section, false, "", "";
  }

  /** The value after the separator at idx, as the reader keeps it. */
  method ReadValue(opt: Options, s: string, idx: nat) returns (val: string)
    requires idx < |s|
    ensures val == EntryValue(opt, s, idx)
  {
    var v := TrimSpace(s[idx + 1..]);
    val := v;
    if opt.inlineComment {
      val := StripInlineComment(v);
    }
    val := Unquote(val);
  }

  /** A `key = value` line outside a multi-line value, read in place. */
  method ReadEntry(cfg: Config, opt: Options, section: string, multiKey: string, multiVal: string, s: string)
    returns (inMultiline': bool, multiKey': string, multiVal': string)
    requires s != []
    modifies cfg
    ensures Entry(opt, Reader(old(cfg.data), section, false, multiKey, multiVal), s)
      == Reader(cfg.data, section, inMultiline', multiKey', multiVal')
  {
    inMultiline', multiKey', multiVal' := false, multiKey, multiVal;
    var idx := SeparatorIndex(s, opt.allowColon);
    if idx <= 0 {
      return;
    }
    var key := TrimSpace(s[..idx]);
    var val := ReadValue(opt, s, idx);
    ghost var st := Reader(cfg.data, section, false, multiKey, multiVal);
    if opt.allowMultiline && s[|s| - 1] == '\\' {
      inMultiline', multiKey', multiVal' := true, key, TrimTrailing(val, '\\');
      EnsureSection(cfg, section);
      assert Entry(opt, st, s) == st.(data := cfg.data, inMultiline := true, multiKey := key, multiVal := multiVal');
      return;
    }
    StoreValue(cfg, section, key, val, opt.appendDuplicateKeys);
    assert Entry(opt, st, s) == st.(data := cfg.data);
  }

  /**
   * LoadFromReaderWithOptions: the configuration the lines describe under
   * opt, or the first include error or interpolation error. `order` stands
   * for the order Go's map iteration visits the entries in.
   */
  method LoadFromReaderWithOptions(lines: seq<string>, opt: Options, resolver: Resolver,
                                   order: Data -> seq<(string, string)>)
    returns (r: Result<Config, IniError>)
    requires forall d :: Enumerates(order(d), d)
    ensures r.Ok? ==> fresh(r.value) && LoadWith(opt, resolver, lines, order) == Ok(r.value.data)
    ensures r.Err? ==> LoadWith(opt, resolver, lines, order) == Err(r.error)
  {
    var cfg := new Config();
    var section, inMultiline, multiKey, multiVal := "", false, "", "";
    ghost var ss := TrimmedLines(lines);
    for i := 0 to |lines|
      invariant fresh(cfg)
      invariant Run(opt, resolver, Start, ss) == Run(opt, resolver, Reader(cfg.data, section, inMultiline, multiKey, multiVal), ss[i..])
    {
      var raw := lines[i];
      if i == 0 {
        raw := TrimPrefix(raw, Bom);
      }
      var s := TrimSpace(raw);
      assert s == ss[i];
      var next;
      next, section, inMultiline, multiKey, multiVal := ReadLine(cfg, opt, resolver, section, inMultiline, multiKey, multiVal, s);
      if next.Err? {
        return Err(next.error);
      }
      cfg := next.value;
    }
    if opt.enableInterpolation {
      var err := Interpolate(cfg, order(cfg.data));
      if err.Some? {
        return Err(err.value);
      }
    }
    return Ok(cfg);
  }

  // ---------------------------------------------------------------------
  // What the options change

  /** With every option off, a line that is not an include reads as LoadFromReader reads it. */
  lemma StepDefaults(resolver: Resolver, d: Data, section: string, s: string)
    requires s == [] || (!IsSpace(s[0]) && !IsSpace(s[|s| - 1]))
    requires !IsInclude(s)
    ensures var a := Apply(Loader(d, section), ClassifyTrimmed(s));
      Step(Defaults, resolver, Reader(d, section, false, "", ""), s) == Ok(Reader(a.data, a.section, false, "", ""))
  {
    var st := Reader(d, section, false, "", "");
    if s != [] && s[0] != ';' && s[0] != '#' && !(s[0] == '[' && s[|s| - 1] == ']') {
      assert Step(Defaults, resolver, st, s) == Ok(Entry(Defaults, st, s));
      EntryDefaults(d, section, s);
    }
  }

  /** With every option off, a `key = value` line is an assignment split at its first '='. */
  lemma EntryDefaults(d: Data, section: string, s: string)
    requires s != [] && !IsSpace(s[0]) && !IsSpace(s[|s| - 1])
    requires s[0] != ';' && s[0] != '#' && !(s[0] == '[' && s[|s| - 1] == ']')
    ensures var a := Apply(Loader(d, section), ClassifyTrimmed(s));
      Entry(Defaults, Reader(d, section, false, "", ""), s) == Reader(a.data, a.section, false, "", "")
  {
    SeparatorWithoutColon(s);
    var idx := IndexRune(s, '=');
    if idx > 0 {
      var key, val := TrimSpace(s[..idx]), Unquote(TrimSpace(s[idx + 1..]));
      assert ClassifyTrimmed(s) == Assignment(key, val);
      assert EntryValue(Defaults, s, idx) == val;
      assert Store(d, section, key, val, false) == d[section := Entries(d, section)[key := val]];
    }
  }

  /** Lines without includes, read with every option off from a given state, fold as LoadFromReader folds them. */
  lemma {:induction false} RunDefaults(resolver: Resolver, d: Data, section: string, lines: seq<string>, first: bool)
    requires forall i :: 0 <= i < |lines| ==> !IsInclude(Trimmed(lines[i], first && i == 0))
    ensures var f := Fold(Loader(d, section), Parse(lines, first));
      Run(Defaults, resolver, Reader(d, section, false, "", ""), Seqs.MapFirst(lines, Trimmed, first))
        == Ok(Reader(f.data, f.section, false, "", ""))
    decreases |lines|
  {
    if lines != [] {
      var s := Trimmed(lines[0], first);
      var l := Classify(lines[0], first);
      var rest := lines[1..];
      var ss := Seqs.MapFirst(lines, Trimmed, first);
      var st := Reader(d, section, false, "", "");
      var a := Apply(Loader(d, section), l);
      assert ss != [] && ss[0] == s && ss[1..] == Seqs.MapFirst(rest, Trimmed, false) by {
        Seqs.MapFirstCons(lines, Trimmed, first);
      }
      assert Fold(Loader(d, section), Parse(lines, first)) == Fold(a, Parse(rest, false)) by {
        Seqs.MapFirstCons(lines, Classify, first);
        FoldAppend(Loader(d, section), [l], Parse(rest, false));
        FoldOne(Loader(d, section), l);
      }
      assert Step(Defaults, resolver, st, s) == Ok(Reader(a.data, a.section, false, "", "")) by {
        StepDefaults(resolver, d, section, s);
      }
      assert forall i :: 0 <= i < |rest| ==> !IsInclude(Trimmed(rest[i], false)) by {
        forall i | 0 <= i < |rest|
          ensures !IsInclude(Trimmed(rest[i], false))
        {
          assert rest[i] == lines[i + 1];
        }
      }
      RunDefaults(resolver, a.data, a.section, rest, false);
    }
  }

  /**
   * The zero options read a stream without include directives exactly as
   * LoadFromReader does.
   */
  lemma LoadDefaults(resolver: Resolver, lines: seq<string>, order: Data -> seq<(string, string)>)
    requires forall i :: 0 <= i < |lines| ==> !IsInclude(Trimmed(lines[i], i == 0))
    ensures LoadWith(Defaults, resolver, lines, order) == Ok(Load(lines))
  {
    RunDefaults(resolver, map[], "", lines, true);
  }

  /** Reading a + b reads a, then, from where a leaves the state, b. */
  lemma {:induction false} RunAppend(opt: Options, resolver: Resolver, st: Reader, a: seq<string>, b: seq<string>)
    ensures Run(opt, resolver, st, a + b)
      == match Run(opt, resolver, st, a) case Err(e) => Err(e) case Ok(m) => Run(opt, resolver, m, b)
    decreases |a|
  {
    if a == [] {
      assert a + b == b;
    } else {
      assert (a + b)[0] == a[0] && (a + b)[1..] == a[1..] + b;
      match Step(opt, resolver, st, a[0])
      case Err(_) =>
      case Ok(next) => RunAppend(opt, resolver, next, a[1..], b);
    }
  }

  /** A line that continues a multi-line value: not a comment, ending in '\'. */
  predicate Continues(c: string)
  {
    c != [] && c[0] != ';' && c[0] != '#' && c[|c| - 1] == '\\'
  }

  /** What continuation lines add to a multi-line value: each on a new line, without its trailing '\'. */
  function Segments(cs: seq<string>): string
  {
    if cs == [] then [] else "\n" + TrimTrailing(cs[0], '\\') + Segments(cs[1..])
  }

  /** Inside a multi-line value, continuation lines only extend the pending value. */
  lemma {:induction false} ContinuedLines(opt: Options, resolver: Resolver, st: Reader, cs: seq<string>)
    requires st.inMultiline
    requires forall i :: 0 <= i < |cs| ==> Continues(cs[i])
    ensures Run(opt, resolver, st, cs) == Ok(st.(multiVal := st.multiVal + Segments(cs)))
    decreases |cs|
  {
    if cs == [] {
      assert st.multiVal + Segments(cs) == st.multiVal;
    } else {
      var seg := "\n" + TrimTrailing(cs[0], '\\');
      var next := st.(multiVal := st.multiVal + seg);
      assert Continues(cs[0]);
      assert st.multiVal + "\n" + TrimTrailing(cs[0], '\\') == st.multiVal + seg;
      assert Step(opt, resolver, st, cs[0]) == Ok(next);
      assert Run(opt, resolver, st, cs) == Run(opt, resolver, next, cs[1..]);
      ContinuedLines(opt, resolver, next, cs[1..]);
      assert Segments(cs) == seg + Segments(cs[1..]);
      assert next.multiVal + Segments(cs[1..]) == st.multiVal + Segments(cs);
    }
  }

  /**
   * A multi-line value: a `key = value\` line (with allowMultiline), lines
   * ending in '\', then a line that does not. The key's value is the first
   * value and each later line joined with "\n", every trailing '\' dropped
   * and the whole trimmed; it is stored (or appended) only at the last line.
   */
  lemma MultilineJoins(opt: Options, resolver: Resolver, st: Reader, first: string, cs: seq<string>, last: string,
                       rest: seq<string>)
    requires opt.allowMultiline && !st.inMultiline
    requires Continues(first) && !IsInclude(first) && SeparatorIndex(first, opt.allowColon) > 0
    requires forall i :: 0 <= i < |cs| ==> Continues(cs[i])
    requires last != [] && last[0] != ';' && last[0] != '#' && last[|last| - 1] != '\\'
    ensures var idx := SeparatorIndex(first, opt.allowColon);
      var key := TrimSpace(first[..idx]);
      var v := TrimTrailing(EntryValue(opt, first, idx), '\\') + Segments(cs) + "\n" + last;
      var d := Store(Ensure(st.data, st.section), st.section, key, TrimSpace(v), opt.appendDuplicateKeys);
      Run(opt, resolver, st, [first] + cs + [last] + rest) == Run(opt, resolver, Reader(d, st.section, false, "", ""), rest)
  {
    var idx := SeparatorIndex(first, opt.allowColon);
    var key := TrimSpace(first[..idx]);
    var m0 := st.(data := Ensure(st.data, st.section), inMultiline := true, multiKey := key,
                  multiVal := TrimTrailing(EntryValue(opt, first, idx), '\\'));
    assert Step(opt, resolver, st, first) == Ok(m0);
    var m1 := m0.(multiVal := m0.multiVal + Segments(cs));
    ContinuedLines(opt, resolver, m0, cs);
    assert TrimTrailing(last, '\\') == last;
    var v := m1.multiVal + "\n" + last;
    var d := Store(m1.data, st.section, key, TrimSpace(v), opt.appendDuplicateKeys);
    assert Step(opt, resolver, m1, last) == Ok(Reader(d, st.section, false, "", ""));
    Seqs.AppendAssoc([first] + cs, [last], rest);
    Seqs.AppendAssoc([first], cs, [last] + rest);
    assert Run(opt, resolver, st, [first] + (cs + ([last] + rest))) == Run(opt, resolver, m0, cs + ([last] + rest));
    RunAppend(opt, resolver, m0, cs, [last] + rest);
    assert ([last] + rest)[1..] == rest;
  }

  /** A multi-line value still open at the end of the input is never stored: only its section is created. */
  lemma UnfinishedValueDropped(opt: Options, resolver: Resolver, st: Reader, first: string, cs: seq<string>)
    requires opt.allowMultiline && !st.inMultiline
    requires Continues(first) && !IsInclude(first) && SeparatorIndex(first, opt.allowColon) > 0
    requires forall i :: 0 <= i < |cs| ==> Continues(cs[i])
    ensures var r := Run(opt, resolver, st, [first] + cs);
      r.Ok? && r.value.inMultiline && r.value.data == Ensure(st.data, st.section)
  {
    var idx := SeparatorIndex(first, opt.allowColon);
    var m0 := st.(data := Ensure(st.data, st.section), inMultiline := true, multiKey := TrimSpace(first[..idx]),
                  multiVal := TrimTrailing(EntryValue(opt, first, idx), '\\'));
    assert Step(opt, resolver, st, first) == Ok(m0);
    ContinuedLines(opt, resolver, m0, cs);
    assert ([first] + cs)[1..] == cs;
  }

  /** A line that, outside a multi-line value, sets key: a `key = value` line that starts no multi-line value. */
  predicate SetsKey(opt: Options, s: string, key: string)
  {
    && s != [] && s[0] != ';' && s[0] != '#' && !IsInclude(s) && !(s[0] == '[' && s[|s| - 1] == ']')
    && 0 < SeparatorIndex(s, opt.allowColon) && TrimSpace(s[..SeparatorIndex(s, opt.allowColon)]) == key
    && !(opt.allowMultiline && s[|s| - 1] == '\\')
  }

  /** The value a `key = value` line carries (empty without a separator). */
  function ValueOf(opt: Options, s: string): string
  {
    var idx := SeparatorIndex(s, opt.allowColon);
    if idx < 0 then "" else EntryValue(opt, s, idx)
  }

  function Values(opt: Options, ls: seq<string>): (vs: seq<string>)
    ensures |vs| == |ls| && forall i :: 0 <= i < |ls| ==> vs[i] == ValueOf(opt, ls[i])
  {
    seq(|ls|, i requires 0 <= i < |ls| => ValueOf(opt, ls[i]))
  }

  function TrimAll(vs: seq<string>): (ts: seq<string>)
    ensures |ts| == |vs| && forall i :: 0 <= i < |vs| ==> ts[i] == TrimSpace(vs[i])
  {
    seq(|vs|, i requires 0 <= i < |vs| => TrimSpace(vs[i]))
  }

  /** The values vs stored under key one after another, as repeated lines store them. */
  function StoreAll(d: Data, section: string, key: string, vs: seq<string>, append: bool): Data
    decreases |vs|
  {
    if vs == [] then d
    else Store(StoreAll(d, section, key, vs[..|vs| - 1], append), section, key, vs[|vs| - 1], append)
  }

  /** A line that sets key stores its value under key in the current section. */
  lemma StepSetsKey(opt: Options, resolver: Resolver, st: Reader, s: string, key: string)
    requires !st.inMultiline && SetsKey(opt, s, key)
    ensures Step(opt, resolver, st, s)
      == Ok(st.(data := Store(st.data, st.section, key, ValueOf(opt, s), opt.appendDuplicateKeys)))
  {
  }

  /** Lines that all set one key, read in one section, store their values in order. */
  lemma {:induction false} RepeatedKey(opt: Options, resolver: Resolver, st: Reader, key: string, ls: seq<string>)
    requires !st.inMultiline
    requires forall i :: 0 <= i < |ls| ==> SetsKey(opt, ls[i], key)
    ensures Run(opt, resolver, st, ls)
      == Ok(st.(data := StoreAll(st.data, st.section, key, Values(opt, ls), opt.appendDuplicateKeys)))
    decreases |ls|
  {
    if ls == [] {
      assert st.(data := st.data) == st;
    } else {
      var p := ls[..|ls| - 1];
      RepeatedKey(opt, resolver, st, key, p);
      RepeatedKeyStep(opt, resolver, st, key, ls);
    }
  }

  /** The last of the lines that set a key stores its value after the others'. */
  lemma RepeatedKeyStep(opt: Options, resolver: Resolver, st: Reader, key: string, ls: seq<string>)
    requires ls != [] && !st.inMultiline && SetsKey(opt, ls[|ls| - 1], key)
    requires Run(opt, resolver, st, ls[..|ls| - 1])
      == Ok(st.(data := StoreAll(st.data, st.section, key, Values(opt, ls[..|ls| - 1]), opt.appendDuplicateKeys)))
    ensures Run(opt, resolver, st, ls)
      == Ok(st.(data := StoreAll(st.data, st.section, key, Values(opt, ls), opt.appendDuplicateKeys)))
  {
    var n := |ls|;
    var p, x := ls[..n - 1], ls[n - 1];
    var m := st.(data := StoreAll(st.data, st.section, key, Values(opt, p), opt.appendDuplicateKeys));
    var m' := m.(data := Store(m.data, st.section, key, ValueOf(opt, x), opt.appendDuplicateKeys));
    assert Run(opt, resolver, m, [x]) == Ok(m') by {
      StepSetsKey(opt, resolver, m, x, key);
    }
    assert Run(opt, resolver, st, ls) == Ok(m') by {
      Seqs.Snoc(ls);
      RunAppend(opt, resolver, st, p, [x]);
    }
    StoreAllValues(opt, st.data, st.section, key, ls);
  }

  /** Storing the values of ls stores those of all but the last line, then the last. */
  lemma StoreAllValues(opt: Options, d: Data, section: string, key: string, ls: seq<string>)
    requires ls != []
    ensures StoreAll(d, section, key, Values(opt, ls), opt.appendDuplicateKeys)
      == Store(StoreAll(d, section, key, Values(opt, ls[..|ls| - 1]), opt.appendDuplicateKeys), section, key,
               ValueOf(opt, ls[|ls| - 1]), opt.appendDuplicateKeys)
  {
    var vs := Values(opt, ls);
    assert vs[..|ls| - 1] == Values(opt, ls[..|ls| - 1]);
  }

  /** A join of two or more trimmed parts with ',' is itself trimmed. */
  lemma JoinTrimmed(parts: seq<string>)
    requires |parts| >= 2
    requires forall i :: 0 <= i < |parts| ==> TrimSpace(parts[i]) == parts[i]
    ensures TrimSpace(Join(parts, ",")) == Join(parts, ",")
  {
    var n := |parts|;
    var j := Join(parts, ",");
    var a, z := parts[0], parts[n - 1];
    var l, r := Join(parts[..n - 1], ","), Join(parts[1..], ",");
    assert TrimSpace(a) == a && TrimSpace(z) == z;
    assert !IsSpace(j[0]) by {
      assert j == a + [','] + r;
      Seqs.Ends(a, ',', r);
    }
    assert !IsSpace(j[|j| - 1]) by {
      JoinLast(parts, ",");
      assert j == l + [','] + z;
      Seqs.Ends(l, ',', z);
    }
    TrimSpaceOfTrimmed(j);
  }

  /**
   * With appendDuplicateKeys, a key set on two or more lines (and not
   * before) ends up with all its values, each trimmed, joined with ',' in
   * the order the lines give them.
   */
  lemma {:induction false} AppendJoins(d: Data, section: string, key: string, vs: seq<string>)
    requires !Present(d, section, key) && |vs| >= 2
    ensures Present(StoreAll(d, section, key, vs, true), section, key)
    ensures StoreAll(d, section, key, vs, true)[section][key] == Join(TrimAll(vs), ",")
    decreases |vs|
  {
    var n := |vs|;
    var p := vs[..n - 1];
    var ts := TrimAll(vs);
    var prev := StoreAll(d, section, key, p, true);
    assert StoreAll(d, section, key, vs, true) == Store(prev, section, key, vs[n - 1], true);
    assert ts[..n - 1] == TrimAll(p);
    if n == 2 {
      assert prev == Store(d, section, key, vs[0], true) by {
        assert p[..0] == [];
        assert StoreAll(d, section, key, p[..0], true) == d;
      }
      assert TrimSpace(prev[section][key]) == Join(ts[..n - 1], ",");
    } else {
      AppendJoins(d, section, key, p);
      assert forall i :: 0 <= i < |TrimAll(p)| ==> TrimSpace(TrimAll(p)[i]) == TrimAll(p)[i] by {
        forall i | 0 <= i < |TrimAll(p)|
          ensures TrimSpace(TrimAll(p)[i]) == TrimAll(p)[i]
        {
          TrimSpaceIdempotent(p[i]);
        }
      }
      JoinTrimmed(TrimAll(p));
      assert TrimSpace(prev[section][key]) == Join(ts[..n - 1], ",");
    }
    JoinLast(ts, ",");
  }

  /** Without appendDuplicateKeys the last of a key's values wins. */
  lemma LastValueWins(d: Data, section: string, key: string, vs: seq<string>)
    requires vs != []
    ensures Present(StoreAll(d, section, key, vs, false), section, key)
    ensures StoreAll(d, section, key, vs, false)[section][key] == vs[|vs| - 1]
  {
  }

  /**
   * Repeated assignments of a key absent so far: with appendDuplicateKeys
   * and two or more of them, the trimmed values joined with ','; otherwise
   * the last value.
   */
  lemma DuplicateKeys(opt: Options, resolver: Resolver, st: Reader, key: string, ls: seq<string>)
    requires !st.inMultiline && ls != [] && !Present(st.data, st.section, key)
    requires forall i :: 0 <= i < |ls| ==> SetsKey(opt, ls[i], key)
    ensures var r := Run(opt, resolver, st, ls);
      && r.Ok? && Present(r.value.data, st.section, key)
      && r.value.data[st.section][key]
         == if opt.appendDuplicateKeys && |ls| >= 2 then Join(TrimAll(Values(opt, ls)), ",")
            else Values(opt, ls)[|ls| - 1]
  {
    RepeatedKey(opt, resolver, st, key, ls);
    var vs := Values(opt, ls);
    if opt.appendDuplicateKeys && |ls| >= 2 {
      AppendJoins(st.data, st.section, key, vs);
    } else if opt.appendDuplicateKeys {
      assert vs[..0] == [];
    } else {
      LastValueWins(st.data, st.section, key, vs);
    }
  }

  /**
   * An include directive merges the configuration it names into the data
   * read so far: a section or key is there iff it was before or is in the
   * included data, and on a key both hold the included value wins iff
   * includeOverwrite. A resolver error stops the read.
   */
  lemma IncludeMerges(opt: Options, resolver: Resolver, st: Reader, s: string, sec: string, k: string)
    requires !st.inMultiline && s != [] && IsInclude(s)
    ensures resolver(IncludeArg(s)).Err? ==> Step(opt, resolver, st, s) == Err(resolver(IncludeArg(s)).error)
    ensures resolver(IncludeArg(s)).Ok? ==>
      var inc := resolver(IncludeArg(s)).value;
      var r := Step(opt, resolver, st, s);
      && r.Ok? && r.value.section == st.section && !r.value.inMultiline
      && (sec in r.value.data <==> sec in st.data || sec in inc)
      && (Present(r.value.data, sec, k) <==> Present(st.data, sec, k) || Present(inc, sec, k))
      && (Present(r.value.data, sec, k) ==>
            r.value.data[sec][k]
            == if Present(inc, sec, k) && (opt.includeOverwrite || !Present(st.data, sec, k)) then inc[sec][k]
               else st.data[sec][k])
  {
    assert s[0] == '.' || s[0] == '!';
    if resolver(IncludeArg(s)).Ok? {
      MergeEntries(st.data, resolver(IncludeArg(s)).value, opt.includeOverwrite, sec, k);
    }
  }
}
