// The INI configuration store of iniutil/ini_util.go: a map from section
// name to a map from key to value, the line parser that fills it and the
// sorted, quoting serializer that writes it out. Go reads and writes
// through io.Reader and io.Writer; here the parser takes the input as its
// lines and the serializer returns the text it would write.

module IniUtil {

  import opened Wrappers
  import opened GoStd
  import GoSort
  import Collections
  import Seqs
  import Maps

  type Section = map<string, string>
  type Data = map<string, Section>

  datatype IniError =
    | NilConfig
    | InvalidInt(text: string)
    | InvalidBool(word: string)
    | InterpolationCycle(path: string)
    | IncludeFailed(path: string)

  /** A value with the error Go returns beside it; with an error the value is the caller's default. */
  datatype Got<T> = Got(value: T, err: Option<IniError>)

  /** The entries of a section; a missing section has none. */
  function Entries(d: Data, section: string): Section
  {
    if section in d then d[section] else map[]
  }

  predicate Present(d: Data, section: string, key: string)
  {
    section in d && key in d[section]
  }

  function Lookup(d: Data, section: string, key: string, def: string): string
  {
    if Present(d, section, key) then d[section][key] else def
  }

  /** Config.Set on the data: the section is created if needed and the key set in it. */
  function Assign(d: Data, section: string, key: string, value: string): Data
  {
    d[section := Entries(d, section)[key := value]]
  }

  /** Config.Delete on the data: the key leaves its section; a missing section is left alone. */
  function Removed(d: Data, section: string, key: string): Data
  {
    if section in d then d[section := d[section] - {key}] else d
  }

  /** After Set the key reads back the value; every other key reads as before. */
  lemma AssignReads(d: Data, section: string, key: string, value: string, s: string, k: string, def: string)
    ensures Present(Assign(d, section, key, value), s, k) <==> (s == section && k == key) || Present(d, s, k)
    ensures Lookup(Assign(d, section, key, value), s, k, def) == if s == section && k == key then value else Lookup(d, s, k, def)
  {
  }

  /** After Delete the key is absent; every other key reads as before. */
  lemma RemovedReads(d: Data, section: string, key: string, s: string, k: string, def: string)
    ensures Present(Removed(d, section, key), s, k) <==> !(s == section && k == key) && Present(d, s, k)
    ensures Lookup(Removed(d, section, key), s, k, def) == if s == section && k == key then def else Lookup(d, s, k, def)
  {
  }

  // ---------------------------------------------------------------------
  // Boolean words

  predicate IsTrueWord(w: string)
  {
    w == "true" || w == "yes" || w == "on" || w == "1"
  }

  predicate IsFalseWord(w: string)
  {
    w == "false" || w == "no" || w == "off" || w == "0"
  }

  /** The word GetBool matches: the value trimmed and lower-cased. */
  function BoolWord(v: string): string
  {
    ToLowerAscii(TrimSpace(v))
  }

  // ---------------------------------------------------------------------
  // Merging

  /** The entries of x and y; on a shared key y's value is taken iff overwrite. */
  function MergeSection(x: Section, y: Section, overwrite: bool): Section
  {
    map k | k in x.Keys + y.Keys :: if k in y && (overwrite || k !in x) then y[k] else x[k]
  }

  /** The data Merge builds from a and b. */
  function MergeData(a: Data, b: Data, overwrite: bool): Data
  {
    map s | s in a.Keys + b.Keys :: MergeSection(Entries(a, s), Entries(b, s), overwrite)
  }

  /**
   * The sections and entries of a merge: a section or key is in it iff it is
   * in a or in b, and on a key both hold b's value wins iff overwrite.
   */
  lemma MergeEntries(a: Data, b: Data, overwrite: bool, s: string, k: string)
    ensures var m := MergeData(a, b, overwrite);
      && (s in m <==> s in a || s in b)
      && (Present(m, s, k) <==> Present(a, s, k) || Present(b, s, k))
      && (Present(m, s, k) ==>
            m[s][k] == if Present(b, s, k) && (overwrite || !Present(a, s, k)) then b[s][k] else a[s][k])
  {
  }

  lemma MergeSectionSymmetric(x: Section, y: Section)
    ensures MergeSection(x, y, false) == MergeSection(y, x, true)
  {
    var m1, m2 := MergeSection(x, y, false), MergeSection(y, x, true);
    assert m1.Keys == m2.Keys;
    forall k | k in m1
      ensures m1[k] == m2[k]
    {
    }
  }

  /** Keeping a's values on conflict is the same as letting a overwrite b. */
  lemma MergeSymmetric(a: Data, b: Data)
    ensures MergeData(a, b, false) == MergeData(b, a, true)
  {
    var m1, m2 := MergeData(a, b, false), MergeData(b, a, true);
    assert m1.Keys == m2.Keys;
    forall s | s in m1
      ensures m1[s] == m2[s]
    {
      MergeSectionSymmetric(Entries(a, s), Entries(b, s));
    }
  }

  lemma MergeSectionEmpty(x: Section, overwrite: bool)
    ensures MergeSection(x, map[], overwrite) == x
    ensures MergeSection(map[], x, overwrite) == x
  {
    var m1, m2 := MergeSection(x, map[], overwrite), MergeSection(map[], x, overwrite);
    assert m1.Keys == x.Keys && m2.Keys == x.Keys;
    forall k | k in x
      ensures m1[k] == x[k] && m2[k] == x[k]
    {
    }
  }

  /** Merging with an empty configuration copies the other one. */
  lemma MergeIdentity(a: Data, overwrite: bool)
    ensures MergeData(a, map[], overwrite) == a
    ensures MergeData(map[], a, overwrite) == a
  {
    var m1, m2 := MergeData(a, map[], overwrite), MergeData(map[], a, overwrite);
    assert m1.Keys == a.Keys && m2.Keys == a.Keys;
    forall s | s in a
      ensures m1[s] == a[s] && m2[s] == a[s]
    {
      MergeSectionEmpty(a[s], overwrite);
    }
  }

  /** A section that holds x's entries, with kv's on top where overwrite allows, is the merge. */
  lemma SectionIsMerge(m: Section, x: Section, kv: Section, overwrite: bool)
    requires forall k :: k in m <==> k in x || k in kv
    requires forall k :: k in m ==> m[k] == if k in kv && (overwrite || k !in x) then kv[k] else x[k]
    ensures m == MergeSection(x, kv, overwrite)
  {
    var t := MergeSection(x, kv, overwrite);
    assert m.Keys == t.Keys;
    forall k | k in m
      ensures m[k] == t[k]
    {
    }
  }

  /** Configuration data that holds a's sections, merged with b's where given, is the merge. */
  lemma DataIsMerge(m: Data, a: Data, b: Data, overwrite: bool)
    requires forall s :: s in m <==> s in a || s in b
    requires forall s :: s in m ==> m[s] == if s in b then MergeSection(Entries(a, s), b[s], overwrite) else a[s]
    ensures m == MergeData(a, b, overwrite)
  {
    var t := MergeData(a, b, overwrite);
    assert m.Keys == t.Keys;
    forall s | s in m
      ensures m[s] == t[s]
    {
      if s !in b {
        MergeSectionEmpty(a[s], overwrite);
      }
    }
  }

  // ---------------------------------------------------------------------
  // Parsing

  const Bom: string := "\U{FEFF}"

  /** What one input line says. */
  datatype Line =
    | Skipped                                  // blank, a comment, or without a usable '='
    | Header(name: string)                     // `[name]`
    | Assignment(key: string, value: string)   // `key = value`

  /** A value wrapped in double quotes loses one quote at each end. */
  function Unquote(v: string): string
  {
    if |v| >= 2 && v[0] == '"' && v[|v| - 1] == '"' then v[1..|v| - 1] else v
  }

  /**
   * How LoadFromReader reads one line; `first` marks the first line, which
   * loses a leading byte-order mark.
   */
  function Classify(raw: string, first: bool): (l: Line)
    ensures l.Header? ==> TrimSpace(l.name) == l.name
    ensures l.Assignment? ==> l.key != [] && TrimSpace(l.key) == l.key && '=' !in l.key
  {
    ClassifyTrimmed(TrimSpace(if first then TrimPrefix(raw, Bom) else raw))
  }

  /** What a line says once its surrounding white space is gone. */
  function ClassifyTrimmed(s: string): (l: Line)
    requires s == [] || (!IsSpace(s[0]) && !IsSpace(s[|s| - 1]))
    ensures l.Header? ==> TrimSpace(l.name) == l.name
    ensures l.Assignment? ==> l.key != [] && TrimSpace(l.key) == l.key && '=' !in l.key
  {
    if s == [] || s[0] == ';' || s[0] == '#' then Skipped
    else if s[0] == '[' && s[|s| - 1] == ']' then
      TrimSpaceIdempotent(s[1..|s| - 1]);
      Header(TrimSpace(s[1..|s| - 1]))
    else
      var eq := IndexRune(s, '=');
      if eq <= 0 then Skipped
      else
        KeyOfAssignment(s, eq);
        Assignment(TrimSpace(s[..eq]), Unquote(TrimSpace(s[eq + 1..])))
  }

  /** The text before the first '=' of a trimmed line is a non-empty key without '='. */
  lemma KeyOfAssignment(s: string, eq: int)
    requires s != [] && !IsSpace(s[0])
    requires 0 < eq == IndexRune(s, '=')
    ensures var key := TrimSpace(s[..eq]);
      key != [] && TrimSpace(key) == key && '=' !in key
  {
    var p := s[..eq];
    assert p[0] == s[0];
    TrimmedNonEmpty(p);
    TrimSpaceIdempotent(p);
    assert '=' !in p by {
      forall j | 0 <= j < |p|
        ensures p[j] != '='
      {
        assert p[j] == s[j];
      }
    }
    TrimSpaceAvoids(p, '=');
  }

  /** The parser's state between lines: the data so far and the current section. */
  datatype Loader = Loader(data: Data, section: string)

  function Apply(st: Loader, l: Line): Loader
  {
    match l
    case Skipped => st
    case Header(name) => Loader(if name in st.data then st.data else st.data[name := map[]], name)
    case Assignment(k, v) => Loader(st.data[st.section := Entries(st.data, st.section)[k := v]], st.section)
  }

  /** What each line says; only the first may carry a byte-order mark. */
  function Parse(lines: seq<string>, first: bool): (ls: seq<Line>)
    ensures |ls| == |lines|
  {
    Seqs.MapFirst(lines, Classify, first)
  }

  /** The state after applying the lines' meanings in order, from st. */
  function Fold(st: Loader, ls: seq<Line>): Loader
  {
    if ls == [] then st else Apply(Fold(st, ls[..|ls| - 1]), ls[|ls| - 1])
  }

  /** The data LoadFromReader builds from its input lines. */
  function Load(lines: seq<string>): Data
  {
    Fold(Loader(map[], ""), Parse(lines, true)).data
  }

  /** Applying x + y applies x, then y. */
  lemma {:induction false} FoldAppend(st: Loader, x: seq<Line>, y: seq<Line>)
    ensures Fold(st, x + y) == Fold(Fold(st, x), y)
    decreases |y|
  {
    if y == [] {
      assert x + y == x;
    } else {
      Seqs.TakeAppend(x, y);
      FoldAppend(st, x, y[..|y| - 1]);
    }
  }

  lemma FoldThree(st: Loader, x: seq<Line>, y: seq<Line>, z: seq<Line>)
    ensures Fold(st, x + y + z) == Fold(Fold(Fold(st, x), y), z)
  {
    FoldAppend(st, x + y, z);
    FoldAppend(st, x, y);
  }

  /** LoadFromReader: the configuration the lines describe. */
  method LoadFromReader(lines: seq<string>) returns (cfg: Config)
    ensures fresh(cfg)
    ensures cfg.data == Load(lines)
  {
    cfg := new Config();
    var section := "";
    ghost var ls := Parse(lines, true);
    for i := 0 to |lines|
      invariant Fold(Loader(map[], ""), ls[..i]) == Loader(cfg.data, section)
    {
      Seqs.TakeTake(ls, i);
      match Classify(lines[i], i == 0)
      case Skipped =>
      case Header(name) =>
        section := name;
        if name !in cfg.data {
          cfg.data := cfg.data[name := map[]];
        }
      case Assignment(key, val) =>
        // the section is created when missing, then the key set in it
        cfg.data := cfg.data[section := Entries(cfg.data, section)[key := val]];
    }
    Seqs.TakeAll(ls);
  }

  // ---------------------------------------------------------------------
  // Serializing

  /** The runes that make SaveToWriter quote a value: tab, space, '"', ';', '#', '[', ']', '='. */
  predicate SpecialRune(c: char)
  {
    c == '\t' || c == ' ' || c == '"' || c == ';' || c == '#' || c == '[' || c == ']' || c == '='
  }

  /** strings.ContainsAny(v, "\t \";#[]="). */
  function ContainsSpecial(v: string): (r: bool)
    ensures r <==> exists i :: 0 <= i < |v| && SpecialRune(v[i])
  {
    if v == [] then false
    else if SpecialRune(v[0]) then true
    else
      assert forall i :: 1 <= i < |v| ==> v[i] == v[1..][i - 1];
      ContainsSpecial(v[1..])
  }

  function QuoteValue(v: string): string
  {
    if ContainsSpecial(v) then "\"" + v + "\"" else v
  }

  function EntryLine(k: string, v: string): string
  {
    k + "=" + QuoteValue(v)
  }

  /** The lines for the keys of kv, in the order given. */
  function EntryLines(kv: Section, keys: seq<string>): (lines: seq<string>)
    requires forall k :: k in keys ==> k in kv
    ensures |lines| == |keys|
  {
    if keys == [] then []
    else EntryLines(kv, keys[..|keys| - 1]) + [EntryLine(keys[|keys| - 1], kv[keys[|keys| - 1]])]
  }

  /** A section's header line; the section without a name has none. */
  function SectionHead(s: string): seq<string>
  {
    if s != "" then ["[" + s + "]"] else []
  }

  /** A section's lines: its header, its entries sorted by key, a blank line. */
  ghost function SectionLines(s: string, kv: Section): (lines: seq<string>)
    ensures lines != []
  {
    SectionHead(s) + EntryLines(kv, GoSort.SortedOf(kv.Keys)) + [""]
  }

  /** The lines for the sections in the order given. */
  ghost function SaveLines(d: Data, secs: seq<string>): (lines: seq<string>)
    ensures secs != [] ==> lines != []
  {
    if secs == [] then []
    else SaveLines(d, secs[..|secs| - 1]) + SectionLines(secs[|secs| - 1], Entries(d, secs[|secs| - 1]))
  }

  /** Each line followed by a newline. */
  function Text(lines: seq<string>): string
  {
    if lines == [] then [] else lines[0] + "\n" + Text(lines[1..])
  }

  lemma {:induction false} TextAppend(lines: seq<string>, l: string)
    ensures Text(lines + [l]) == Text(lines) + (l + "\n")
  {
    if lines != [] {
      assert (lines + [l])[1..] == lines[1..] + [l];
      TextAppend(lines[1..], l);
    }
  }

  /** The text SaveToWriter writes for d: sections sorted by name. */
  ghost function SaveText(d: Data): string
  {
    Text(SaveLines(d, GoSort.SortedOf(d.Keys)))
  }

  /** The keys of a map collected and sorted with sort.Strings. */
  method SortedKeys<V>(m: map<string, V>) returns (keys: seq<string>)
    ensures keys == GoSort.SortedOf(m.Keys)
  {
    var names := Collections.Keys(m);
    keys := GoSort.SortStrings(names);
    GoSort.SortedCollection(keys, names, m.Keys);
  }

  /** Writing the next entry line of a section extends its text by that line. */
  lemma WriteEntryStep(s: string, kv: Section, keys: seq<string>, j: nat)
    requires j < |keys| && forall k :: k in keys ==> k in kv
    ensures Text(SectionHead(s) + EntryLines(kv, keys[..j + 1]))
         == Text(SectionHead(s) + EntryLines(kv, keys[..j])) + (EntryLine(keys[j], kv[keys[j]]) + "\n")
  {
    var line := EntryLine(keys[j], kv[keys[j]]);
    Seqs.TakeTake(keys, j);
    assert EntryLines(kv, keys[..j + 1]) == EntryLines(kv, keys[..j]) + [line];
    TextAppend(SectionHead(s) + EntryLines(kv, keys[..j]), line);
    assert SectionHead(s) + EntryLines(kv, keys[..j + 1]) == SectionHead(s) + EntryLines(kv, keys[..j]) + [line];
  }

  /** Text of a concatenation is the concatenated texts. */
  lemma {:induction false} TextConcat(a: seq<string>, b: seq<string>)
    ensures Text(a + b) == Text(a) + Text(b)
    decreases |a|
  {
    if a == [] {
      assert a + b == b;
    } else {
      assert (a + b)[1..] == a[1..] + b;
      TextConcat(a[1..], b);
    }
  }

  /** SaveToWriter: the text of the configuration; a nil configuration is an error. */
  method SaveToWriter(c: Config?) returns (r: Result<string, IniError>)
    ensures c == null ==> r == Err(NilConfig)
    ensures c != null ==> r == Ok(SaveText(c.data))
  {
    if c == null {
      return Err(NilConfig);
    }
    var d := c.data;
    var secs := SortedKeys(d);
    var out := "";
    for i := 0 to |secs|
      invariant out == Text(SaveLines(d, secs[..i]))
    {
      var s := secs[i];
      assert s in d;
      var t := WriteSection(s, d[s]);
      Seqs.TakeTake(secs, i);
      TextConcat(SaveLines(d, secs[..i]), SectionLines(s, d[s]));
      out := out + t;
    }
    Seqs.TakeAll(secs);
    return Ok(out);
  }

  /** One section as SaveToWriter writes it: header, sorted entries, blank line. */
  method WriteSection(s: string, kv: Section) returns (t: string)
    ensures t == Text(SectionLines(s, kv))
  {
    t := "";
    if s != "" {
      t := "[" + s + "]" + "\n";
    }
    var keys := SortedKeys(kv);
    WriteSectionStart(s, kv, keys);
    for j := 0 to |keys|
      invariant t == Text(SectionHead(s) + EntryLines(kv, keys[..j]))
    {
      var k := keys[j];
      var v := kv[k];
      if ContainsSpecial(v) {
        v := "\"" + v + "\"";
      }
      var line := k + "=" + v;
      WriteEntryStep(s, kv, keys, j);
      t := t + (line + "\n");
    }
    WriteSectionEnd(s, kv, keys);
    t := t + "\n";
  }

  lemma WriteSectionStart(s: string, kv: Section, keys: seq<string>)
    requires forall k :: k in keys ==> k in kv
    ensures Text(SectionHead(s) + EntryLines(kv, keys[..0])) == if s != "" then "[" + s + "]" + "\n" else ""
  {
    assert SectionHead(s) + EntryLines(kv, keys[..0]) == SectionHead(s);
  }

  lemma WriteSectionEnd(s: string, kv: Section, keys: seq<string>)
    requires keys == GoSort.SortedOf(kv.Keys)
    ensures forall k :: k in keys ==> k in kv
    ensures Text(SectionLines(s, kv)) == Text(SectionHead(s) + EntryLines(kv, keys[..|keys|])) + "\n"
  {
    Seqs.TakeAll(keys);
    TextAppend(SectionHead(s) + EntryLines(kv, keys), "");
  }

  // ---------------------------------------------------------------------
  // Saving and loading again

  /** A section name that survives being written as `[name]` and read back. */
  predicate PortableSection(s: string)
  {
    '\n' !in s && TrimSpace(s) == s
  }

  /** A key that survives `key=...` being written and read back. */
  predicate PortableKey(k: string)
  {
    && k != [] && '\n' !in k && '=' !in k
    && !IsSpace(k[0]) && !IsSpace(k[|k| - 1])
    && k[0] != ';' && k[0] != '#' && k[0] != '\U{FEFF}'
  }

  /** A value that survives: no newline, and quoted or free of white space at its ends. */
  predicate PortableValue(v: string)
  {
    '\n' !in v && (ContainsSpecial(v) || TrimSpace(v) == v)
  }

  /** Everything SaveToWriter writes for d reads back as d. */
  predicate Portable(d: Data)
  {
    && (forall s :: s in d ==> PortableSection(s))
    && (forall s, k :: s in d && k in d[s] ==> PortableKey(k) && PortableValue(d[s][k]))
    && ("" in d ==> d[""] != map[])
  }

  /** The input text split at newlines, as the line scanner sees it. */
  function Lines(text: string): seq<string>
  {
    Split(text, "\n")
  }

  /** Text without a newline, then a newline: the first newline is the added one. */
  lemma NewlineAfter(l: string, rest: string)
    requires '\n' !in l
    ensures Index(l + "\n" + rest, "\n") == |l|
  {
    var s := l + "\n" + rest;
    assert OccursAt(s, "\n", |l|) by {
      assert s[|l|..|l| + 1] == "\n";
    }
    forall j | 0 <= j < |l|
      ensures !OccursAt(s, "\n", j)
    {
      assert s[j..j + 1] == [l[j]];
    }
  }

  /** Splitting the text of newline-free lines at newlines gives them back, and an empty last piece. */
  lemma {:induction false} SplitText(lines: seq<string>)
    requires forall l :: l in lines ==> '\n' !in l
    ensures Lines(Text(lines)) == lines + [""]
  {
    if lines == [] {
      assert Index("", "\n") == -1;
    } else {
      var l, rest := lines[0], Text(lines[1..]);
      var s := l + "\n" + rest;
      NewlineAfter(l, rest);
      assert s[..|l|] == l && s[|l| + 1..] == rest;
      SplitText(lines[1..]);
    }
  }

  /** The line for a portable entry reads back as that entry, on any line. */
  lemma EntryLineReads(k: string, v: string, first: bool)
    requires PortableKey(k) && PortableValue(v)
    ensures Classify(EntryLine(k, v), first) == Assignment(k, v)
  {
    QuotedReads(v);
    EntryShapeReads(k, QuoteValue(v), first);
  }

  /** A written value has no white space at its ends, does not end in ']', and loses its quotes again. */
  lemma QuotedReads(v: string)
    requires PortableValue(v)
    ensures var q := QuoteValue(v);
      && Unquote(q) == v
      && (q != [] ==> !IsSpace(q[0]) && !IsSpace(q[|q| - 1]) && q[|q| - 1] != ']')
  {
    var q := QuoteValue(v);
    if ContainsSpecial(v) {
      assert q[1..|q| - 1] == v;
    } else if v != [] {
      assert !SpecialRune(v[0]) && !SpecialRune(v[|v| - 1]);
    }
  }

  /** `k=q` reads back as k set to q without its quotes. */
  lemma EntryShapeReads(k: string, q: string, first: bool)
    requires PortableKey(k)
    requires q != [] ==> !IsSpace(q[0]) && !IsSpace(q[|q| - 1]) && q[|q| - 1] != ']'
    ensures Classify(k + "=" + q, first) == Assignment(k, Unquote(q))
  {
    var line := k + "=" + q;
    IndexRuneAfter(k, '=', q);
    assert line[0] == k[0] && line[..|k|] == k && line[|k| + 1..] == q;
    assert line[|line| - 1] == if q == [] then '=' else q[|q| - 1];
    ClassifyAssignment(line, first, k, q);
    TrimSpaceOfTrimmed(k);
    TrimSpaceOfTrimmed(q);
  }

  /** A trimmed line with a '=' after its first rune, not a comment and not in brackets, is an assignment. */
  lemma ClassifyAssignment(line: string, first: bool, key: string, rest: string)
    requires line != [] && line[0] != '\U{FEFF}' && line[0] != ';' && line[0] != '#'
    requires !IsSpace(line[0]) && !IsSpace(line[|line| - 1])
    requires !(line[0] == '[' && line[|line| - 1] == ']')
    requires 0 < |key| == IndexRune(line, '=')
    requires line[..|key|] == key && line[|key| + 1..] == rest
    ensures Classify(line, first) == Assignment(TrimSpace(key), Unquote(TrimSpace(rest)))
  {
    ClassifyClean(line, first);
  }

  /** A line already trimmed, and not starting with a byte-order mark, is classified as it stands. */
  lemma ClassifyClean(line: string, first: bool)
    requires line != [] && line[0] != '\U{FEFF}'
    requires !IsSpace(line[0]) && !IsSpace(line[|line| - 1])
    ensures Classify(line, first) == ClassifyTrimmed(line)
  {
    TrimPrefixMismatch(line, Bom);
    TrimSpaceOfTrimmed(line);
  }

  /** A portable section name's header reads back as that name, on any line. */
  lemma HeaderLineReads(s: string, first: bool)
    requires PortableSection(s) && s != ""
    ensures Classify("[" + s + "]", first) == Header(s)
  {
    var line := "[" + s + "]";
    assert line[0] == '[' && line[|line| - 1] == ']' && line[1..|line| - 1] == s;
    ClassifyHeader(line, first);
  }

  /** A line in brackets is the header of the name between them. */
  lemma ClassifyHeader(line: string, first: bool)
    requires |line| >= 2 && line[0] == '[' && line[|line| - 1] == ']'
    ensures Classify(line, first) == Header(TrimSpace(line[1..|line| - 1]))
  {
    ClassifyClean(line, first);
  }

  /** A blank line is skipped. */
  lemma ClassifyBlank(first: bool)
    ensures Classify("", first) == Skipped
  {
    assert TrimPrefix("", Bom) == "";
  }

  /** Applying one line's meaning. */
  lemma FoldOne(st: Loader, l: Line)
    ensures Fold(st, [l]) == Apply(st, l)
  {
    assert [l][..0] == [];
  }

  /** Reading the entry lines of kv for keys adds those entries to the current section. */
  lemma {:induction false} FoldEntryLines(acc: Data, s: string, kv: Section, keys: seq<string>, first: bool)
    requires forall k :: k in keys ==> k in kv && PortableKey(k) && PortableValue(kv[k])
    ensures Fold(Loader(acc, s), Parse(EntryLines(kv, keys), first))
         == Loader(if keys == [] then acc else acc[s := Entries(acc, s) + Maps.Pick(kv, keys)], s)
    decreases |keys|
  {
    if keys != [] {
      var n := |keys|;
      var p, k := keys[..n - 1], keys[n - 1];
      var prev, line := EntryLines(kv, p), EntryLine(k, kv[k]);
      var f := first && prev == [];
      Seqs.MapFirstAppend(prev, [line], Classify, first);
      FoldAppend(Loader(acc, s), Parse(prev, first), Parse([line], f));
      FoldEntryLines(acc, s, kv, p, first);
      Seqs.MapFirstOne(line, Classify, f);
      EntryLineReads(k, kv[k], f);
      var mid := if p == [] then acc else acc[s := Entries(acc, s) + Maps.Pick(kv, p)];
      FoldOne(Loader(mid, s), Assignment(k, kv[k]));
      AddEntry(acc, s, kv, keys);
    }
  }

  /** Setting the next key in the current section extends the picked entries by it. */
  lemma AddEntry(acc: Data, s: string, kv: Section, keys: seq<string>)
    requires keys != [] && forall k :: k in keys ==> k in kv
    ensures var p, k := keys[..|keys| - 1], keys[|keys| - 1];
      var mid := if p == [] then acc else acc[s := Entries(acc, s) + Maps.Pick(kv, p)];
      mid[s := Entries(mid, s)[k := kv[k]]] == acc[s := Entries(acc, s) + Maps.Pick(kv, keys)]
  {
    var p, k := keys[..|keys| - 1], keys[|keys| - 1];
    var e := Entries(acc, s);
    if p == [] {
      Maps.UnionUpdate(e, map[], k, kv[k]);
      Maps.UnionEmpty(e);
    } else {
      var mid := e + Maps.Pick(kv, p);
      Maps.UnionUpdate(e, Maps.Pick(kv, p), k, kv[k]);
      Maps.UpdateTwice(acc, s, mid, mid[k := kv[k]]);
    }
  }

  /** Reading a section's header line, if it has one, creates the empty section and enters it. */
  lemma FoldHeader(acc: Data, cur: string, s: string, first: bool)
    requires s !in acc && PortableSection(s)
    requires s == "" ==> cur == ""
    ensures Fold(Loader(acc, cur), Parse(SectionHead(s), first))
         == Loader(if s != "" then acc[s := map[]] else acc, s)
  {
    if s != "" {
      Seqs.MapFirstOne("[" + s + "]", Classify, first);
      HeaderLineReads(s, first);
      FoldOne(Loader(acc, cur), Header(s));
    } else {
      assert Parse([], first) == [];
    }
  }

  /** Reading a section's entry lines, sorted by key, adds them to the section just entered. */
  lemma FoldSortedEntries(acc: Data, s: string, kv: Section, first: bool)
    requires s !in acc
    requires forall k :: k in kv ==> PortableKey(k) && PortableValue(kv[k])
    requires s == "" ==> kv != map[]
    ensures Fold(Loader(if s != "" then acc[s := map[]] else acc, s), Parse(EntryLines(kv, GoSort.SortedOf(kv.Keys)), first))
         == Loader(acc[s := kv], s)
  {
    var keys := GoSort.SortedOf(kv.Keys);
    var mid := if s != "" then acc[s := map[]] else acc;
    forall k | k in keys
      ensures k in kv && PortableKey(k) && PortableValue(kv[k])
    {
      assert k in kv.Keys;
    }
    FoldEntryLines(mid, s, kv, keys, first);
    Maps.PickAll(kv, keys);
    Maps.UnionEmpty(kv);
    if keys == [] {
      assert kv.Keys == {};
    } else {
      assert keys[0] in kv;
      if s != "" {
        Maps.UpdateTwice(acc, s, map[], kv);
      }
    }
  }

  /** Reading a portable section's lines adds the section and enters it. */
  lemma FoldSection(acc: Data, cur: string, s: string, kv: Section, first: bool)
    requires s !in acc && PortableSection(s)
    requires forall k :: k in kv ==> PortableKey(k) && PortableValue(kv[k])
    requires s == "" ==> cur == "" && kv != map[]
    ensures var head, body := SectionHead(s), EntryLines(kv, GoSort.SortedOf(kv.Keys));
      Fold(Loader(acc, cur), Parse(head, first) + Parse(body, first && head == []) + [Skipped]) == Loader(acc[s := kv], s)
  {
    var head, body := SectionHead(s), EntryLines(kv, GoSort.SortedOf(kv.Keys));
    FoldThree(Loader(acc, cur), Parse(head, first), Parse(body, first && head == []), [Skipped]);
    FoldHeader(acc, cur, s, first);
    FoldSortedEntries(acc, s, kv, first && head == []);
    FoldOne(Loader(acc[s := kv], s), Skipped);
  }

  /** A section's lines read as its header, its entries and a blank line. */
  lemma ParseSectionLines(s: string, kv: Section, first: bool)
    ensures var head, body := SectionHead(s), EntryLines(kv, GoSort.SortedOf(kv.Keys));
      Parse(SectionLines(s, kv), first) == Parse(head, first) + Parse(body, first && head == []) + [Skipped]
  {
    var head, body := SectionHead(s), EntryLines(kv, GoSort.SortedOf(kv.Keys));
    Seqs.MapFirstAppend(head + body, [""], Classify, first);
    Seqs.MapFirstAppend(head, body, Classify, first);
    Seqs.MapFirstOne("", Classify, first && head + body == []);
    ClassifyBlank(first && head + body == []);
  }

  /** A blank line changes nothing. */
  lemma FoldBlank(st: Loader, first: bool)
    ensures Fold(st, Parse([""], first)) == st
  {
    Seqs.MapFirstOne("", Classify, first);
    ClassifyBlank(first);
    FoldOne(st, Skipped);
  }

  /** Reading the saved lines of strictly sorted sections gives those sections back. */
  lemma {:induction false} FoldSaveLines(d: Data, secs: seq<string>)
    requires Portable(d)
    requires GoSort.StrictlySorted(secs)
    requires forall s :: s in secs ==> s in d
    ensures Fold(Loader(map[], ""), Parse(SaveLines(d, secs), true))
         == Loader(Maps.Pick(d, secs), if secs == [] then "" else secs[|secs| - 1])
    decreases |secs|
  {
    if secs == [] {
      assert Parse([], true) == [];
    } else {
      var n := |secs|;
      var p, s := secs[..n - 1], secs[n - 1];
      FoldSaveLines(d, p);
      var acc := Maps.Pick(d, p);
      var cur := if p == [] then "" else p[|p| - 1];
      var kv := Entries(d, s);
      var before := SaveLines(d, p);
      assert before == [] <==> p == [];
      Seqs.MapFirstAppend(before, SectionLines(s, kv), Classify, true);
      FoldAppend(Loader(map[], ""), Parse(before, true), Parse(SectionLines(s, kv), p == []));
      assert s in d && kv == d[s] && PortableSection(s);
      forall k | k in kv
        ensures PortableKey(k) && PortableValue(kv[k])
      {
      }
      assert s !in acc by {
        if s in p {
          var i :| 0 <= i < n - 1 && secs[i] == s;
          GoSort.LessAsymmetric(secs[i], secs[n - 1]);
        }
      }
      assert s == "" ==> p == [] by {
        if p != [] {
          assert GoSort.Less(secs[0], s);
        }
      }
      ParseSectionLines(s, kv, p == []);
      FoldSection(acc, cur, s, kv, p == []);
    }
  }

  /** Saving a portable configuration and loading the text again gives the same configuration. */
  lemma SaveLoadRoundTrip(d: Data)
    requires Portable(d)
    ensures Load(Lines(SaveText(d))) == d
  {
    var secs := GoSort.SortedOf(d.Keys);
    var lines := SaveLines(d, secs);
    SaveLinesOneLine(d, secs);
    SplitText(lines);
    Seqs.MapFirstAppend(lines, [""], Classify, true);
    FoldAppend(Loader(map[], ""), Parse(lines, true), Parse([""], lines == []));
    FoldSaveLines(d, secs);
    FoldBlank(Loader(Maps.Pick(d, secs), if secs == [] then "" else secs[|secs| - 1]), lines == []);
    Maps.PickAll(d, secs);
  }

  /** No saved line of a portable configuration contains a newline. */
  lemma {:induction false} SaveLinesOneLine(d: Data, secs: seq<string>)
    requires Portable(d)
    requires forall s :: s in secs ==> s in d
    ensures forall l :: l in SaveLines(d, secs) ==> '\n' !in l
    decreases |secs|
  {
    if secs != [] {
      var s := secs[|secs| - 1];
      SaveLinesOneLine(d, secs[..|secs| - 1]);
      var kv := Entries(d, s);
      assert s in d && kv == d[s] && PortableSection(s);
      forall k | k in kv
        ensures '\n' !in k && '\n' !in kv[k]
      {
        assert PortableKey(k) && PortableValue(kv[k]);
      }
      SectionLinesOneLine(s, kv);
    }
  }

  lemma SectionLinesOneLine(s: string, kv: Section)
    requires '\n' !in s
    requires forall k :: k in kv ==> '\n' !in k && '\n' !in kv[k]
    ensures forall l :: l in SectionLines(s, kv) ==> '\n' !in l
  {
    var keys := GoSort.SortedOf(kv.Keys);
    EntryLinesOneLine(kv, keys);
    assert '\n' !in "[" + s + "]";
  }

  lemma {:induction false} EntryLinesOneLine(kv: Section, keys: seq<string>)
    requires forall k :: k in keys ==> k in kv && '\n' !in k && '\n' !in kv[k]
    ensures forall l :: l in EntryLines(kv, keys) ==> '\n' !in l
    decreases |keys|
  {
    if keys != [] {
      var k := keys[|keys| - 1];
      EntryLinesOneLine(kv, keys[..|keys| - 1]);
      assert '\n' !in EntryLine(k, kv[k]);
    }
  }

  // ---------------------------------------------------------------------
  // The configuration object

  class Config {
    var data: Data

    /** New: an empty configuration. */
    constructor ()
      ensures data == map[]
    {
      data := map[];
    }

    predicate Has(section: string, key: string)
      reads this
    {
      Present(data, section, key)
    }

    /** GetString: the stored value, or def when the section or the key is missing. */
    function GetString(section: string, key: string, def: string): (v: string)
      reads this
      ensures Has(section, key) ==> v == data[section][key]
      ensures !Has(section, key) ==> v == def
    {
      Lookup(data, section, key, def)
    }

    /**
     * GetInt: an absent or empty value gives def; otherwise the trimmed value
     * parsed by strconv.Atoi, or def and an error when it does not parse.
     */
    function GetInt(section: string, key: string, def: int): (r: Got<int>)
      reads this
      ensures GetString(section, key, "") == "" ==> r == Got(def, None)
      ensures GetString(section, key, "") != "" && r.err.None? ==> Atoi(TrimSpace(GetString(section, key, ""))) == Some(r.value)
      ensures r.err.Some? ==> r.value == def && Atoi(TrimSpace(GetString(section, key, ""))) == None
    {
      var v := GetString(section, key, "");
      if v == "" then Got(def, None)
      else
        match Atoi(TrimSpace(v))
        case Some(n) => Got(n, None)
        case None => Got(def, Some(InvalidInt(TrimSpace(v))))
    }

    /**
     * GetBool: the trimmed, lower-cased value; empty gives def, true/yes/on/1
     * give true, false/no/off/0 give false, anything else def and an error.
     */
    function GetBool(section: string, key: string, def: bool): (r: Got<bool>)
      reads this
      ensures var w := BoolWord(GetString(section, key, ""));
        && (r.err.None? <==> w == "" || IsTrueWord(w) || IsFalseWord(w))
        && (r.err.None? && w != "" ==> (r.value <==> IsTrueWord(w)))
        && (r.err.Some? || w == "" ==> r.value == def)
    {
      var w := BoolWord(GetString(section, key, ""));
      if w == "" then Got(def, None)
      else if IsTrueWord(w) then Got(true, None)
      else if IsFalseWord(w) then Got(false, None)
      else Got(def, Some(InvalidBool(w)))
    }

    /** Set: creates the section if needed and stores the value. */
    method Set(section: string, key: string, value: string)
      modifies this
      ensures data == Assign(old(data), section, key, value)
      ensures Has(section, key) && GetString(section, key, "") == value
    {
      if section !in data {
        data := data[section := map[]];
      }
      data := data[section := data[section][key := value]];
    }

    /** Delete: removes the key from its section; a missing section or key changes nothing. */
    method Delete(section: string, key: string)
      modifies this
      ensures data == Removed(old(data), section, key)
      ensures !Has(section, key)
    {
      if section in data {
        data := data[section := data[section] - {key}];
      }
    }

    /** Sections: every section name once, in ascending order. */
    method Sections() returns (secs: seq<string>)
      ensures GoSort.StrictlySorted(secs)
      ensures forall s :: s in secs <==> s in data
      ensures secs == GoSort.SortedOf(data.Keys)
    {
      secs := SortedKeys(data);
    }

    /** Keys: the section's keys in ascending order; none for a missing section. */
    method Keys(section: string) returns (keys: seq<string>)
      ensures section !in data ==> keys == []
      ensures section in data ==> GoSort.StrictlySorted(keys) && forall k :: k in keys <==> k in data[section]
      ensures section in data ==> keys == GoSort.SortedOf(data[section].Keys)
    {
      if section !in data {
        return [];
      }
      keys := SortedKeys(data[section]);
    }

    /** One side of Merge: every section of src merged into this configuration. */
    method MergeFrom(src: Data, overwrite: bool)
      modifies this
      ensures data == MergeData(old(data), src, overwrite)
    {
      ghost var d := data;
      var rest := src.Keys;
      while rest != {}
        invariant rest <= src.Keys
        invariant forall s :: s in data <==> s in d || (s in src && s !in rest)
        invariant forall s :: s in data ==>
          data[s] == if s in src && s !in rest then MergeSection(Entries(d, s), src[s], overwrite) else d[s]
        decreases |rest|
      {
        var s :| s in rest;
        assert Entries(data, s) == Entries(d, s);
        ghost var before := data;
        MergeSectionInto(s, src[s], overwrite);
        rest := rest - {s};
        forall t | t in data
          ensures data[t] == if t in src && t !in rest then MergeSection(Entries(d, t), src[t], overwrite) else d[t]
        {
          if t != s {
            assert data[t] == before[t];
          }
        }
      }
      DataIsMerge(data, d, src, overwrite);
    }

    /** Merges kv into the section as Merge's inner loop does. */
    method MergeSectionInto(section: string, kv: Section, overwrite: bool)
      modifies this
      ensures data == old(data)[section := MergeSection(Entries(old(data), section), kv, overwrite)]
    {
      ghost var x := Entries(data, section);
      if section !in data {
        data := data[section := map[]];
      }
      var rest := kv.Keys;
      while rest != {}
        invariant rest <= kv.Keys
        invariant section in data && data == old(data)[section := data[section]]
        invariant forall k :: k in data[section] <==> k in x || (k in kv && k !in rest)
        invariant forall k :: k in data[section] ==>
          data[section][k] == if k in kv && k !in rest && (overwrite || k !in x) then kv[k] else x[k]
        decreases |rest|
      {
        var k :| k in rest;
        if overwrite || !Has(section, k) {
          data := data[section := data[section][k := kv[k]]];
        }
        rest := rest - {k};
      }
      SectionIsMerge(data[section], x, kv, overwrite);
    }
  }

  function DataOf(c: Config?): Data
    reads c
  {
    if c == null then map[] else c.data
  }

  /**
   * Merge: a new configuration with a's entries, then b's; on a shared key
   * b's value replaces a's only when overwrite. A nil side counts as empty;
   * neither input changes.
   */
  method Merge(a: Config?, b: Config?, overwrite: bool) returns (out: Config)
    ensures fresh(out)
    ensures out.data == MergeData(DataOf(a), DataOf(b), overwrite)
  {
    out := new Config();
    MergeIdentity(DataOf(a), true);
    MergeIdentity(DataOf(a), overwrite);
    if a != null {
      out.MergeFrom(a.data, true);
    }
    if b != null {
      out.MergeFrom(b.data, overwrite);
    }
  }

  // ---------------------------------------------------------------------
  // Reading values back

  /** An int64 stored with strconv.Itoa reads back through GetInt. */
  lemma GetIntOfItoa(c: Config, section: string, key: string, n: int, def: int)
    requires MinInt64 <= n <= MaxInt64
    requires c.Has(section, key) && c.data[section][key] == Itoa(n)
    ensures c.GetInt(section, key, def) == Got(n, None)
  {
    var t := Itoa(n);
    assert t[|t| - 1] == DecimalDigits(if n < 0 then -n else n)[|DecimalDigits(if n < 0 then -n else n)| - 1];
    TrimSpaceOfTrimmed(t);
    AtoiItoa(n);
  }
}
