/**
 The state of a `TSChineseDictionary` as a value, and each of its operations as
 a function from the old state to the new one.  The class in
 ChineseConverter.dfy is proved to follow these functions step for step; the
 properties of the phrase table are proved here about the functions.
 */
module PhraseTable {
  import opened Wrappers
  import opened StringOps
  import opened MappingOrder

  /** One warning line of the log, with the two strings the message quotes. */
  datatype LogEntry =
    | DuplicateSource(source: string, target: string)
    | NestedSource(source: string, container: string)

  /** `keys` is the enumeration order of the sorted dictionary, `m` its
      source-to-target mapping. */
  datatype Table = Table(keys: seq<string>, m: map<string, string>, hasError: bool, logs: seq<LogEntry>)

  /** The keys are enumerated in strictly increasing comparer order and are
      exactly the sources of the mapping. */
  ghost predicate Valid(t: Table) {
    && StrictlySorted(t.keys)
    && (forall k :: k in t.m <==> k in t.keys)
  }

  /** Every key in `keys` has a value in `m`. */
  ghost predicate KeysMapped(keys: seq<string>, m: map<string, string>) {
    forall k :: k in keys ==> k in m
  }

  /** A new dictionary: no mappings, no error, no log. */
  function Empty(): (t: Table)
    ensures Valid(t) && t.m == map[] && !t.hasError && t.logs == []
  {
    Table([], map[], false, [])
  }

  /** `ClearLogs`. */
  function ClearLogs(t: Table): Table {
    t.(hasError := false, logs := [])
  }

  /** The first value, in key order, that contains `s`: the value the nested
      source warning quotes. */
  function FirstContaining(keys: seq<string>, m: map<string, string>, s: string): (r: Option<string>)
    requires KeysMapped(keys, m)
    ensures r == None <==> forall i :: 0 <= i < |keys| ==> !Contains(m[keys[i]], s)
    ensures r.Some? ==> exists i :: 0 <= i < |keys| && r.value == m[keys[i]] && Contains(r.value, s)
                                   && forall j :: 0 <= j < i ==> !Contains(m[keys[j]], s)
  {
    if keys == [] then None
    else if Contains(m[keys[0]], s) then Some(m[keys[0]])
    else FirstContaining(keys[1..], m, s)
  }

  /** `Add(source, target)` refuses the source: it is already a key, or it occurs
      in the target of some existing mapping. */
  ghost predicate Rejects(t: Table, source: string) {
    source in t.m || exists k :: k in t.m && Contains(t.m[k], source)
  }

  /** `Add(sourceWord, targetWord)`. */
  function AddPair(t: Table, source: string, target: string): (r: Table)
    requires Valid(t)
    ensures Valid(r)
  {
    if source in t.m then
      t.(hasError := true, logs := t.logs + [DuplicateSource(source, target)])
    else match FirstContaining(t.keys, t.m, source)
      case Some(container) =>
        t.(hasError := true, logs := t.logs + [NestedSource(source, container)])
      case None =>
        InsertSortedSorted(t.keys, source);
        t.(keys := InsertSorted(t.keys, source), m := t.m[source := target])
  }

  /** The line grammar of `Add(mapping)`: `source=target`, optionally followed by
      a comment introduced by `;` or `=`.  None when the line adds nothing. */
  function ParseLine(line: string): Option<(string, string)> {
    if IsNullOrWhiteSpace(line) || StartsWith(line, ";") then None
    else
      var separatorIndex := IndexOfAny(line, {'='});
      if separatorIndex <= 0 then None
      else
        var rest := line[separatorIndex + 1..];
        var commentIndex := IndexOfAny(rest, {';', '='});
        Some((line[..separatorIndex], if commentIndex > 0 then rest[..commentIndex] else rest))
  }

  /** `Add(mapping)`. */
  function AddLine(t: Table, line: string): (r: Table)
    requires Valid(t)
    ensures Valid(r)
  {
    match ParseLine(line)
    case None => t
    case Some((source, target)) => AddPair(t, source, target)
  }

  /** `Add(dict)`, with the dictionary given as the sequence of its entries in
      enumeration order. */
  function AddAll(t: Table, entries: seq<(string, string)>): (r: Table)
    requires Valid(t)
    ensures Valid(r)
    decreases |entries|
  {
    if entries == [] then t
    else AddAll(AddPair(t, entries[0].0, entries[0].1), entries[1..])
  }

  /** `Load(fileName)`, with the file given as the sequence of its lines. */
  function LoadLines(t: Table, lines: seq<string>): (r: Table)
    requires Valid(t)
    ensures Valid(r)
    decreases |lines|
  {
    if lines == [] then t
    else LoadLines(AddLine(t, lines[0]), lines[1..])
  }

  /** The lines of several files, one file after the other. */
  function Concat(files: seq<seq<string>>): seq<string> {
    if files == [] then [] else Concat(files[..|files| - 1]) + files[|files| - 1]
  }

  /** The substitution of `Convert`: one `ReplaceAll` per key, in key order, each
      on the text the earlier keys produced.  None where `StringBuilder.Replace`
      throws, at an empty key. */
  function ConvertKeys(keys: seq<string>, m: map<string, string>, text: string): Option<string>
    requires KeysMapped(keys, m)
    decreases |keys|
  {
    if keys == [] then Some(text)
    else if keys[0] == [] then None
    else ConvertKeys(keys[1..], m, ReplaceAll(text, keys[0], m[keys[0]]))
  }

  /** `Convert(input)`. */
  function Convert(t: Table, input: string): Option<string>
    requires Valid(t)
  {
    ConvertKeys(t.keys, t.m, input)
  }

  // ---------------------------------------------------------------------------
  // Key order

  /** Keys are visited longest first, and keys of equal length in ascending
      ordinal order; no key is visited twice. */
  lemma KeyOrder(t: Table, i: int, j: int)
    requires Valid(t) && 0 <= i < j < |t.keys|
    ensures |t.keys[i]| > |t.keys[j]| || (|t.keys[i]| == |t.keys[j]| && OrdinalCompare(t.keys[i], t.keys[j]) < 0)
    ensures t.keys[i] != t.keys[j]
  {
    LessIrreflexive(t.keys[i]);
  }

  /** The visiting order is a function of the set of keys alone. */
  lemma KeysDetermined(t1: Table, t2: Table)
    requires Valid(t1) && Valid(t2) && t1.m.Keys == t2.m.Keys
    ensures t1.keys == t2.keys
  {
    SortedUnique(t1.keys, t2.keys);
  }

  // ---------------------------------------------------------------------------
  // Checked insertion

  /** When some target contains the source, the scan finds one. */
  lemma FirstContainingFinds(t: Table, source: string)
    requires Valid(t) && exists k :: k in t.m && Contains(t.m[k], source)
    ensures exists k :: k in t.m && FirstContaining(t.keys, t.m, source) == Some(t.m[k]) && Contains(t.m[k], source)
  {
    var k :| k in t.m && Contains(t.m[k], source);
    var i :| 0 <= i < |t.keys| && t.keys[i] == k;
    assert Contains(t.m[t.keys[i]], source);
    var c := FirstContaining(t.keys, t.m, source);
    var i' :| 0 <= i' < |t.keys| && c.value == t.m[t.keys[i']] && Contains(c.value, source);
    assert t.keys[i'] in t.m;
  }

  /** A refused `Add` keeps every mapping and the key order, sets the error flag
      and appends exactly one warning: the duplicate warning for a known
      source, otherwise the nested warning quoting a target that contains the
      source. */
  lemma AddRejected(t: Table, source: string, target: string)
    requires Valid(t) && Rejects(t, source)
    ensures var r := AddPair(t, source, target);
      && r.keys == t.keys && r.m == t.m && r.hasError
      && |r.logs| == |t.logs| + 1 && r.logs[..|t.logs|] == t.logs
    ensures source in t.m ==>
      AddPair(t, source, target).logs[|t.logs|] == DuplicateSource(source, target)
    ensures source !in t.m ==>
      exists k :: k in t.m && Contains(t.m[k], source)
        && AddPair(t, source, target).logs[|t.logs|] == NestedSource(source, t.m[k])
  {
    if source !in t.m {
      FirstContainingFinds(t, source);
      var k :| k in t.m && FirstContaining(t.keys, t.m, source) == Some(t.m[k]) && Contains(t.m[k], source);
      assert AddPair(t, source, target) == t.(hasError := true, logs := t.logs + [NestedSource(source, t.m[k])]);
    }
  }

  /** An accepted `Add` gains exactly `source ↦ target`, inserts `source` among
      the keys and leaves the error flag and the log alone. */
  lemma {:induction false} AddAccepted(t: Table, source: string, target: string)
    requires Valid(t) && !Rejects(t, source)
    ensures var r := AddPair(t, source, target);
      && r.m == t.m[source := target]
      && (forall k :: k in r.keys <==> k in t.keys || k == source)
      && r.hasError == t.hasError && r.logs == t.logs
  {
    forall i | 0 <= i < |t.keys| ensures !Contains(t.m[t.keys[i]], source) {
      assert t.keys[i] in t.m;
    }
  }

  /** Every `Add` keeps every existing mapping (there is no overwrite), and it
      sets the error flag exactly when it writes to the log. */
  lemma AddKeeps(t: Table, source: string, target: string)
    requires Valid(t)
    ensures var r := AddPair(t, source, target);
      && (forall k :: k in t.m ==> k in r.m && r.m[k] == t.m[k])
      && |t.logs| <= |r.logs| <= |t.logs| + 1
      && r.logs[..|t.logs|] == t.logs
      && r.hasError == (t.hasError || |r.logs| > |t.logs|)
  {
    if Rejects(t, source) {
      AddRejected(t, source, target);
    } else {
      AddAccepted(t, source, target);
    }
  }

  /** Only existing targets are checked against a new source.  Adding `a ↦ b`
      and then `b ↦ c` refuses the second mapping, while adding `b ↦ c` and
      then `a ↦ b` keeps both. */
  lemma NestedOrderMatters(a: string, b: string, c: string)
    requires a != b && !Contains(c, a)
    ensures var r := AddPair(AddPair(Empty(), a, b), b, c);
      r.m == map[a := b] && r.hasError && |r.logs| == 1
    ensures var r := AddPair(AddPair(Empty(), b, c), a, b);
      r.m == map[b := c, a := b] && !r.hasError && r.logs == []
  {
    var t1 := AddPair(Empty(), a, b);
    AddAccepted(Empty(), a, b);
    ContainsItself(b);
    AddRejected(t1, b, c);
    var t2 := AddPair(Empty(), b, c);
    AddAccepted(Empty(), b, c);
    AddAccepted(t2, a, b);
  }

  // ---------------------------------------------------------------------------
  // The line parser

  /** `Add(mapping)` adds nothing for a blank line, a comment line, a line
      without `=` and a line that starts with `=`. */
  lemma ParseLineNone(line: string)
    ensures ParseLine(line) == None <==>
      || IsNullOrWhiteSpace(line)
      || StartsWith(line, ";")
      || '=' !in line
      || line[0] == '='
  {
    if '=' in line {
      var i :| 0 <= i < |line| && line[i] == '=';
      assert line[i] in {'='};
    }
  }

  /** Such a line leaves the dictionary exactly as it was. */
  lemma AddLineIgnores(t: Table, line: string)
    requires Valid(t)
    requires || IsNullOrWhiteSpace(line) || StartsWith(line, ";") || '=' !in line || line[0] == '='
    ensures AddLine(t, line) == t
  {
    ParseLineNone(line);
  }

  /** What a parsed line yields: the source is the non-empty text before the
      first `=`; the target is the rest of the line, cut before its first `;`
      or `=` when that separator is not the rest's first character. */
  lemma ParseLineSome(line: string, source: string, target: string)
    requires ParseLine(line) == Some((source, target))
    ensures source != [] && '=' !in source && source[0] != ';'
    ensures StartsWith(line, source + "=")
    ensures var rest := line[|source| + 1..];
      && (rest != [] && rest[0] in {';', '='} ==> target == rest)
      && (rest == [] || rest[0] !in {';', '='} ==>
            && StartsWith(rest, target)
            && ';' !in target && '=' !in target
            && (|target| < |rest| ==> rest[|target|] in {';', '='}))
  {
    var i := IndexOfAny(line, {'='});
    assert source == line[..i];
    assert line[..i + 1] == source + "=";
    var rest := line[i + 1..];
    var j := IndexOfAny(rest, {';', '='});
    assert forall q :: 0 <= q < |target| ==> target[q] == rest[q];
    if rest == [] || rest[0] !in {';', '='} {
      assert j != 0;
      assert ';' !in target && '=' !in target by {
        forall q | 0 <= q < |target| ensures target[q] !in {';', '='} {
          assert rest[q] == target[q];
        }
      }
    }
  }

  /** The first `=` of `source=...` is the one after the source. */
  lemma SeparatorAfter(source: string, rest: string)
    requires '=' !in source
    ensures IndexOfAny(source + ("=" + rest), {'='}) == |source|
  {
    forall q | 0 <= q < |source| ensures source[q] !in {'='} {
      assert source[q] in source;
    }
    IndexOfAnyAfter(source, "=" + rest, {'='});
  }

  /** A comment after a non-empty target is cut off, and nothing is cut from a
      line without a comment. */
  lemma CommentCut(target: string, comment: string)
    requires ';' !in target && '=' !in target
    requires comment == [] || (target != [] && comment[0] in {';', '='})
    ensures var rest := target + comment;
      var commentIndex := IndexOfAny(rest, {';', '='});
      (if commentIndex > 0 then rest[..commentIndex] else rest) == target
  {
    forall q | 0 <= q < |target| ensures target[q] !in {';', '='} {
      assert target[q] in target;
    }
    IndexOfAnyAfter(target, comment, {';', '='});
    if comment == [] {
      assert target + comment == target;
    } else {
      assert (target + comment)[..|target|] == target;
    }
  }

  /** A line written as `source=target`, optionally followed by a comment, is
      parsed back into the same pair. */
  lemma ParseFormat(source: string, target: string, comment: string)
    requires source != [] && '=' !in source && source[0] != ';'
    requires ';' !in target && '=' !in target
    requires comment == [] || (target != [] && comment[0] in {';', '='})
    ensures ParseLine(source + "=" + target + comment) == Some((source, target))
  {
    var rest := target + comment;
    var line := source + ("=" + rest);
    assert line == source + "=" + target + comment;
    assert !IsNullOrWhiteSpace(line) by {
      assert line[|source|] == '=';
    }
    assert !StartsWith(line, ";") by {
      assert line[0] == source[0];
    }
    SeparatorAfter(source, rest);
    assert line[..|source|] == source && line[|source| + 1..] == rest;
    CommentCut(target, comment);
  }

  /** A separator right after `=` cuts nothing: everything after the first `=`
      is the target, separator included. */
  lemma ParseLeading(source: string, rest: string)
    requires source != [] && '=' !in source && source[0] != ';'
    requires rest != [] && rest[0] in {';', '='}
    ensures ParseLine(source + "=" + rest) == Some((source, rest))
  {
    var line := source + ("=" + rest);
    assert line == source + "=" + rest;
    assert !IsNullOrWhiteSpace(line) by {
      assert line[|source|] == '=';
    }
    assert !StartsWith(line, ";") by {
      assert line[0] == source[0];
    }
    SeparatorAfter(source, rest);
    assert line[..|source|] == source && line[|source| + 1..] == rest;
  }

  // ---------------------------------------------------------------------------
  // Folds: Add(dict), Load

  /** Loading two blocks of lines is loading their concatenation. */
  lemma {:induction false} LoadLinesAppend(t: Table, a: seq<string>, b: seq<string>)
    requires Valid(t)
    ensures LoadLines(t, a + b) == LoadLines(LoadLines(t, a), b)
    decreases |a|
  {
    if a != [] {
      assert (a + b)[0] == a[0] && (a + b)[1..] == a[1..] + b;
      LoadLinesAppend(AddLine(t, a[0]), a[1..], b);
    } else {
      assert a + b == b;
    }
  }

  /** Loading never removes or changes a mapping, never clears the error flag,
      adds at most one log entry per line, and sets the flag exactly when it
      writes to the log. */
  lemma {:induction false} LoadLinesKeeps(t: Table, lines: seq<string>)
    requires Valid(t)
    ensures var r := LoadLines(t, lines);
      && (forall k :: k in t.m ==> k in r.m && r.m[k] == t.m[k])
      && |t.logs| <= |r.logs| <= |t.logs| + |lines|
      && r.logs[..|t.logs|] == t.logs
      && r.hasError == (t.hasError || |r.logs| > |t.logs|)
    decreases |lines|
  {
    if lines != [] {
      var t' := AddLine(t, lines[0]);
      match ParseLine(lines[0]) {
        case None =>
        case Some((source, target)) => AddKeeps(t, source, target);
      }
      LoadLinesKeeps(t', lines[1..]);
    }
  }

  /** The same for `Add(dict)`. */
  lemma {:induction false} AddAllKeeps(t: Table, entries: seq<(string, string)>)
    requires Valid(t)
    ensures var r := AddAll(t, entries);
      && (forall k :: k in t.m ==> k in r.m && r.m[k] == t.m[k])
      && |t.logs| <= |r.logs| <= |t.logs| + |entries|
      && r.logs[..|t.logs|] == t.logs
      && r.hasError == (t.hasError || |r.logs| > |t.logs|)
    decreases |entries|
  {
    if entries != [] {
      AddKeeps(t, entries[0].0, entries[0].1);
      AddAllKeeps(AddPair(t, entries[0].0, entries[0].1), entries[1..]);
    }
  }

  /** `ClearLogs` forgets the log and the error flag and keeps every mapping. */
  lemma ClearLogsKeeps(t: Table)
    requires Valid(t)
    ensures var r := ClearLogs(t);
      Valid(r) && r.keys == t.keys && r.m == t.m && !r.hasError && r.logs == []
  {
  }

  // ---------------------------------------------------------------------------
  // Substitution

  lemma {:induction false} ConvertKeysFailsIff(keys: seq<string>, m: map<string, string>, text: string)
    requires KeysMapped(keys, m)
    ensures ConvertKeys(keys, m, text) == None <==> [] in keys
    decreases |keys|
  {
    if keys != [] && keys[0] != [] {
      ConvertKeysFailsIff(keys[1..], m, ReplaceAll(text, keys[0], m[keys[0]]));
      assert keys == [keys[0]] + keys[1..];
    }
  }

  /** `Convert` fails (the replace throws) exactly when the empty string is a
      key; it is also the only way it can fail. */
  lemma ConvertFailsIff(t: Table, input: string)
    requires Valid(t)
    ensures Convert(t, input) == None <==> [] in t.m
  {
    ConvertKeysFailsIff(t.keys, t.m, input);
  }

  lemma {:induction false} ConvertKeysIdentity(keys: seq<string>, m: map<string, string>, text: string)
    requires KeysMapped(keys, m) && [] !in keys
    requires forall k :: k in keys ==> !Contains(text, k)
    ensures ConvertKeys(keys, m, text) == Some(text)
    decreases |keys|
  {
    if keys != [] {
      ReplaceAllAbsent(text, keys[0], m[keys[0]]);
      ConvertKeysIdentity(keys[1..], m, text);
    }
  }

  /** A text in which no key occurs comes back unchanged; in particular `Convert`
      is the identity on an empty dictionary. */
  lemma ConvertIdentity(t: Table, input: string)
    requires Valid(t) && [] !in t.m
    requires forall k :: k in t.m ==> !Contains(input, k)
    ensures Convert(t, input) == Some(input)
  {
    ConvertKeysIdentity(t.keys, t.m, input);
  }

  /** The result of `Convert` depends only on the mapping, not on the order in
      which the mappings were added. */
  lemma ConvertOrderIndependent(t1: Table, t2: Table, input: string)
    requires Valid(t1) && Valid(t2) && t1.m == t2.m
    ensures Convert(t1, input) == Convert(t2, input)
  {
    KeysDetermined(t1, t2);
  }
}
