/**
 `TSChineseDictionary`: the phrase table applied to text before the
 Traditional/Simplified conversion.  Its fields are those of the source object:
 the sorted dictionary (as its key order `keys` and its mapping `dictionary`),
 the error flag and the log.  Each method that changes the object is proved
 to take the state from `old(State())` to the matching function of
 PhraseTable.dfy; each query returns the value of the matching function.
 */
module ChineseConverter {
  import opened Wrappers
  import opened StringOps
  import opened MappingOrder
  import PhraseTable

  class TSChineseDictionary {
    var keys: seq<string>
    var dictionary: map<string, string>
    var hasError: bool
    var logs: seq<PhraseTable.LogEntry>

    /** The object's state as a value. */
    function State(): PhraseTable.Table
      reads this
    {
      PhraseTable.Table(keys, dictionary, hasError, logs)
    }

    ghost predicate Valid()
      reads this
    {
      PhraseTable.Valid(State())
    }

    constructor ()
      ensures Valid() && State() == PhraseTable.Empty()
    {
      keys := [];
      dictionary := map[];
      logs := [];
      hasError := false;
    }

    /** The `HasError` property. */
    function HasError(): bool
      reads this
    {
      hasError
    }

    /** The `Logs` property, one entry per warning line. */
    function Logs(): seq<PhraseTable.LogEntry>
      reads this
    {
      logs
    }

    method ClearLogs()
      requires Valid()
      modifies this
      ensures Valid() && State() == PhraseTable.ClearLogs(old(State()))
    {
      logs := [];
      hasError := false;
    }

    /** The scan of `Add` over the values, in key order: the first value that
        contains `source`, if any. */
    method FindContaining(source: string) returns (container: Option<string>)
      requires Valid()
      ensures container == PhraseTable.FirstContaining(keys, dictionary, source)
    {
      var i := 0;
      while i < |keys|
        invariant 0 <= i <= |keys|
        invariant PhraseTable.FirstContaining(keys[i..], dictionary, source)
               == PhraseTable.FirstContaining(keys, dictionary, source)
      {
        var value := dictionary[keys[i]];
        if Contains(value, source) {
          return Some(value);
        }
        assert keys[i..][1..] == keys[i + 1..];
        i := i + 1;
      }
      return None;
    }

    /** Where the sorted dictionary inserts a new key: before the first key that
        it precedes in comparer order. */
    method InsertionPoint(source: string) returns (j: nat)
      requires Valid() && source !in dictionary
      ensures j <= |keys| && InsertSorted(keys, source) == keys[..j] + [source] + keys[j..]
    {
      j := 0;
      while j < |keys| && Less(keys[j], source)
        invariant 0 <= j <= |keys|
        invariant forall i :: 0 <= i < j ==> Less(keys[i], source)
      {
        j := j + 1;
      }
      InsertSortedAt(keys, source, j);
    }

    /** `Add(sourceWord, targetWord)`: refuse a known source, then refuse a
        source contained in an existing target, otherwise insert. */
    method Add(source: string, target: string)
      requires Valid()
      modifies this
      ensures Valid() && State() == PhraseTable.AddPair(old(State()), source, target)
    {
      if source in dictionary {
        hasError := true;
        logs := logs + [PhraseTable.DuplicateSource(source, target)];
        return;
      }
      var container := FindContaining(source);
      if container.Some? {
        logs := logs + [PhraseTable.NestedSource(source, container.value)];
        hasError := true;
        return;
      }
      var j := InsertionPoint(source);
      ghost var before := State();
      keys := keys[..j] + [source] + keys[j..];
      dictionary := dictionary[source := target];
      assert State() == PhraseTable.AddPair(before, source, target);
    }

    /** `Add(mapping)`: parse one line of the dictionary format and add the pair. */
    method AddLine(mapping: string)
      requires Valid()
      modifies this
      ensures Valid() && State() == PhraseTable.AddLine(old(State()), mapping)
    {
      var parsed := PhraseTable.ParseLine(mapping);
      if parsed.Some? {
        Add(parsed.value.0, parsed.value.1);
      }
    }

    /** `Add(dict)`: the entries of the dictionary, in its enumeration order. */
    method AddDictionary(entries: seq<(string, string)>)
      requires Valid()
      modifies this
      ensures Valid() && State() == PhraseTable.AddAll(old(State()), entries)
    {
      var i := 0;
      while i < |entries|
        invariant 0 <= i <= |entries|
        invariant Valid()
        invariant PhraseTable.AddAll(State(), entries[i..]) == PhraseTable.AddAll(old(State()), entries)
      {
        assert entries[i..][1..] == entries[i + 1..];
        Add(entries[i].0, entries[i].1);
        i := i + 1;
      }
    }

    /** `Load(fileName)`: every line of the file, in order. */
    method Load(lines: seq<string>)
      requires Valid()
      modifies this
      ensures Valid() && State() == PhraseTable.LoadLines(old(State()), lines)
    {
      var i := 0;
      while i < |lines|
        invariant 0 <= i <= |lines|
        invariant Valid()
        invariant PhraseTable.LoadLines(State(), lines[i..]) == PhraseTable.LoadLines(old(State()), lines)
      {
        assert lines[i..][1..] == lines[i + 1..];
        AddLine(lines[i]);
        i := i + 1;
      }
    }

    /** `Load(fileNames)`: every file, in order. */
    method LoadFiles(files: seq<seq<string>>)
      requires Valid()
      modifies this
      ensures Valid() && State() == PhraseTable.LoadLines(old(State()), PhraseTable.Concat(files))
    {
      var i := 0;
      while i < |files|
        invariant 0 <= i <= |files|
        invariant Valid()
        invariant State() == PhraseTable.LoadLines(old(State()), PhraseTable.Concat(files[..i]))
      {
        ghost var before := State();
        Load(files[i]);
        assert files[..i + 1][..i] == files[..i];
        PhraseTable.LoadLinesAppend(old(State()), PhraseTable.Concat(files[..i]), files[i]);
        i := i + 1;
      }
      assert files[..|files|] == files;
    }

    /** `Convert(input)`: replace every occurrence of each key by its target,
        key after key in comparer order, on the text rewritten so far.  None
        where `StringBuilder.Replace` throws, at an empty key. */
    method Convert(input: string) returns (r: Option<string>)
      requires Valid()
      ensures r == PhraseTable.Convert(State(), input)
    {
      var sb := input;
      var i := 0;
      while i < |keys|
        invariant 0 <= i <= |keys|
        invariant PhraseTable.ConvertKeys(keys[i..], dictionary, sb) == PhraseTable.ConvertKeys(keys, dictionary, input)
      {
        var key := keys[i];
        if key == [] {
          return None;
        }
        assert keys[i..][1..] == keys[i + 1..];
        sb := ReplaceAll(sb, key, dictionary[key]);
        i := i + 1;
      }
      return Some(sb);
    }
  }
}
