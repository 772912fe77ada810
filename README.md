# TSChineseDictionary in Dafny

This project models the phrase dictionary of the ChineseConverter tool.
Before the Traditional/Simplified conversion runs, the tool rewrites the text
with a table of phrase mappings (source phrase ↦ target phrase), so that
phrases the script converter misses, such as 預設 ↦ 默認, come out right.
The model covers four things:

- **The table** is a dictionary sorted by `WordMappingComparer`: longer
  sources first, and sources of equal length in string order.
- **`Add(source, target)`** refuses a source that is already a key. It also
  refuses a source that occurs inside the target of an existing mapping.
  Each refusal sets the error flag and writes one warning to the log.
- **`Add(line)`** reads the line format `source=target;comment` or
  `source=target=comment`. `Load` feeds every line of a file to it, and
  `Add(dict)` adds every entry of a dictionary.
- **`Convert`** visits the keys in table order. For each key it scans the text
  rewritten so far from left to right and replaces every occurrence that does
  not overlap an earlier replaced one, as `StringBuilder.Replace` does; the
  inserted text is not scanned again.

Files:

- `Wrappers.dfy` holds `Option`.
- `StringOps.dfy` holds the .NET string primitives the code relies on:
  `IsNullOrWhiteSpace`, `IndexOf`/`IndexOfAny`, `StartsWith`, `Contains` and
  `StringBuilder.Replace` (as `ReplaceAll`), with their properties.
- `MappingOrder.dfy` holds `WordMappingComparer`, strict sortedness and sorted
  insertion.
- `PhraseTable.dfy` holds the dictionary's state as a value (`Table`) and each
  operation as a function from the old state to the new one. The properties
  of the dictionary are proved here.
- `ChineseConverter.dfy` holds the class `TSChineseDictionary`. It has the
  source object's fields and its loops. Each method that changes the object
  is proved to move it from `old(State())` to the matching function of
  `PhraseTable`; each query returns the value of the matching function.
- `Scenarios.dfy` works through the repository's unit test. It loads the five
  lines, checks the key order, and converts the test sentence, first on the
  functions and then on the class.

Decisions where the model had to choose:

- **Nested check.** It is substring containment, as the code does it
  (`value.Contains(sourceWord)`). A rule based on equality of source and target
  is not what the code does.
- **Target cut.** A comment separator cuts the target only when it is not the
  target's first character. `預設=;default` therefore adds 預設 ↦ `;default`.
- **Empty target.** It is accepted: `a=` adds `a ↦ ""`.
- **Empty source.** The model does not rule it out, because `Add(source,
  target)` does not either.
  - Into an empty table it is accepted.
  - Into a non-empty table that does not yet hold it, it is refused as nested,
    since every string contains the empty string.
  - If it is already a key, it is refused as a duplicate.
  - Once the empty string is a key, `Convert` returns `None`. This is where
    `StringBuilder.Replace` throws `ArgumentException`.
  - `Add(line)` never yields an empty source.
- **The unit test's expected sentence** is the output of the Word conversion
  that runs after the dictionary. `TestOutput` is the text that the
  dictionary's `Convert` hands to that conversion.

## Model

| member | source | states |
|---|---|---|
| MappingOrder.OrdinalCompare | Source/ChineseConverter/TSChineseDictionary.cs:175 | stands in for `x.CompareTo(y)`; described by OrdinalCompareZeroIff, OrdinalCompareAntisymmetric and OrdinalCompareTransitive |
| MappingOrder.Compare | Source/ChineseConverter/TSChineseDictionary.cs:170-178 | defines the comparer, longer first and then ordinal; described by CompareZeroIff, CompareAntisymmetric and LessIsLengthThenOrdinal |
| MappingOrder.Less | Source/ChineseConverter/TSChineseDictionary.cs:170-178 | x is visited before y when the comparer answers below 0; described by LessTransitive, LessTotal and LessIsLengthThenOrdinal |
| MappingOrder.CompareZeroIff | Source/ChineseConverter/TSChineseDictionary.cs:170-178 | the comparer answers 0 exactly for equal strings, so keys are unique under it |
| MappingOrder.CompareAntisymmetric | Source/ChineseConverter/TSChineseDictionary.cs:170-178 | swapping the arguments negates the answer |
| MappingOrder.LessTransitive | Source/ChineseConverter/TSChineseDictionary.cs:170-178 | the comparer's order is transitive |
| MappingOrder.LessTotal | Source/ChineseConverter/TSChineseDictionary.cs:170-178 | any two different strings are ordered one way or the other |
| MappingOrder.LessIsLengthThenOrdinal | Source/ChineseConverter/TSChineseDictionary.cs:172-177 | x precedes y iff x is longer, or they have the same length and x is smaller in ordinal order |
| MappingOrder.InsertSorted | Source/ChineseConverter/TSChineseDictionary.cs:98 | defines where a new key goes; its contract keeps every old key and adds only the new one; described by InsertSortedSorted and InsertSortedAt |
| MappingOrder.InsertSortedSorted | Source/ChineseConverter/TSChineseDictionary.cs:98 | inserting a new key into the sorted dictionary keeps it strictly sorted |
| MappingOrder.InsertSortedAt | Source/ChineseConverter/TSChineseDictionary.cs:98 | the new key goes after the keys that precede it and before the first that does not |
| MappingOrder.SortedUnique | Source/ChineseConverter/TSChineseDictionary.cs:36 | a strictly sorted key sequence is determined by its set of keys |
| StringOps.IsWhiteSpace | Source/ChineseConverter/TSChineseDictionary.cs:104 | the `Char.IsWhiteSpace` set that a blank line consists of |
| StringOps.IsNullOrWhiteSpace | Source/ChineseConverter/TSChineseDictionary.cs:104 | defines a blank line; described by ParseLineNone |
| StringOps.StartsWith | Source/ChineseConverter/TSChineseDictionary.cs:104 | defines the `;` comment test; described by ParseLineNone |
| StringOps.Contains | Source/ChineseConverter/TSChineseDictionary.cs:88 | defines the substring test of the nested check; described by ContainsChar and ReplacementsPositive |
| StringOps.ReplaceAll | Source/ChineseConverter/TSChineseDictionary.cs:138 | defines `StringBuilder.Replace`; described by ReplaceAllLength, ReplaceAllAbsent, ReplaceAllUnchangedIff and ReplaceAllCopies |
| StringOps.IndexOfAny | Source/ChineseConverter/TSChineseDictionary.cs:106 | the result is -1 iff no character of the set occurs; otherwise it is the index of the first one |
| StringOps.IndexOfAnyAfter | Source/ChineseConverter/TSChineseDictionary.cs:113 | searching past a prefix free of the characters shifts the index by the prefix's length |
| StringOps.ContainsChar | Source/ChineseConverter/TSChineseDictionary.cs:88 | an occurrence of a value holds every character of the value |
| StringOps.ReplaceAllLength | Source/ChineseConverter/TSChineseDictionary.cs:138 | each replacement changes the length by the difference of the two values |
| StringOps.ReplacementsPositive | Source/ChineseConverter/TSChineseDictionary.cs:138 | the replace performs at least one replacement iff the old value occurs |
| StringOps.ReplaceAllAbsent | Source/ChineseConverter/TSChineseDictionary.cs:138 | replacing a value that does not occur leaves the text as it is |
| StringOps.ReplaceAllUnchangedIff | Source/ChineseConverter/TSChineseDictionary.cs:138 | the text is unchanged iff the old value does not occur or is replaced by itself |
| StringOps.ReplaceAllCopies | Source/ChineseConverter/TSChineseDictionary.cs:138 | text without the old value's first character is copied, and the scan goes on after it |
| PhraseTable.Empty | Source/ChineseConverter/TSChineseDictionary.cs:40-46 | a new dictionary has no mapping, no error and no log |
| PhraseTable.FirstContaining | Source/ChineseConverter/TSChineseDictionary.cs:86-96 | the scan finds nothing iff no target contains the source; what it finds is the target of a key that contains it, and no earlier key's target does |
| PhraseTable.Rejects | Source/ChineseConverter/TSChineseDictionary.cs:78-95 | the refusal condition: the source is a key, or some target contains it; AddRejected and AddAccepted are stated on it |
| PhraseTable.AddPair | Source/ChineseConverter/TSChineseDictionary.cs:75-100 | every Add keeps the keys strictly sorted and equal to the mapping's sources |
| PhraseTable.AddRejected | Source/ChineseConverter/TSChineseDictionary.cs:78-95 | a duplicate or nested source leaves keys and mapping unchanged, sets the flag and appends exactly one warning of the right kind, naming a target that contains the source |
| PhraseTable.AddAccepted | Source/ChineseConverter/TSChineseDictionary.cs:98 | otherwise the mapping gains exactly source ↦ target, the keys gain the source, and flag and log are untouched |
| PhraseTable.AddKeeps | Source/ChineseConverter/TSChineseDictionary.cs:75-100 | no Add overwrites or removes a mapping or clears the flag; it sets the flag exactly when it logs, and logs at most once |
| PhraseTable.NestedOrderMatters | Source/ChineseConverter/TSChineseDictionary.cs:86-95 | a ↦ b then b ↦ c refuses the second mapping; b ↦ c then a ↦ b keeps both |
| PhraseTable.KeyOrder | Source/ChineseConverter/TSChineseDictionary.cs:168-179 | keys are visited longest first, equal lengths in ordinal order, none twice |
| PhraseTable.KeysDetermined | Source/ChineseConverter/TSChineseDictionary.cs:36 | the visiting order depends only on the set of sources |
| PhraseTable.ParseLine | Source/ChineseConverter/TSChineseDictionary.cs:104-117 | defines the line grammar; described by ParseLineNone, ParseLineSome, ParseFormat and ParseLeading |
| PhraseTable.AddLine | Source/ChineseConverter/TSChineseDictionary.cs:102-122 | defines `Add(mapping)` as ParseLine then AddPair; keeps the table Valid; described by AddLineIgnores |
| PhraseTable.ParseLineNone | Source/ChineseConverter/TSChineseDictionary.cs:104-107 | a line adds nothing iff it is blank, starts with `;`, has no `=` or starts with `=` |
| PhraseTable.AddLineIgnores | Source/ChineseConverter/TSChineseDictionary.cs:102-122 | such a line leaves the dictionary exactly as it was |
| PhraseTable.ParseLineSome | Source/ChineseConverter/TSChineseDictionary.cs:106-117 | the source is the non-empty text before the first `=`; the target is the rest, cut before its first `;` or `=` unless that is the rest's first character |
| PhraseTable.ParseLeading | Source/ChineseConverter/TSChineseDictionary.cs:113-117 | a target that starts with `;` or `=` is kept whole, separator included |
| PhraseTable.ParseFormat | Source/ChineseConverter/TSChineseDictionary.cs:102-122 | a line written as `source=target` plus an optional comment parses back to the same pair |
| PhraseTable.LoadLines | Source/ChineseConverter/TSChineseDictionary.cs:54-65 | defines `Load` as the fold of AddLine over the lines; keeps the table Valid; described by LoadLinesAppend and LoadLinesKeeps |
| PhraseTable.AddAll | Source/ChineseConverter/TSChineseDictionary.cs:124-131 | defines `Add(dict)` as the fold of AddPair over the entries; keeps the table Valid; described by AddAllKeeps |
| PhraseTable.LoadLinesAppend | Source/ChineseConverter/TSChineseDictionary.cs:67-73 | loading two files in turn is loading their lines in sequence |
| PhraseTable.LoadLinesKeeps | Source/ChineseConverter/TSChineseDictionary.cs:54-65 | loading keeps every mapping, never clears the flag, adds at most one warning per line and sets the flag exactly when it logs |
| PhraseTable.AddAllKeeps | Source/ChineseConverter/TSChineseDictionary.cs:124-131 | the same for adding a dictionary's entries |
| PhraseTable.ClearLogs | Source/ChineseConverter/TSChineseDictionary.cs:48-52 | defines `ClearLogs`; described by ClearLogsKeeps |
| PhraseTable.ClearLogsKeeps | Source/ChineseConverter/TSChineseDictionary.cs:48-52 | ClearLogs empties the log, resets the flag and keeps every mapping and the key order |
| PhraseTable.ConvertKeys | Source/ChineseConverter/TSChineseDictionary.cs:136-139 | defines the fold of ReplaceAll over the keys; described by ConvertKeysFailsIff |
| PhraseTable.Convert | Source/ChineseConverter/TSChineseDictionary.cs:133-141 | defines `Convert` on the table; described by ConvertFailsIff, ConvertIdentity and ConvertOrderIndependent |
| PhraseTable.ConvertKeysFailsIff | Source/ChineseConverter/TSChineseDictionary.cs:136-139 | the fold of replacements fails iff the empty string is among the keys |
| PhraseTable.ConvertFailsIff | Source/ChineseConverter/TSChineseDictionary.cs:133-141 | Convert throws exactly when the empty string is a source |
| PhraseTable.ConvertIdentity | Source/ChineseConverter/TSChineseDictionary.cs:133-141 | a text in which no source occurs, and in particular any text on an empty dictionary, is returned unchanged |
| PhraseTable.ConvertOrderIndependent | Source/ChineseConverter/TSChineseDictionary.cs:133-141 | Convert depends only on the mapping, not on the order the mappings were added in |
| ChineseConverter.TSChineseDictionary.constructor | Source/ChineseConverter/TSChineseDictionary.cs:40-46 | the new object is the empty dictionary |
| ChineseConverter.TSChineseDictionary.HasError | Source/ChineseConverter/TSChineseDictionary.cs:151-157 | the error flag of the state; what sets and clears it is described by AddKeeps, LoadLinesKeeps and ClearLogsKeeps |
| ChineseConverter.TSChineseDictionary.Logs | Source/ChineseConverter/TSChineseDictionary.cs:159-165 | the log of the state, one entry per warning line; described by AddRejected, AddKeeps and ClearLogsKeeps |
| ChineseConverter.TSChineseDictionary.ClearLogs | Source/ChineseConverter/TSChineseDictionary.cs:48-52 | the object's new state is PhraseTable.ClearLogs of the old one |
| ChineseConverter.TSChineseDictionary.FindContaining | Source/ChineseConverter/TSChineseDictionary.cs:86-96 | the loop over the values returns the first target, in key order, that contains the source |
| ChineseConverter.TSChineseDictionary.InsertionPoint | Source/ChineseConverter/TSChineseDictionary.cs:98 | the loop finds the place where the sorted dictionary inserts the new key |
| ChineseConverter.TSChineseDictionary.Add | Source/ChineseConverter/TSChineseDictionary.cs:75-100 | the object's new state is AddPair of the old one, and it stays sorted |
| ChineseConverter.TSChineseDictionary.AddLine | Source/ChineseConverter/TSChineseDictionary.cs:102-122 | the object's new state is AddLine of the old one |
| ChineseConverter.TSChineseDictionary.AddDictionary | Source/ChineseConverter/TSChineseDictionary.cs:124-131 | the loop's result is AddAll, the fold of AddPair over the entries |
| ChineseConverter.TSChineseDictionary.Load | Source/ChineseConverter/TSChineseDictionary.cs:54-65 | the loop's result is LoadLines, the fold of AddLine over the lines |
| ChineseConverter.TSChineseDictionary.LoadFiles | Source/ChineseConverter/TSChineseDictionary.cs:67-73 | loading the files one after another is loading all their lines |
| ChineseConverter.TSChineseDictionary.Convert | Source/ChineseConverter/TSChineseDictionary.cs:133-141 | the loop's result is the fold of ReplaceAll over the keys in table order |
| Scenarios.ParseLine1 | Source/UnitTest.ChineseConverter/TestTSChineseConverter.cs:16 | `預設=默認=default` adds 預設 ↦ 默認 |
| Scenarios.ParseLine4 | Source/UnitTest.ChineseConverter/TestTSChineseConverter.cs:19 | `類別=類;class` adds 類別 ↦ 類 |
| Scenarios.ParseLeadingSeparator | Source/ChineseConverter/TSChineseDictionary.cs:113-117 | a separator right after `=` is kept in the target |
| Scenarios.AddLine4 | Source/UnitTest.ChineseConverter/TestTSChineseConverter.cs:18-19 | 類別 is accepted after 類別名稱 ↦ 類名, because the check looks for the whole source 類別 |
| Scenarios.TestTable | Source/UnitTest.ChineseConverter/TestTSChineseConverter.cs:14-19 | the five test lines give five mappings, no error, and keys in the order 建構函式, 擴充方法, 類別名稱, 預設, 類別 |
| Scenarios.TestConvert | Source/UnitTest.ChineseConverter/TestTSChineseConverter.cs:14-25 | the test sentence becomes `Convert() 是一個擴展方法，它所擴充的類名是 Foo。Foo 類有提供默認構造函數。` |
| Scenarios.TestConvertOnDictionary | Source/UnitTest.ChineseConverter/TestTSChineseConverter.cs:14-25 | the same on the class, with the error flag still false |

## Left out

- The file side of `Load` is not modelled: opening the file and reading its lines. `Load` takes the lines as a sequence, and `LoadFiles` takes one sequence per file.
- `DumpKeys` is left out because it only writes the keys to the console.
- ChineseConverter.TSChineseDictionary.Logs: the log is a sequence of entries, each holding the strings its warning quotes. The exact warning texts and the line breaks of the `StringBuilder` are not modelled.
- MappingOrder.Compare: equal-length sources are ordered by ordinal comparison. `String.CompareTo` is culture-sensitive, so its order may differ for some strings. A culture comparison can also answer 0 for distinct strings of equal length, because it ignores some code points (the soft hyphen U+00AD, for example); `SortedDictionary.ContainsKey` then reports such a string as a duplicate. The duplicate rule of `PhraseTable.AddPair` (a source equal to a key) and the key uniqueness that `MappingOrder.CompareZeroIff` states therefore hold only under the ordinal model.
- PhraseTable.ParseLine: `StartsWith(";")` is modelled as ordinal, while the .NET call is culture-sensitive.
- Characters: a Dafny `char` is a Unicode scalar value, while a .NET `char` is a UTF-16 code unit. Lengths and indices differ only for characters outside the Basic Multilingual Plane.
- Null strings are left out; every string in the model is a value.
- Concurrency is not modelled. The class is used from one thread.
- `Source/ChineseConverter/TSChineseConverter.cs` and `ChineseConverter/TSChineseConverter.cs` are not part of this model. They call Word through COM, or a stub in its place, for the script conversion.
- `Source/ChineseConverter/ITSChineseConverter.cs` is not part of this model; it only declares interfaces.
- `Source/ChineseConverter/Program.cs` is not part of this model; it handles the command line and the console.
- `Source/MergePhrase` is not part of this model: its command line, its JSON reading, and the overwrite option, `Save`, logger and progress callback it expects of the dictionary. The dictionary modelled here has none of these.
- The nested-mapping unit test (Source/UnitTestChineseConverter/TestTSChineseConverter.cs:36-49) loads `NestedMappingTest.dict`, whose contents are not part of this model, and builds the dictionary with a logger constructor that TSChineseDictionary.cs does not declare. Its point is checked instead by `PhraseTable.NestedOrderMatters` and `PhraseTable.AddRejected`.
