# QtNote spell-check engine, modelled in Dafny

This project models the Hunspell-based spell-check engine of QtNote
(`plugins/spellchecker/hunspellengine.cpp`). The engine keeps two pieces of state:

- `runtimeDict`, the set of words the user added;
- `languages`, the list of loaded languages in load order. Each entry holds a
  Hunspell instance, a text codec and the reported `DictInfo`: language,
  country and `.dic` path.

The model has four modules:

- `Common` (`common.dfy`): `Option` and `DuplicateFree`.
- `DictSearch` (`dict_search.dfy`): the search for a language's `.aff`/`.dic`
  pair (`scanDictPaths`). The memoised search list is an arbitrary
  duplicate-free sequence (`SearchList`). It comes from a `QSet`, so its order
  is unspecified. The filesystem is a `FileSystem` value: which directories
  exist, which files are readable, and how a name is joined to a directory.
- `CodecNames` (`codec_names.dfy`): the rewrite of the encoding name a
  dictionary declares. `microsoft-cp125x` becomes `Windows-125x` and
  `TIS620-2533...` becomes `TIS620`.
- `SpellEngine` (`hunspell_engine.dfy`) has the class `HunspellEngine`. Its
  fields are `runtimeDict: set<Word>` and `languages: seq<LangItem>`. Its
  methods are `AddLanguage`, `Spell`, `AddToDictionary`, `Suggestions` and
  `LoadedDicts`, plus the loading and saving of the custom word file. Pure
  specification functions sit beside the class: `Spells`, `SuggestionsOf`,
  `Decoded` and `Entry`. The lemmas about them describe how the methods'
  results change as words and languages are added.

Foreign code is represented by values with function-typed fields, and nothing
is assumed about those functions:

- Hunspell (`Speller`: `spell`, `suggest`, `dicEncoding`);
- codecs (`Codec`: `fromUnicode`, `toUnicode`);
- the codec registry (`Environment.codecForName`);
- opening a dictionary (`Environment.openSpeller`).

When a pair is found but no codec matches the rewritten encoding name,
`addLanguage` still returns `true` and loads nothing
(`plugins/spellchecker/hunspellengine.cpp:119-127`); the language is not
rejected. `UnknownEncodingStillSucceeds` states this.

## Model

| member | source | states |
|---|---|---|
| `DictSearch.ScanDictPaths` | plugins/spellchecker/hunspellengine.cpp:40-56 | The result is the pair of the first directory in list order that exists and holds a readable `<lang>.aff` and `<lang>.dic`; it is none when no directory does |
| `DictSearch.FirstPairIsFirstMatch` | plugins/spellchecker/hunspellengine.cpp:40-56 | The search fails if and only if no directory holds a readable pair; when directory `k` is the first that holds one, the search returns exactly that directory's pair |
| `DictSearch.FirstPairWitness` | plugins/spellchecker/hunspellengine.cpp:40-56 | A successful search returns the pair of a directory of the list that holds one, and no earlier directory holds one |
| `CodecNames.NormalizeCodecName` | plugins/spellchecker/hunspellengine.cpp:112-117 | A name starting `microsoft-cp125` has `microsoft-cp` replaced by `Windows-` and the rest kept; a name starting `TIS620-2533` becomes exactly `TIS620`; any other name is unchanged; the result never starts with either vendor prefix |
| `CodecNames.NormalizeCodecNameIdempotent` | plugins/spellchecker/hunspellengine.cpp:112-117 | Rewriting an already rewritten name leaves it unchanged |
| `CodecNames.NormalizeCodecNameExamples` | plugins/spellchecker/hunspellengine.cpp:112-117 | `microsoft-cp1251` becomes `Windows-1251`; `TIS620-2533` and `TIS620-2533:1990` become `TIS620`; `ISO8859-1` and `microsoft-cp874` (not a 125x page) are kept |
| `SpellEngine.HunspellEngine.constructor` | plugins/spellchecker/hunspellengine.cpp:58-69 | A new engine has no languages; its custom words are exactly the words stored in the custom word file, or none when the file cannot be opened |
| `SpellEngine.HunspellEngine.SaveRuntimeDict` | plugins/spellchecker/hunspellengine.cpp:76-84 | On destruction nothing is written when the file cannot be opened for writing; otherwise every custom word is written exactly once and nothing else |
| `SpellEngine.NextSession` | plugins/spellchecker/hunspellengine.cpp:58-85 | Custom words saved by one engine are exactly the custom words of an engine constructed from the saved file |
| `SpellEngine.HunspellEngine.AddLanguage` | plugins/spellchecker/hunspellengine.cpp:105-130 | Returns true exactly when the search finds a pair. On failure the language list is unchanged. On success the list gains the entry for the found pair when the rewritten encoding has a codec, carrying the locale's language, country and the `.dic` path; without a codec the list is unchanged. The custom words never change |
| `SpellEngine.LoadFromSingleDirectory` | plugins/spellchecker/hunspellengine.cpp:105-130 | With one search directory holding the pair and a known encoding, a fresh engine's addLanguage returns true and loadedDicts reports one entry with the locale's language, country and that directory's `.dic` path |
| `SpellEngine.UnknownEncodingStillSucceeds` | plugins/spellchecker/hunspellengine.cpp:118-127 | When the pair is found but no codec matches the rewritten encoding, addLanguage returns true and loadedDicts is empty |
| `SpellEngine.HunspellEngine.Spell` | plugins/spellchecker/hunspellengine.cpp:132-143 | True if and only if the word is a custom word or some loaded language's Hunspell accepts the word encoded with that language's codec |
| `SpellEngine.NothingLoadedSpellsNothing` | plugins/spellchecker/hunspellengine.cpp:132-143 | With no custom word and no language, no word is accepted |
| `SpellEngine.FreshEngineSpellsNothing` | plugins/spellchecker/hunspellengine.cpp:132-143 | A new engine without a custom word file rejects every word |
| `SpellEngine.SpellsAppend` | plugins/spellchecker/hunspellengine.cpp:132-143 | After languages are appended, a word is accepted if and only if it was accepted before or one of the new languages accepts it |
| `SpellEngine.HunspellEngine.AddToDictionary` | plugins/spellchecker/hunspellengine.cpp:145-148 | The custom set gains the word and the language list is unchanged |
| `SpellEngine.CustomWordSpells` | plugins/spellchecker/hunspellengine.cpp:132-148 | A word in the custom set is accepted whatever languages are loaded, including none |
| `SpellEngine.AddedWordIsSpelled` | plugins/spellchecker/hunspellengine.cpp:132-148 | Calling addToDictionary(w) and then spell(w) returns true on any engine |
| `SpellEngine.ReAddUnchanged` | plugins/spellchecker/hunspellengine.cpp:145-148 | Calling addToDictionary with a word already in the custom set leaves both the custom set and the language list unchanged |
| `SpellEngine.HunspellEngine.Suggestions` | plugins/spellchecker/hunspellengine.cpp:150-162 | The result is the concatenation, in load order, of each language's suggestions decoded with its codec, without de-duplication; it is empty when no language is loaded |
| `SpellEngine.SuggestionsOfAppend` | plugins/spellchecker/hunspellengine.cpp:150-162 | The suggestions over two lists of languages are those of the first list followed by those of the second |
| `SpellEngine.SuggestionsOfMembers` | plugins/spellchecker/hunspellengine.cpp:150-162 | A word is suggested if and only if some loaded language's decoded suggestions contain it |
| `SpellEngine.HunspellEngine.LoadedDicts` | plugins/spellchecker/hunspellengine.cpp:164-171 | The result has one entry per loaded language, and entry `i` is language `i`'s info, in load order |

## Left out

- `supportedLanguages`: it depends on Qt's locale parsing and native language and country names.
- How `dictPaths` is built: the `MYSPELL_DICT_DIR` variable, the per-platform directory lists and the process-wide memoisation. The model takes the list as any duplicate-free sequence.
- Filesystem behaviour: `QDir::exists`, `QFileInfo::isReadable` and `QDir::filePath` are arbitrary functions of a `FileSystem` value. Path joining and path cleaning are not modelled.
- Hunspell and QTextCodec are arbitrary functions: spelling, suggestions, the declared encoding, the conversions, and `codecForName` lookup (including its case rules).
- How the Hunspell instance is built: `hunspellengine.h` is not part of this model. Line 112 reads `li.hunspell_` with no construction in sight, so the model takes it to be the instance opened from the found pair (`Environment.openSpeller`).
- Memory management: deleting the Hunspell instances in the destructor and `free_list` after `suggest`.
- The encoding name is a C byte string in the source. The model uses a string with one character per byte, since every name it compares is ASCII.
- `suggest` returns a count and a `char**`. The model uses the list of suggestions, so a negative count cannot occur.
- Custom word persistence: the `QDataStream` framing, reading until end of stream, and the file itself. The file's contents are modelled as a word list, or `None` when the file cannot be opened. Writing takes a flag that says whether the file opened.
- `Locale.name` is a field of its own, so the model does not derive it from the language and the country.
- The diagnostic messages (`qDebug`).
