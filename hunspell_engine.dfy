/**
 * The spell-check engine: a set of words the user added, and the languages
 * loaded so far, each with its own Hunspell instance and text codec.
 *
 * Hunspell and the codecs are foreign code. A loaded dictionary is modelled as
 * a `Speller` value that answers spell and suggest queries on encoded bytes and
 * declares its encoding name; a codec is a pair of conversion functions; the
 * codec registry and the opening of a dictionary are functions of the
 * `Environment`. Nothing is assumed about any of them.
 */
module SpellEngine {
  import opened Common
  import opened DictSearch
  import opened CodecNames

  type Bytes = seq<bv8>
  type Word = string

  /** A Hunspell instance: spell returns non-zero for an accepted word. */
  datatype Speller = Speller(
    spell: Bytes -> int,
    suggest: Bytes -> seq<Bytes>,
    dicEncoding: string)

  /** A text codec between words and a dictionary's byte encoding. */
  datatype Codec = Codec(fromUnicode: Word -> Bytes, toUnicode: Bytes -> Word)

  /** Language and country are the locale's enumeration values. */
  datatype Locale = Locale(name: string, language: nat, country: nat)

  /** What is reported about a loaded language. */
  datatype DictInfo = DictInfo(language: nat, country: nat, filename: Path)

  /** One loaded language. */
  datatype LangItem = LangItem(speller: Speller, codec: Codec, info: DictInfo)

  /**
   * The process-wide services a call to addLanguage depends on: the search
   * list, the filesystem at the time of the call, the codec registry, and the
   * Hunspell instance opened from a pair of files.
   */
  datatype Environment = Environment(
    dictPaths: SearchList,
    fs: FileSystem,
    codecForName: string -> Option<Codec>,
    openSpeller: DictLocation -> Speller)

  /** The words of a stored word list, as a set. */
  function Elements(ws: seq<Word>): set<Word> {
    set w | w in ws
  }

  /** Language `li`'s Hunspell instance accepts `w` once encoded with its codec. */
  predicate Accepts(li: LangItem, w: Word) {
    li.speller.spell(li.codec.fromUnicode(w)) != 0
  }

  /** `w` is spelled correctly: a custom word, or accepted by some loaded language. */
  predicate Spells(dict: set<Word>, langs: seq<LangItem>, w: Word) {
    w in dict || exists i :: 0 <= i < |langs| && Accepts(langs[i], w)
  }

  /** The suggestions of language `li` for `w`, decoded with its codec, in Hunspell's order. */
  function Decoded(li: LangItem, w: Word): seq<Word> {
    var raw := li.speller.suggest(li.codec.fromUnicode(w));
    seq(|raw|, i requires 0 <= i < |raw| => li.codec.toUnicode(raw[i]))
  }

  /** The suggestions of all languages, in load order. */
  function SuggestionsOf(langs: seq<LangItem>, w: Word): seq<Word>
    decreases |langs|
  {
    if |langs| == 0 then []
    else SuggestionsOf(langs[..|langs| - 1], w) + Decoded(langs[|langs| - 1], w)
  }

  /** The languages to append for `locale` once its file pair has been found at `loc`. */
  function Entry(env: Environment, locale: Locale, loc: DictLocation): seq<LangItem> {
    var speller := env.openSpeller(loc);
    match env.codecForName(NormalizeCodecName(speller.dicEncoding))
    case None => []
    case Some(codec) => [LangItem(speller, codec, DictInfo(locale.language, locale.country, loc.dic))]
  }

  /** At the level of the `Spells` predicate: an added word is accepted, whatever is loaded. */
  lemma CustomWordSpells(dict: set<Word>, langs: seq<LangItem>, w: Word)
    ensures Spells(dict + {w}, langs, w)
  {
  }

  /** At the level of the `Spells` predicate: with no custom words and no language loaded, nothing is accepted. */
  lemma NothingLoadedSpellsNothing(w: Word)
    ensures !Spells({}, [], w)
  {
  }

  /** Appending a language accepts exactly the words it accepts besides the old ones. */
  lemma SpellsAppend(dict: set<Word>, langs: seq<LangItem>, extra: seq<LangItem>, w: Word)
    ensures Spells(dict, langs + extra, w) <==>
      Spells(dict, langs, w) || exists i :: 0 <= i < |extra| && Accepts(extra[i], w)
  {
    var all := langs + extra;
    if exists i :: 0 <= i < |all| && Accepts(all[i], w) {
      var i :| 0 <= i < |all| && Accepts(all[i], w);
      if i >= |langs| {
        assert extra[i - |langs|] == all[i];
      }
    }
    if exists i :: 0 <= i < |langs| && Accepts(langs[i], w) {
      var i :| 0 <= i < |langs| && Accepts(langs[i], w);
      assert all[i] == langs[i];
    }
    if exists i :: 0 <= i < |extra| && Accepts(extra[i], w) {
      var i :| 0 <= i < |extra| && Accepts(extra[i], w);
      assert all[|langs| + i] == extra[i];
    }
  }

  /** The suggestions of two lists of languages are those of the first followed by those of the second. */
  lemma {:induction false} SuggestionsOfAppend(l1: seq<LangItem>, l2: seq<LangItem>, w: Word)
    ensures SuggestionsOf(l1 + l2, w) == SuggestionsOf(l1, w) + SuggestionsOf(l2, w)
    decreases |l2|
  {
    if |l2| == 0 {
      assert l1 + l2 == l1;
    } else {
      var front := l2[..|l2| - 1];
      SuggestionsOfAppend(l1, front, w);
      assert (l1 + l2)[..|l1 + l2| - 1] == l1 + front;
      assert (l1 + l2)[|l1 + l2| - 1] == l2[|l2| - 1];
    }
  }

  /** A word is suggested exactly when some loaded language suggests it. */
  lemma {:induction false} SuggestionsOfMembers(langs: seq<LangItem>, w: Word, s: Word)
    ensures s in SuggestionsOf(langs, w) <==> exists i :: 0 <= i < |langs| && s in Decoded(langs[i], w)
    decreases |langs|
  {
    if |langs| > 0 {
      var front := langs[..|langs| - 1];
      SuggestionsOfMembers(front, w, s);
      forall i | 0 <= i < |front| ensures front[i] == langs[i] {
      }
      if s in Decoded(langs[|langs| - 1], w) {
        assert 0 <= |langs| - 1 < |langs|;
      }
      if exists i :: 0 <= i < |langs| && s in Decoded(langs[i], w) {
        var i :| 0 <= i < |langs| && s in Decoded(langs[i], w);
        if i < |front| {
          assert s in Decoded(front[i], w);
        }
      }
    }
  }

  /**
   * The spell-check engine. `runtimeDict` holds the words the user added;
   * `languages` the loaded languages in the order they were added.
   */
  class HunspellEngine {
    var runtimeDict: set<Word>
    var languages: seq<LangItem>

    /**
     * Starts with no language and with the words of the custom word file, or
     * with no words if the file could not be opened (`stored == None`).
     */
    constructor (stored: Option<seq<Word>>)
      ensures runtimeDict == (if stored.Some? then Elements(stored.value) else {})
      ensures languages == []
    {
      var dict: set<Word> := {};
      if stored.Some? {
        var ws := stored.value;
        var k := 0;
        while k < |ws|
          invariant 0 <= k <= |ws|
          invariant dict == Elements(ws[..k])
        {
          assert ws[..k + 1] == ws[..k] + [ws[k]];
          dict := dict + {ws[k]};
          k := k + 1;
        }
        assert ws[..|ws|] == ws;
      }
      runtimeDict := dict;
      languages := [];
    }

    /**
     * The words written to the custom word file when the engine is destroyed:
     * none if the file cannot be opened for writing (`None`), otherwise every
     * custom word exactly once, in no particular order.
     */
    method SaveRuntimeDict(canWrite: bool) returns (written: Option<seq<Word>>)
      ensures written.Some? <==> canWrite
      ensures written.Some? ==> Elements(written.value) == runtimeDict
      ensures written.Some? ==> DuplicateFree(written.value)
    {
      if !canWrite {
        return None;
      }
      var rest := runtimeDict;
      var out: seq<Word> := [];
      while rest != {}
        invariant rest <= runtimeDict
        invariant Elements(out) + rest == runtimeDict
        invariant Elements(out) !! rest
        invariant DuplicateFree(out)
        decreases |rest|
      {
        var w :| w in rest;
        assert w !in Elements(out);
        out := out + [w];
        rest := rest - {w};
      }
      return Some(out);
    }

    /**
     * addLanguage: looks for the language's file pair; fails, changing
     * nothing, when there is none. When there is one it succeeds, and appends
     * the language only if the rewritten encoding name has a codec.
     */
    method AddLanguage(env: Environment, locale: Locale) returns (ok: bool)
      modifies this
      ensures runtimeDict == old(runtimeDict)
      ensures ok <==> FirstPair(env.fs, env.dictPaths, locale.name).Some?
      ensures !ok ==> languages == old(languages)
      ensures ok ==> languages == old(languages) + Entry(env, locale, FirstPair(env.fs, env.dictPaths, locale.name).value)
    {
      var found := ScanDictPaths(env.dictPaths, env.fs, locale.name);
      if found.Some? {
        var dic := found.value.dic;
        var speller := env.openSpeller(found.value);
        var codecName := NormalizeCodecName(speller.dicEncoding);
        var codec := env.codecForName(codecName);
        if codec.Some? {
          var li := LangItem(speller, codec.value, DictInfo(locale.language, locale.country, dic));
          languages := languages + [li];
        }
        return true;
      }
      return false;
    }

    /** spell: custom words first, then the languages in load order, stopping at the first that accepts. */
    method Spell(word: Word) returns (b: bool)
      ensures b == Spells(runtimeDict, languages, word)
    {
      if |runtimeDict| > 0 && word in runtimeDict {
        return true;
      }
      var k := 0;
      while k < |languages|
        invariant 0 <= k <= |languages|
        invariant forall j :: 0 <= j < k ==> !Accepts(languages[j], word)
      {
        var li := languages[k];
        if li.speller.spell(li.codec.fromUnicode(word)) != 0 {
          return true;
        }
        k := k + 1;
      }
      return false;
    }

    /** addToDictionary: the word joins the custom set; the languages are untouched. */
    method AddToDictionary(word: Word)
      modifies this
      ensures runtimeDict == old(runtimeDict) + {word}
      ensures languages == old(languages)
    {
      runtimeDict := runtimeDict + {word};
    }

    /** suggestions: every language's decoded suggestions, concatenated in load order. */
    method Suggestions(word: Word) returns (qtResult: seq<Word>)
      ensures qtResult == SuggestionsOf(languages, word)
    {
      qtResult := [];
      var k := 0;
      while k < |languages|
        invariant 0 <= k <= |languages|
        invariant qtResult == SuggestionsOf(languages[..k], word)
      {
        var li := languages[k];
        var result := li.speller.suggest(li.codec.fromUnicode(word));
        var sugNum := |result|;
        ghost var before := qtResult;
        var i := 0;
        while i < sugNum
          invariant 0 <= i <= sugNum
          invariant qtResult == before + Decoded(li, word)[..i]
        {
          assert Decoded(li, word)[..i + 1] == Decoded(li, word)[..i] + [li.codec.toUnicode(result[i])];
          qtResult := qtResult + [li.codec.toUnicode(result[i])];
          i := i + 1;
        }
        assert Decoded(li, word)[..sugNum] == Decoded(li, word);
        assert languages[..k + 1][..k] == languages[..k];
        k := k + 1;
      }
      assert languages[..|languages|] == languages;
    }

    /** loadedDicts: the information of each loaded language, in load order. */
    method LoadedDicts() returns (ret: seq<DictInfo>)
      ensures |ret| == |languages|
      ensures forall i :: 0 <= i < |languages| ==> ret[i] == languages[i].info
    {
      ret := [];
      var k := 0;
      while k < |languages|
        invariant 0 <= k <= |languages|
        invariant |ret| == k
        invariant forall i :: 0 <= i < k ==> ret[i] == languages[i].info
      {
        ret := ret + [languages[k].info];
        k := k + 1;
      }
    }
  }

  /** A fresh engine with no stored words accepts no word. */
  method FreshEngineSpellsNothing(word: Word) returns (b: bool)
    ensures !b
  {
    var engine := new HunspellEngine(None);
    b := engine.Spell(word);
  }

  /** A word added to the custom set is accepted at once, with or without languages. */
  method AddedWordIsSpelled(engine: HunspellEngine, word: Word) returns (b: bool)
    modifies engine
    ensures b
  {
    engine.AddToDictionary(word);
    b := engine.Spell(word);
  }

  /** Adding a word that is already a custom word changes neither the custom set nor the languages. */
  method ReAddUnchanged(engine: HunspellEngine, word: Word)
    requires word in engine.runtimeDict
    modifies engine
    ensures engine.runtimeDict == old(engine.runtimeDict)
    ensures engine.languages == old(engine.languages)
  {
    engine.AddToDictionary(word);
  }

  /** The custom words saved at the end of one session are the custom words of the next. */
  method NextSession(engine: HunspellEngine) returns (next: HunspellEngine)
    ensures next.runtimeDict == engine.runtimeDict
    ensures next.languages == []
  {
    var written := engine.SaveRuntimeDict(true);
    next := new HunspellEngine(written);
  }

  /**
   * With a single search directory that holds the pair and an encoding the
   * registry knows, a fresh engine loads the language and reports it with the
   * `.dic` path of that directory.
   */
  method LoadFromSingleDirectory(env: Environment, locale: Locale) returns (ok: bool, dicts: seq<DictInfo>)
    requires |env.dictPaths| == 1 && HoldsPair(env.fs, env.dictPaths[0], locale.name)
    requires env.codecForName(NormalizeCodecName(env.openSpeller(PairIn(env.fs, env.dictPaths[0], locale.name)).dicEncoding)).Some?
    ensures ok
    ensures dicts == [DictInfo(locale.language, locale.country, DicPath(env.fs, env.dictPaths[0], locale.name))]
  {
    var engine := new HunspellEngine(None);
    ok := engine.AddLanguage(env, locale);
    dicts := engine.LoadedDicts();
  }

  /**
   * A found pair whose encoding no codec matches still makes addLanguage
   * succeed, yet no language is loaded.
   */
  method UnknownEncodingStillSucceeds(env: Environment, locale: Locale) returns (ok: bool, dicts: seq<DictInfo>)
    requires |env.dictPaths| == 1 && HoldsPair(env.fs, env.dictPaths[0], locale.name)
    requires env.codecForName(NormalizeCodecName(env.openSpeller(PairIn(env.fs, env.dictPaths[0], locale.name)).dicEncoding)).None?
    ensures ok
    ensures dicts == []
  {
    var engine := new HunspellEngine(None);
    ok := engine.AddLanguage(env, locale);
    dicts := engine.LoadedDicts();
  }
}
