/**
 * Locating the affix/dictionary file pair of a language.
 *
 * The search directories come from the process environment and the platform;
 * they are gathered into a set, so each directory occurs once, and the order of
 * the list is the set's iteration order, which nothing specifies. The model
 * therefore takes the list as an arbitrary duplicate-free sequence.
 */
module DictSearch {
  import opened Common

  type Path = string

  /** The memoised list of directories searched for dictionaries. */
  type SearchList = s: seq<Path> | DuplicateFree(s) witness []

  /**
   * The filesystem as one call sees it: which directories exist, which files
   * are readable, and how a file name is joined to a directory.
   */
  datatype FileSystem = FileSystem(
    dirExists: Path -> bool,
    isReadable: Path -> bool,
    filePath: (Path, string) -> Path)

  /** The affix file and the dictionary file of one language. */
  datatype DictLocation = DictLocation(aff: Path, dic: Path)

  const AffExtension := ".aff"
  const DicExtension := ".dic"

  function AffPath(fs: FileSystem, dir: Path, language: string): Path {
    fs.filePath(dir, language + AffExtension)
  }

  function DicPath(fs: FileSystem, dir: Path, language: string): Path {
    fs.filePath(dir, language + DicExtension)
  }

  /** `dir` exists and holds a readable `<language>.aff` and a readable `<language>.dic`. */
  predicate HoldsPair(fs: FileSystem, dir: Path, language: string) {
    fs.dirExists(dir) && fs.isReadable(AffPath(fs, dir, language)) && fs.isReadable(DicPath(fs, dir, language))
  }

  /** The pair of files `<language>.aff` and `<language>.dic` inside `dir`. */
  function PairIn(fs: FileSystem, dir: Path, language: string): DictLocation {
    DictLocation(AffPath(fs, dir, language), DicPath(fs, dir, language))
  }

  /** Specification of the search: the pair in the first directory of `dirs` that holds one. */
  function FirstPair(fs: FileSystem, dirs: seq<Path>, language: string): Option<DictLocation> {
    if |dirs| == 0 then None
    else if HoldsPair(fs, dirs[0], language) then Some(PairIn(fs, dirs[0], language))
    else FirstPair(fs, dirs[1..], language)
  }

  /** `dirs[k]` holds a pair and no directory before it does. */
  predicate FirstMatchAt(fs: FileSystem, dirs: seq<Path>, language: string, k: int) {
    0 <= k < |dirs| && HoldsPair(fs, dirs[k], language) &&
    forall j :: 0 <= j < k ==> !HoldsPair(fs, dirs[j], language)
  }

  /**
   * The search fails exactly when no directory holds a pair, and when the
   * directory at `k` is the first to hold one, the search returns its pair.
   */
  lemma {:induction false} FirstPairIsFirstMatch(fs: FileSystem, dirs: seq<Path>, language: string)
    ensures FirstPair(fs, dirs, language).None? <==>
      forall i :: 0 <= i < |dirs| ==> !HoldsPair(fs, dirs[i], language)
    ensures forall k :: FirstMatchAt(fs, dirs, language, k) ==>
      FirstPair(fs, dirs, language) == Some(PairIn(fs, dirs[k], language))
  {
    if |dirs| > 0 {
      var tail := dirs[1..];
      FirstPairIsFirstMatch(fs, tail, language);
      if !HoldsPair(fs, dirs[0], language) {
        forall k | FirstMatchAt(fs, dirs, language, k)
          ensures FirstPair(fs, dirs, language) == Some(PairIn(fs, dirs[k], language))
        {
          assert k > 0;
          assert tail[k - 1] == dirs[k];
          forall j | 0 <= j < k - 1 ensures !HoldsPair(fs, tail[j], language) {
            assert tail[j] == dirs[j + 1];
          }
          assert FirstMatchAt(fs, tail, language, k - 1);
        }
        forall i | 0 <= i < |tail|
          ensures tail[i] == dirs[i + 1]
        {
        }
      }
    }
  }

  /** A successful search names the first directory of the list that holds a pair. */
  lemma {:induction false} FirstPairWitness(fs: FileSystem, dirs: seq<Path>, language: string)
    requires FirstPair(fs, dirs, language).Some?
    ensures exists k :: (FirstMatchAt(fs, dirs, language, k) &&
      FirstPair(fs, dirs, language) == Some(PairIn(fs, dirs[k], language)))
  {
    if HoldsPair(fs, dirs[0], language) {
      assert FirstMatchAt(fs, dirs, language, 0);
    } else {
      var tail := dirs[1..];
      FirstPairWitness(fs, tail, language);
      var k :| FirstMatchAt(fs, tail, language, k) &&
        FirstPair(fs, tail, language) == Some(PairIn(fs, tail[k], language));
      assert tail[k] == dirs[k + 1];
      forall j | 0 <= j < k + 1
        ensures !HoldsPair(fs, dirs[j], language)
      {
        if j > 0 {
          assert tail[j - 1] == dirs[j];
        }
      }
      assert FirstMatchAt(fs, dirs, language, k + 1);
    }
  }

  /**
   * scanDictPaths: tries the directories in list order and returns the pair of
   * the first existing directory in which both files are readable.
   */
  method ScanDictPaths(dictPaths: SearchList, fs: FileSystem, language: string)
    returns (found: Option<DictLocation>)
    ensures found == FirstPair(fs, dictPaths, language)
  {
    var k := 0;
    while k < |dictPaths|
      invariant 0 <= k <= |dictPaths|
      invariant FirstPair(fs, dictPaths[k..], language) == FirstPair(fs, dictPaths, language)
    {
      var dir := dictPaths[k];
      assert dictPaths[k..][1..] == dictPaths[k + 1..];
      if fs.dirExists(dir) {
        var aff := fs.filePath(dir, language + AffExtension);
        var dic := fs.filePath(dir, language + DicExtension);
        if fs.isReadable(aff) && fs.isReadable(dic) {
          return Some(DictLocation(aff, dic));
        }
      }
      k := k + 1;
    }
    return None;
  }
}
