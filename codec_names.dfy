/**
 * Rewriting the encoding name a dictionary declares into a name the codec
 * registry knows. The name is a byte string in the source; every name compared
 * here is ASCII, so the model writes it as a string with one character per byte.
 */
module CodecNames {

  const MicrosoftCp := "microsoft-cp"
  const MicrosoftCp125 := "microsoft-cp125"
  const Windows := "Windows-"
  const Tis620 := "TIS620"
  const Tis620_2533 := "TIS620-2533"

  /** `s` begins with `prefix`. */
  predicate StartsWith(s: string, prefix: string) {
    prefix <= s
  }

  /** Replaces the `len` characters of `s` at `pos` by `after`. */
  function Replace(s: string, pos: nat, len: nat, after: string): string
    requires pos + len <= |s|
  {
    s[..pos] + after + s[pos + len..]
  }

  /** Shortens `s` to its first `size` characters. */
  function Resize(s: string, size: nat): string
    requires size <= |s|
  {
    s[..size]
  }

  /**
   * A `microsoft-cp125x` name gets the prefix `Windows-` in place of
   * `microsoft-cp`; a `TIS620-2533...` name is cut down to `TIS620`; every other
   * name is kept. Neither vendor form survives the rewrite.
   */
  function NormalizeCodecName(name: string): (r: string)
    ensures StartsWith(name, MicrosoftCp125) ==> r == Windows + name[|MicrosoftCp|..]
    ensures StartsWith(name, Tis620_2533) ==> r == Tis620
    ensures !StartsWith(name, MicrosoftCp125) && !StartsWith(name, Tis620_2533) ==> r == name
    ensures !StartsWith(r, MicrosoftCp125) && !StartsWith(r, Tis620_2533)
  {
    if StartsWith(name, MicrosoftCp125) then
      assert name[0] == 'm';
      Replace(name, 0, |MicrosoftCp|, Windows)
    else if StartsWith(name, Tis620_2533) then
      assert Tis620_2533[..|Tis620|] == Tis620;
      Resize(name, |Tis620|)
    else
      name
  }

  /** Rewriting a rewritten name changes nothing. */
  lemma NormalizeCodecNameIdempotent(name: string)
    ensures NormalizeCodecName(NormalizeCodecName(name)) == NormalizeCodecName(name)
  {
  }

  /** Names from real dictionaries, including a Microsoft code page outside 125x, which is kept. */
  lemma NormalizeCodecNameExamples()
    ensures NormalizeCodecName("microsoft-cp1251") == "Windows-1251"
    ensures NormalizeCodecName("TIS620-2533") == "TIS620"
    ensures NormalizeCodecName("TIS620-2533:1990") == "TIS620"
    ensures NormalizeCodecName("ISO8859-1") == "ISO8859-1"
    ensures NormalizeCodecName("microsoft-cp874") == "microsoft-cp874"
  {
    assert "microsoft-cp874"[12] != MicrosoftCp125[12];
    assert "ISO8859-1"[0] != Tis620_2533[0];
  }
}
