/**
 * The two pure checks the endpoint makes before and after transcription:
 * the audio file-type whitelist and the blank-transcript guard.
 */
module Validation {

  /** The accepted declared content types, compared by exact string equality. */
  const ValidTypes: seq<string> := ["audio/mpeg", "audio/mp4", "audio/webm", "audio/wav", "audio/m4a"]

  /** The extensions of the case-insensitive file-name pattern, in lower case. */
  const AudioExtensions: seq<string> := ["mp3", "m4a", "webm", "wav"]

  /**
   * Case folding of a regular expression with the `i` flag and no `u` flag:
   * only ASCII letters fold onto the lower-case letters of the pattern.
   */
  function FoldAscii(c: char): (f: char)
    ensures 'A' <= c <= 'Z' ==> 'a' <= f <= 'z' && f as int == c as int + 32
    ensures !('A' <= c <= 'Z') ==> f == c
  {
    if 'A' <= c <= 'Z' then (c as int + 32) as char else c
  }

  function FoldAll(s: string): (r: string)
    ensures |r| == |s| && forall i :: 0 <= i < |s| ==> r[i] == FoldAscii(s[i])
  {
    seq(|s|, i requires 0 <= i < |s| => FoldAscii(s[i]))
  }

  /** `name` ends with the lower-case `suffix`, comparing case-insensitively; nothing may follow it. */
  predicate EndsWithFolded(name: string, suffix: string) {
    |suffix| <= |name| &&
    forall i :: 0 <= i < |suffix| ==> FoldAscii(name[|name| - |suffix| + i]) == suffix[i]
  }

  /** The file-name test `/\.(mp3|m4a|webm|wav)$/i`. */
  predicate HasAudioExtension(name: string) {
    EndsWithFolded(name, ".mp3") || EndsWithFolded(name, ".m4a") ||
    EndsWithFolded(name, ".webm") || EndsWithFolded(name, ".wav")
  }

  /** A file is refused only when its declared type is not whitelisted AND its name lacks an audio extension. */
  function IsValidAudio(mimeType: string, name: string): (ok: bool)
    ensures ok <==> mimeType in ValidTypes || exists k :: 0 <= k < |AudioExtensions| && EndsWithFolded(name, "." + AudioExtensions[k])
  {
    var refused := mimeType !in ValidTypes && !HasAudioExtension(name);
    assert HasAudioExtension(name) <==> exists k :: 0 <= k < |AudioExtensions| && EndsWithFolded(name, "." + AudioExtensions[k]) by {
      assert "." + AudioExtensions[0] == ".mp3";
      assert "." + AudioExtensions[1] == ".m4a";
      assert "." + AudioExtensions[2] == ".webm";
      assert "." + AudioExtensions[3] == ".wav";
    }
    !refused
  }

  /** Renaming a file with any mix of upper and lower case never changes the verdict on its name. */
  lemma AudioExtensionIgnoresCase(name: string)
    ensures HasAudioExtension(FoldAll(name)) <==> HasAudioExtension(name)
  {
  }

  /** Only the end of the name is inspected: whatever precedes an audio extension is irrelevant. */
  lemma AudioExtensionOnlySuffix(prefix: string, name: string)
    requires HasAudioExtension(name)
    ensures HasAudioExtension(prefix + name)
  {
  }

  /**
   * The whitespace `String.prototype.trim` removes: the ECMAScript WhiteSpace
   * code points (tab, vertical tab, form feed, space, no-break space, byte-order
   * mark and the Space_Separator category) and the LineTerminator code points.
   */
  predicate IsJsWhitespace(c: char) {
    var n := c as int;
    n == 0x09 || n == 0x0A || n == 0x0B || n == 0x0C || n == 0x0D || n == 0x20 ||
    n == 0xA0 || n == 0x1680 || (0x2000 <= n <= 0x200A) || n == 0x2028 || n == 0x2029 ||
    n == 0x202F || n == 0x205F || n == 0x3000 || n == 0xFEFF
  }

  /** The length of the maximal whitespace prefix of `s`. */
  function LeadingWhitespace(s: string): (k: nat)
    ensures k <= |s|
    ensures forall i :: 0 <= i < k ==> IsJsWhitespace(s[i])
    ensures k < |s| ==> !IsJsWhitespace(s[k])
  {
    if s == [] || !IsJsWhitespace(s[0]) then 0 else 1 + LeadingWhitespace(s[1..])
  }

  /** The length of the maximal whitespace suffix of `s`. */
  function TrailingWhitespace(s: string): (k: nat)
    ensures k <= |s|
    ensures forall i :: |s| - k <= i < |s| ==> IsJsWhitespace(s[i])
    ensures k < |s| ==> !IsJsWhitespace(s[|s| - 1 - k])
  {
    if s == [] || !IsJsWhitespace(s[|s| - 1]) then 0 else 1 + TrailingWhitespace(s[..|s| - 1])
  }

  /**
   * `String.prototype.trim`: the window of `s` left after dropping whitespace at
   * both ends. Everything outside the window is whitespace, and a non-empty
   * window starts and ends with a non-whitespace character.
   */
  function Trim(s: string): (r: string)
    ensures LeadingWhitespace(s) + |r| <= |s|
    ensures r == s[LeadingWhitespace(s)..LeadingWhitespace(s) + |r|]
    ensures forall i :: 0 <= i < |s| && !(LeadingWhitespace(s) <= i < LeadingWhitespace(s) + |r|) ==> IsJsWhitespace(s[i])
    ensures r != [] ==> !IsJsWhitespace(r[0]) && !IsJsWhitespace(r[|r| - 1])
  {
    var start := s[LeadingWhitespace(s)..];
    start[..|start| - TrailingWhitespace(start)]
  }

  /** The guard `!transcript || transcript.trim().length === 0`: the transcript holds nothing but whitespace. */
  function IsBlank(transcript: string): (blank: bool)
    ensures blank <==> forall i :: 0 <= i < |transcript| ==> IsJsWhitespace(transcript[i])
  {
    transcript == "" || |Trim(transcript)| == 0
  }
}
