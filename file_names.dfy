/**
 * The download name of a generated script: `ProjectsController.SanitizeFileName`
 * replaces every character the file system refuses by `_`, one invalid
 * character at a time, and trims the result.  The set of refused characters
 * (`Path.GetInvalidFileNameChars()`) depends on the platform and is a parameter.
 */
module FileNames {
  import opened Text

  /** `name` with every character of `invalid` replaced by `_`. */
  function Scrub(name: string, invalid: seq<char>): (r: string)
    ensures |r| == |name|
  {
    seq(|name|, i requires 0 <= i < |name| => if name[i] in invalid then '_' else name[i])
  }

  /** The file name `SanitizeFileName` returns. */
  function SanitizedName(name: string, invalid: seq<char>): string {
    Trim(Scrub(name, invalid))
  }

  /** Replaces each invalid character in turn, then trims. */
  method SanitizeFileName(name: string, invalidChars: seq<char>) returns (r: string)
    ensures r == SanitizedName(name, invalidChars)
  {
    var current := name;
    for k := 0 to |invalidChars|
      invariant |current| == |name|
      invariant forall i :: 0 <= i < |name| ==>
        current[i] == (if name[i] in invalidChars[..k] then '_' else name[i])
    {
      var c := invalidChars[k];
      var next := ReplaceChar(current, c, '_');
      forall i | 0 <= i < |name|
        ensures next[i] == (if name[i] in invalidChars[..k + 1] then '_' else name[i])
      {
        assert invalidChars[..k + 1] == invalidChars[..k] + [c];
      }
      current := next;
    }
    assert invalidChars[..|invalidChars|] == invalidChars;
    assert current == Scrub(name, invalidChars);
    r := Trim(current);
  }

  /** Before trimming, every invalid character has become `_`, every other
      character is kept, and the length is unchanged. */
  lemma ScrubPointwise(name: string, invalid: seq<char>, i: int)
    requires 0 <= i < |name|
    ensures |Scrub(name, invalid)| == |name|
    ensures name[i] in invalid ==> Scrub(name, invalid)[i] == '_'
    ensures name[i] !in invalid ==> Scrub(name, invalid)[i] == name[i]
  {
  }

  /** The name has no whitespace at either end, and each of its characters is
      `_` or a valid character of the input. */
  lemma SanitizedShape(name: string, invalid: seq<char>)
    ensures IsTrimmed(SanitizedName(name, invalid))
    ensures |SanitizedName(name, invalid)| <= |name|
    ensures forall ch :: ch in SanitizedName(name, invalid) ==>
      ch == '_' || (ch in name && ch !in invalid)
  {
    var s := Scrub(name, invalid);
    var lo := TrimSlice(s);
    var r := SanitizedName(name, invalid);
    forall ch | ch in r ensures ch == '_' || (ch in name && ch !in invalid) {
      var j :| 0 <= j < |r| && r[j] == ch;
      assert r[j] == s[lo + j];
    }
  }

  /** When `_` is itself valid, no invalid character survives. */
  lemma SanitizedIsValid(name: string, invalid: seq<char>)
    requires '_' !in invalid
    ensures forall ch :: ch in invalid ==> ch !in SanitizedName(name, invalid)
  {
    SanitizedShape(name, invalid);
  }

  /** Scrubbing text whose characters are all `_` or valid changes nothing. */
  lemma ScrubOfClean(s: string, invalid: seq<char>)
    requires forall ch :: ch in s ==> ch == '_' || ch !in invalid
    ensures Scrub(s, invalid) == s
  {
    forall i | 0 <= i < |s| ensures Scrub(s, invalid)[i] == s[i] {
      assert s[i] in s;
    }
  }

  /** Sanitising a sanitised name gives it back. */
  lemma SanitizeIdempotent(name: string, invalid: seq<char>)
    ensures SanitizedName(SanitizedName(name, invalid), invalid) == SanitizedName(name, invalid)
  {
    var r := SanitizedName(name, invalid);
    SanitizedShape(name, invalid);
    ScrubOfClean(r, invalid);
    TrimOfTrimmed(r);
  }
}
