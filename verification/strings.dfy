/**
 * The small Python string operations the orchestrator relies on:
 * `sub in s`, `s.startswith(p)`, `s.partition(sep)` and `s.replace(old, new)`,
 * plus the two uses built from them (the `data:` URL payload extraction and the
 * backward-compatibility import rewriting of submitted code).
 */
module Strings {
  import opened Base

  /** `sub` occurs in `s` starting at index `i`. */
  predicate OccursAt(s: string, sub: string, i: nat) {
    i + |sub| <= |s| && s[i..i + |sub|] == sub
  }

  /** The leftmost index `k >= i` at which `sub` occurs in `s` (`s.find(sub, i)`). */
  function FindFrom(s: string, sub: string, i: nat): (r: Option<nat>)
    requires i <= |s|
    ensures r.Some? ==> i <= r.value <= |s| && OccursAt(s, sub, r.value)
    ensures r.Some? ==> forall k :: i <= k < r.value ==> !OccursAt(s, sub, k)
    ensures r.None? ==> forall k :: i <= k <= |s| ==> !OccursAt(s, sub, k)
    decreases |s| - i
  {
    if OccursAt(s, sub, i) then Some(i)
    else if i == |s| then None
    else FindFrom(s, sub, i + 1)
  }

  function Find(s: string, sub: string): Option<nat> {
    FindFrom(s, sub, 0)
  }

  /** Python's `sub in s`. */
  predicate Contains(s: string, sub: string) {
    Find(s, sub).Some?
  }

  /** Python's `s.startswith(p)`. */
  predicate StartsWith(s: string, p: string) {
    OccursAt(s, p, 0)
  }

  /**
   * Python's `s.partition(sep)`: split around the first occurrence of `sep`;
   * when `sep` does not occur the result is `(s, "", "")`.  Python rejects an
   * empty separator.
   */
  function Partition(s: string, sep: string): (r: (string, string, string))
    requires |sep| > 0
    ensures r.0 + r.1 + r.2 == s
    ensures r.1 == sep || r.1 == ""
    ensures r.1 == sep ==> OccursAt(s, sep, |r.0|)
    ensures r.1 == sep ==> forall k :: 0 <= k < |r.0| ==> !OccursAt(s, sep, k)
    ensures r.1 == "" ==> r.0 == s && r.2 == "" && !Contains(s, sep)
  {
    match Find(s, sep)
    case Some(k) =>
      assert s[..k] + sep + s[k + |sep|..] == s by {
        assert s[k..k + |sep|] == sep;
        assert s == s[..k] + s[k..k + |sep|] + s[k + |sep|..];
      }
      (s[..k], sep, s[k + |sep|..])
    case None => (s, "", "")
  }

  const DataScheme: string := "data:"
  const Base64Marker: string := "base64,"

  /**
   * The archive text of a `data:` URL as both archive-accepting actions extract it:
   * `if s.startswith("data:"): _, _, z = s.partition("base64,")`.  When the
   * prefix is missing, `z` is never bound and the later use raises, so the
   * extraction fails (`None`).
   */
  function DataUrlPayload(s: string): (r: Option<string>)
    ensures r.Some? <==> StartsWith(s, DataScheme)
    ensures r.Some? && Contains(s, Base64Marker) ==>
      OccursAt(s, Base64Marker, Find(s, Base64Marker).value) &&
      r.value == s[Find(s, Base64Marker).value + |Base64Marker|..]
    ensures r.Some? && !Contains(s, Base64Marker) ==> r.value == ""
  {
    if StartsWith(s, DataScheme) then
      var (before, _, after) := Partition(s, Base64Marker);
      Some(after)
    else None
  }

  /**
   * Python's `s.replace(pat, rep)`: every non-overlapping occurrence of `pat`,
   * scanning left to right, is replaced by `rep`.
   */
  function ReplaceAll(s: string, pat: string, rep: string): string
    requires |pat| > 0
    decreases |s|
  {
    if |s| < |pat| then s
    else if s[..|pat|] == pat then rep + ReplaceAll(s[|pat|..], pat, rep)
    else [s[0]] + ReplaceAll(s[1..], pat, rep)
  }

  /** Text with no occurrence of `pat` comes back unchanged. */
  lemma {:induction false} ReplaceAbsent(s: string, pat: string, rep: string)
    requires |pat| > 0
    requires forall k :: 0 <= k <= |s| ==> !OccursAt(s, pat, k)
    ensures ReplaceAll(s, pat, rep) == s
    decreases |s|
  {
    if |s| < |pat| {
    } else {
      assert !OccursAt(s, pat, 0);
      assert s[..|pat|] != pat;
      forall k | 0 <= k <= |s[1..]|
        ensures !OccursAt(s[1..], pat, k)
      {
        assert !OccursAt(s, pat, k + 1);
        if k + |pat| <= |s[1..]| {
          assert s[1..][k..k + |pat|] == s[k + 1..k + 1 + |pat|];
        }
      }
      ReplaceAbsent(s[1..], pat, rep);
      assert [s[0]] + s[1..] == s;
    }
  }

  /** A leading occurrence is rewritten and the rest is processed independently. */
  lemma ReplaceLeading(t: string, pat: string, rep: string)
    requires |pat| > 0
    ensures ReplaceAll(pat + t, pat, rep) == rep + ReplaceAll(t, pat, rep)
  {
    assert (pat + t)[..|pat|] == pat;
    assert (pat + t)[|pat|..] == t;
  }

  /** Replacing by something no longer never makes the text longer. */
  lemma {:induction false} ReplaceShrinks(s: string, pat: string, rep: string)
    requires |pat| > 0 && |rep| <= |pat|
    ensures |ReplaceAll(s, pat, rep)| <= |s|
    decreases |s|
  {
    if |s| < |pat| {
    } else if s[..|pat|] == pat {
      ReplaceShrinks(s[|pat|..], pat, rep);
    } else {
      ReplaceShrinks(s[1..], pat, rep);
    }
  }

  const OldGuiImport: string := "from GUI import GUI"
  const NewGuiImport: string := "import GUI"
  const OldHalImport: string := "from HAL import HAL"
  const NewHalImport: string := "import HAL"

  /** The backward-compatibility rewrite applied to submitted code before linting. */
  function CompatImports(code: string): (r: string)
    ensures |r| <= |code|
  {
    ReplaceShrinks(code, OldGuiImport, NewGuiImport);
    var once := ReplaceAll(code, OldGuiImport, NewGuiImport);
    ReplaceShrinks(once, OldHalImport, NewHalImport);
    ReplaceAll(once, OldHalImport, NewHalImport)
  }

  /** Code that uses neither legacy import is passed on unchanged. */
  lemma CompatImportsKeepsModernCode(code: string)
    requires forall k :: 0 <= k <= |code| ==> !OccursAt(code, OldGuiImport, k)
    requires forall k :: 0 <= k <= |code| ==> !OccursAt(code, OldHalImport, k)
    ensures CompatImports(code) == code
  {
    ReplaceAbsent(code, OldGuiImport, NewGuiImport);
    ReplaceAbsent(code, OldHalImport, NewHalImport);
  }

  /** A file opening with the legacy GUI import gets the modern one, and the rest is rewritten on its own. */
  lemma CompatImportsLeadingGui(rest: string)
    requires forall k :: 0 <= k <= |ReplaceAll(rest, OldGuiImport, NewGuiImport)| ==>
      !OccursAt(ReplaceAll(rest, OldGuiImport, NewGuiImport), OldHalImport, k)
    ensures CompatImports(OldGuiImport + rest) == NewGuiImport + ReplaceAll(rest, OldGuiImport, NewGuiImport)
  {
    ReplaceLeading(rest, OldGuiImport, NewGuiImport);
    var once := NewGuiImport + ReplaceAll(rest, OldGuiImport, NewGuiImport);
    forall k | 0 <= k <= |once|
      ensures !OccursAt(once, OldHalImport, k)
    {
      var tail := ReplaceAll(rest, OldGuiImport, NewGuiImport);
      if k + |OldHalImport| <= |once| {
        if k >= |NewGuiImport| {
          assert once[k..k + |OldHalImport|] == tail[k - |NewGuiImport|..k - |NewGuiImport| + |OldHalImport|];
          assert !OccursAt(tail, OldHalImport, k - |NewGuiImport|);
        } else {
          // the match would have to cover a character of "import GUI", where HAL's import differs
          assert once[k] == NewGuiImport[k];
          assert once[k..k + |OldHalImport|][0] == once[k];
          if k == 0 {
            assert NewGuiImport[0] != OldHalImport[0];
          } else {
            assert once[k..k + |OldHalImport|][|NewGuiImport| - 1 - k] == once[|NewGuiImport| - 1];
            assert once[|NewGuiImport| - 1] == 'I';
          }
        }
      }
    }
    ReplaceAbsent(once, OldHalImport, NewHalImport);
  }
}
