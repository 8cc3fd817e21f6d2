/** `String.prototype.replace` with a string pattern and an empty
    replacement: the first occurrence of the pattern is removed, and the
    string is returned unchanged when the pattern does not occur. */
module JsStrings {
  import opened JsValues

  /** The prefix both the API's error messages and the pages use. */
  const GraphQLErrorPrefix: string := "GraphQL error: "

  /** `pat` occurs in `s` starting at index `i`. */
  predicate OccursAt(s: string, pat: string, i: int)
  {
    0 <= i && i + |pat| <= |s| && s[i..i + |pat|] == pat
  }

  /** The index of the first occurrence of `pat` in `s` (`indexOf`). */
  function IndexOf(s: string, pat: string): (r: Option<nat>)
    ensures r.Some? ==> OccursAt(s, pat, r.value)
    ensures r.Some? ==> forall j :: 0 <= j < r.value ==> !OccursAt(s, pat, j)
    ensures r.None? ==> forall j :: !OccursAt(s, pat, j)
    decreases |s|
  {
    if |pat| > |s| then
      None
    else if s[..|pat|] == pat then
      Some(0)
    else
      match IndexOf(s[1..], pat)
      case None =>
        assert forall j :: 1 <= j ==> OccursAt(s, pat, j) == OccursAt(s[1..], pat, j - 1);
        None
      case Some(k) =>
        assert forall j :: 1 <= j ==> OccursAt(s, pat, j) == OccursAt(s[1..], pat, j - 1);
        Some(k + 1)
  }

  /** `s.replace(pat, "")`. The result is the original with the first
      occurrence cut out: splicing the pattern back in there rebuilds `s`. */
  function RemoveFirst(s: string, pat: string): (r: string)
    ensures IndexOf(s, pat).None? ==> r == s
    ensures IndexOf(s, pat).Some? ==>
              var i := IndexOf(s, pat).value;
              |r| == |s| - |pat| && r[..i] + pat + r[i..] == s
  {
    match IndexOf(s, pat)
    case None => s
    case Some(i) =>
      SpliceBack(s, i, pat);
      s[..i] + s[i + |pat|..]
  }

  /** Cutting `pat` out at an occurrence and splicing it back is the identity. */
  lemma SpliceBack(s: string, i: nat, pat: string)
    requires OccursAt(s, pat, i)
    ensures var r := s[..i] + s[i + |pat|..];
            r[..i] + pat + r[i..] == s
  {
  }

  /** A message that starts with the pattern loses exactly that prefix. */
  lemma RemoveFirstOfPrefixed(pat: string, t: string)
    ensures RemoveFirst(pat + t, pat) == t
  {
  }

  /** A text that starts with the pattern loses exactly its leading copy. */
  lemma RemoveLeadingPattern(s: string, pat: string)
    ensures |pat| <= |s| && s[..|pat|] == pat ==> RemoveFirst(s, pat) == s[|pat|..]
  {
    if |pat| <= |s| && s[..|pat|] == pat {
      assert s == pat + s[|pat|..];
      RemoveFirstOfPrefixed(pat, s[|pat|..]);
    }
  }

  /** A pattern holding a character the string lacks does not occur, so
      the string is left unchanged. */
  lemma AbsentCharNoOccurrence(s: string, pat: string, c: char)
    requires c in pat && c !in s
    ensures IndexOf(s, pat).None?
    ensures RemoveFirst(s, pat) == s
  {
  }

  /** Only the first occurrence goes: a later copy survives. */
  lemma RemoveFirstKeepsLaterCopies(pat: string, t: string)
    ensures RemoveFirst(pat + pat + t, pat) == pat + t
  {
    assert pat + pat + t == pat + (pat + t);
    RemoveFirstOfPrefixed(pat, pat + t);
  }
}
