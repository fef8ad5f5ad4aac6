/**
 * Recognising deep-link arguments: an argument is a link when it contains the
 * text "whatsapp" anywhere (`arg.includes("whatsapp")`).
 */
module Links {
  import opened Base

  /** The scheme token searched for in process arguments. */
  const Scheme: string := "whatsapp"

  /** `pat` occurs in `s` starting at position `i`. */
  predicate MatchAt(pat: string, s: string, i: nat)
    requires i + |pat| <= |s|
  {
    s[i..i + |pat|] == pat
  }

  /** `pat` occurs somewhere in `s` (JavaScript's `s.includes(pat)`). */
  predicate IsInfix(pat: string, s: string) {
    exists i: nat :: i + |pat| <= |s| && MatchAt(pat, s, i)
  }

  /** The argument mentions the link scheme. */
  predicate MentionsScheme(arg: string) {
    IsInfix(Scheme, arg)
  }

  /** Some argument of `argv` mentions the link scheme. */
  predicate HasLink(argv: seq<string>) {
    exists k :: 0 <= k < |argv| && MentionsScheme(argv[k])
  }

  /** `String.prototype.includes`: a left-to-right scan over the start positions. */
  method Includes(s: string, pat: string) returns (found: bool)
    ensures found <==> IsInfix(pat, s)
  {
    if |pat| > |s| {
      return false;
    }
    var i: nat := 0;
    while i + |pat| <= |s|
      invariant i <= |s| - |pat| + 1
      invariant forall j: nat :: j < i ==> !MatchAt(pat, s, j)
    {
      if s[i..i + |pat|] == pat {
        assert MatchAt(pat, s, i);
        return true;
      }
      i := i + 1;
    }
    return false;
  }

  /**
   * `argv.find(arg => arg.includes("whatsapp"))`: the position of the first
   * argument that mentions the scheme, if any.  The element `find` returns is
   * then non-empty, hence truthy, exactly when such an argument exists.
   */
  method FindLinkArg(argv: seq<string>) returns (r: Option<nat>)
    ensures r.Some? <==> HasLink(argv)
    ensures r.Some? ==> r.value < |argv| && MentionsScheme(argv[r.value]) && argv[r.value] != ""
    ensures r.Some? ==> forall j :: 0 <= j < r.value ==> !MentionsScheme(argv[j])
  {
    var k := 0;
    while k < |argv|
      invariant k <= |argv|
      invariant forall j :: 0 <= j < k ==> !MentionsScheme(argv[j])
    {
      var hit := Includes(argv[k], Scheme);
      if hit {
        MentionIsNonEmpty(argv[k]);
        return Some(k);
      }
      k := k + 1;
    }
    return None;
  }

  /** An argument that mentions the scheme is not the empty string. */
  lemma MentionIsNonEmpty(arg: string)
    requires MentionsScheme(arg)
    ensures |arg| >= |Scheme| && arg != ""
  {
  }
}
