/**
 * The trailer token the hook appends to a commit message:
 * `[#<story>]`, or `[<Keyword> #<story>]` when the message carries a keyword.
 * `ParseToken` reads a token back; the two are inverse to each other.
 */
module Trailer {
  import opened Wrappers

  /** A story number as the branch yields it: a non-empty run of decimal digits. */
  predicate IsStoryNumber(s: string) {
    |s| > 0 && forall i :: 0 <= i < |s| ==> '0' <= s[i] <= '9'
  }

  lemma StoryNumberHasNoHash(s: string)
    requires IsStoryNumber(s)
    ensures '#' !in s
  {
  }

  /** The token appended to the message for `story`, with the optional keyword. */
  function BuildToken(story: string, keyword: Option<string>): (t: string)
    ensures |t| >= |story| + 3
    ensures t[0] == '[' && t[|t| - 1] == ']'
    ensures t[|t| - |story| - 2..] == "#" + story + "]"
    ensures keyword.None? ==> |t| == |story| + 3
    ensures keyword.Some? ==> |t| == |keyword.value| + |story| + 4
    ensures keyword.Some? ==> t[..|keyword.value| + 2] == "[" + keyword.value + " "
  {
    match keyword
    case None => "[#" + story + "]"
    case Some(k) => "[" + k + " #" + story + "]"
  }

  /** The position of the last `#` in `s`, if there is one. */
  function LastHash(s: string): (r: Option<nat>)
    ensures r.Some? ==> r.value < |s| && s[r.value] == '#' && '#' !in s[r.value + 1..]
    ensures r.None? ==> '#' !in s
  {
    if s == [] then None
    else if s[|s| - 1] == '#' then Some(|s| - 1)
    else
      var r := LastHash(s[..|s| - 1]);
      assert s == s[..|s| - 1] + [s[|s| - 1]];
      if r.Some? then
        assert s[r.value + 1..] == s[..|s| - 1][r.value + 1..] + [s[|s| - 1]];
        r
      else r
  }

  /**
   * Reads a trailer token back into its story number and keyword. The story
   * is what follows the last `#`; what precedes it is either nothing or a
   * keyword followed by one space.
   */
  function ParseToken(t: string): (r: Option<(string, Option<string>)>)
    ensures r.Some? ==> '#' !in r.value.0 && BuildToken(r.value.0, r.value.1) == t
  {
    if |t| < 3 || t[0] != '[' || t[|t| - 1] != ']' then None
    else
      var inner := t[1..|t| - 1];
      match LastHash(inner)
      case None => None
      case Some(i) =>
        var story, head := inner[i + 1..], inner[..i];
        if head == [] then
          SplitToken(t, i);
          Some((story, None))
        else if head[|head| - 1] == ' ' then
          SplitToken(t, i);
          Some((story, Some(head[..|head| - 1])))
        else None
  }

  /** How a token splits around the `#` at position `i` of its bracketed part. */
  lemma SplitToken(t: string, i: nat)
    requires |t| >= 2 && t[0] == '[' && t[|t| - 1] == ']' && i < |t| - 2 && t[i + 1] == '#'
    ensures i == 0 ==> t == BuildToken(t[2..|t| - 1], None)
    ensures i > 0 && t[i] == ' ' ==> t == BuildToken(t[i + 2..|t| - 1], Some(t[1..i]))
  {
    if i == 0 {
      assert t == "[#" + t[2..|t| - 1] + "]";
    } else if t[i] == ' ' {
      assert t == "[" + t[1..i] + " #" + t[i + 2..|t| - 1] + "]";
    }
  }

  /** Every token built from a `#`-free story reads back as that story and keyword. */
  lemma ParseBuild(story: string, keyword: Option<string>)
    requires '#' !in story
    ensures ParseToken(BuildToken(story, keyword)) == Some((story, keyword))
  {
    var t := BuildToken(story, keyword);
    var inner := t[1..|t| - 1];
    var head := match keyword case None => "" case Some(k) => k + " ";
    assert inner == head + "#" + story;
    assert inner[|head|] == '#';
    assert LastHash(inner) == Some(|head|);
    assert inner[|head| + 1..] == story;
    assert inner[..|head|] == head;
  }

  /** Different stories or keywords never produce the same token. */
  lemma BuildTokenInjective(s1: string, k1: Option<string>, s2: string, k2: Option<string>)
    requires '#' !in s1 && '#' !in s2
    requires BuildToken(s1, k1) == BuildToken(s2, k2)
    ensures s1 == s2 && k1 == k2
  {
    ParseBuild(s1, k1);
    ParseBuild(s2, k2);
  }
}
