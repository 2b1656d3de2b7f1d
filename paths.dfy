/** The resource paths the client addresses, and the project scoping `createRequest` applies to them. */
module Paths {
  import opened Common
  import opened Decimal

  const ProjectsPrefix: string := "/projects/"
  const StoriesPrefix: string := "/stories/"

  /** True of the relative paths the operations pass: empty or starting with a slash. */
  predicate StartsAtSlash(path: string) {
    path == [] || path[0] == '/'
  }

  /** `fmt.Sprintf("/projects/%d%s", id, path)`: the path scoped to project `id`. */
  function ProjectPath(id: int, path: string): (full: string)
    ensures |full| > |ProjectsPrefix| + |path| && full[..|ProjectsPrefix|] == ProjectsPrefix
    ensures full[|full| - |path|..] == path
  {
    ProjectsPrefix + Format(id) + path
  }

  /** `fmt.Sprintf("/stories/%d", storyId)` followed by `suffix` ("/activity", "/tasks", ...). */
  function StoryPath(storyId: int, suffix: string): (full: string)
    ensures |full| > |StoriesPrefix| + |suffix| && full[..|StoriesPrefix|] == StoriesPrefix
    ensures full[|full| - |suffix|..] == suffix
  {
    StoriesPrefix + Format(storyId) + suffix
  }

  /** The index of the first slash in s, or |s| when there is none. */
  function SlashIndex(s: string): (k: nat)
    ensures k <= |s|
    ensures forall i :: 0 <= i < k ==> s[i] != '/'
    ensures k < |s| ==> s[k] == '/'
  {
    if s == [] || s[0] == '/' then 0 else 1 + SlashIndex(s[1..])
  }

  /**
   * Reads a path of the form prefix + decimal number + rest back into the number and the rest,
   * the rest starting at the first slash after the prefix.
   */
  function SplitPath(prefix: string, full: string): Option<(int, string)> {
    if |full| < |prefix| || full[..|prefix|] != prefix then None
    else
      var rest := full[|prefix|..];
      var k := SlashIndex(rest);
      match Parse(rest[..k])
      case None => None
      case Some(n) => Some((n, rest[k..]))
  }

  lemma SlashIndexOfConcat(a: string, b: string)
    requires forall i :: 0 <= i < |a| ==> a[i] != '/'
    requires StartsAtSlash(b)
    ensures SlashIndex(a + b) == |a|
  {
    var s := a + b;
    assert forall i :: 0 <= i < |a| ==> s[i] == a[i];
    assert |a| < |s| ==> s[|a|] == '/';
  }

  /** A number rendered between a prefix and a slash-led rest can be read back, with the rest. */
  lemma PrefixedPathSplits(prefix: string, n: int, rest: string)
    ensures StartsAtSlash(rest) ==> SplitPath(prefix, prefix + Format(n) + rest) == Some((n, rest))
  {
    if StartsAtSlash(rest) {
      var digits := Format(n);
      var full := prefix + digits + rest;
      assert full[..|prefix|] == prefix;
      var tail := full[|prefix|..];
      assert tail == digits + rest;
      forall i | 0 <= i < |digits| ensures digits[i] != '/' {
        assert IsDigit(digits[i]) || digits[i] == '-';
      }
      SlashIndexOfConcat(digits, rest);
      assert tail[..|digits|] == digits;
      assert tail[|digits|..] == rest;
      FormatRoundTrip(n);
    }
  }

  /** The scoped path determines the project and the relative path it was built from. */
  lemma ProjectPathSplits(id: int, path: string)
    requires StartsAtSlash(path)
    ensures SplitPath(ProjectsPrefix, ProjectPath(id, path)) == Some((id, path))
  {
    PrefixedPathSplits(ProjectsPrefix, id, path);
  }

  /** A story path determines the story and the suffix it was built from. */
  lemma StoryPathSplits(storyId: int, suffix: string)
    requires StartsAtSlash(suffix)
    ensures SplitPath(StoriesPrefix, StoryPath(storyId, suffix)) == Some((storyId, suffix))
  {
    PrefixedPathSplits(StoriesPrefix, storyId, suffix);
  }

  /** Two scoped paths are equal only for the same project and the same relative path. */
  lemma ProjectPathInjective(a: int, p: string, b: int, q: string)
    requires StartsAtSlash(p) && StartsAtSlash(q)
    ensures ProjectPath(a, p) == ProjectPath(b, q) ==> a == b && p == q
  {
    ProjectPathSplits(a, p);
    ProjectPathSplits(b, q);
  }

  /** Two story paths are equal only for the same story and the same suffix. */
  lemma StoryPathInjective(a: int, p: string, b: int, q: string)
    requires StartsAtSlash(p) && StartsAtSlash(q)
    ensures StoryPath(a, p) == StoryPath(b, q) ==> a == b && p == q
  {
    StoryPathSplits(a, p);
    StoryPathSplits(b, q);
  }
}
