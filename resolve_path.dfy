/** `resolvePath` of clientserver/resolve_ts_path.ts: a module path whose
    first segment names a TypeScript path alias is rewritten to the alias's
    target directory.

    The alias table (`compilerOptions.paths` of the server tsconfig) is an
    input, its entries in object-key order. The final `path.resolve` is not
    computed: the model returns its three arguments, the base directory
    chosen by the environment, the alias target and the rest of the path. */
module ResolvePath {
  import opened Common

  /** One `paths` entry: an alias key and its list of target patterns. */
  type Alias = (string, seq<string>)

  /** The wildcard suffix of a target pattern: a slash and a star. */
  const Wildcard: string := ['/', '*']

  datatype Resolution =
    | Unchanged(path: string)                                // no alias applies
    | Resolved(baseDir: string, target: string, rest: string) // path.resolve(baseDir, target, rest)
    | TypeError                                              // the alias has no target: `paths[alias][0]` is undefined

  /** The base directory, relative to the module's own directory. */
  function BaseDir(development: bool): (dir: string)
    ensures dir == "../clientserver" || dir == "../dist"
    ensures development <==> dir == "../clientserver"
  {
    if development then "../clientserver" else "../dist"
  }

  /** `inputPath.split("/")[0]`. */
  function FirstSegment(input: string): string {
    Split(input, "/")[0]
  }

  /** `inputPath.split("/").slice(1).join("/")`. */
  function RestOfPath(input: string): string {
    Join(Split(input, "/")[1..], "/")
  }

  /** Whether the anchored pattern `^first` matches `key`; the segment is
      read as literal text. */
  predicate AliasMatches(key: string, first: string) {
    StartsWith(key, first)
  }

  /** `Object.keys(paths).find(key => aliasPattern.test(key))`: the index
      of the first matching key. */
  function FirstAlias(paths: seq<Alias>, first: string): (r: Option<nat>)
    ensures r.Some? ==> r.value < |paths| && AliasMatches(paths[r.value].0, first)
    ensures r.Some? ==> forall j :: 0 <= j < r.value ==> !AliasMatches(paths[j].0, first)
    ensures r.None? <==> forall j :: 0 <= j < |paths| ==> !AliasMatches(paths[j].0, first)
  {
    if paths == [] then None
    else if AliasMatches(paths[0].0, first) then Some(0)
    else match FirstAlias(paths[1..], first)
      case None => None
      case Some(i) => Some(i + 1)
  }

  /** `s.replace(Wildcard, "")`: a string pattern replaces only its first
      occurrence. */
  function ReplaceFirstWildcard(s: string): (r: string)
    ensures !Contains(s, Wildcard) ==> r == s
    ensures Contains(s, Wildcard) ==> |r| == |s| - 2
  {
    match Find(s, Wildcard)
    case None => s
    case Some(i) => s[..i] + s[i + 2..]
  }

  /** `resolvePath(inputPath)`. The alias found must be truthy: a matching
      key that is the empty string is treated as no match. */
  function Resolve(input: string, paths: seq<Alias>, development: bool): (r: Resolution)
    ensures r.Unchanged? <==>
              (match FirstAlias(paths, FirstSegment(input))
               case None => true
               case Some(i) => paths[i].0 == "")
    ensures r.Unchanged? ==> r.path == input
    ensures r.TypeError? <==>
              (match FirstAlias(paths, FirstSegment(input))
               case None => false
               case Some(i) => paths[i].0 != "" && paths[i].1 == [])
    ensures r.Resolved? ==> r.baseDir == BaseDir(development) && r.rest == RestOfPath(input)
  {
    match FirstAlias(paths, FirstSegment(input))
    case None => Unchanged(input)
    case Some(i) =>
      if paths[i].0 == "" then Unchanged(input)
      else if paths[i].1 == [] then TypeError
      else Resolved(BaseDir(development), ReplaceFirstWildcard(paths[i].1[0]), RestOfPath(input))
  }

  // ---------------------------------------------------------------------
  // Properties
  // ---------------------------------------------------------------------

  /** A path is rewritten with the FIRST alias in key order that it
      matches, and its first target pattern, even when a later alias also
      matches. */
  lemma ResolvedUsesFirstAlias(input: string, paths: seq<Alias>, development: bool, i: nat)
    requires i < |paths| && AliasMatches(paths[i].0, FirstSegment(input))
    requires forall j :: 0 <= j < i ==> !AliasMatches(paths[j].0, FirstSegment(input))
    requires paths[i].0 != "" && paths[i].1 != []
    ensures Resolve(input, paths, development) ==
              Resolved(BaseDir(development), ReplaceFirstWildcard(paths[i].1[0]), RestOfPath(input))
  {
  }

  /** A path with a slash is its first segment, a slash and the rest: the
      rewrite drops exactly the alias segment. A path without one has an
      empty rest. */
  lemma {:induction false} SegmentAndRestRebuildPath(input: string)
    ensures '/' in input ==> FirstSegment(input) + "/" + RestOfPath(input) == input
    ensures '/' !in input ==> FirstSegment(input) == input && RestOfPath(input) == ""
  {
    var pieces := Split(input, "/");
    if '/' in input {
      AbsentSeparatorChar(input, '/');
      var i := Find(input, "/").value;
      assert pieces == [input[..i]] + Split(input[i + 1..], "/");
      assert pieces[1..] == Split(input[i + 1..], "/");
      JoinCons(pieces[0], pieces[1..], "/");
      assert [pieces[0]] + pieces[1..] == pieces;
      JoinSplit(input, "/");
    } else {
      SplitWithoutSeparatorChar(input, '/');
      assert pieces[1..] == [];
    }
  }

  /** Removing the first wildcard can be undone: putting it back where
      the first one was gives the pattern again, and nothing before that
      point held a wildcard. */
  lemma ReplaceFirstWildcardUndone(s: string)
    requires Contains(s, Wildcard)
    ensures var i := Find(s, Wildcard).value;
            i <= |ReplaceFirstWildcard(s)|
            && ReplaceFirstWildcard(s)[..i] + Wildcard + ReplaceFirstWildcard(s)[i..] == s
            && forall j: nat :: j < i ==> !OccursAt(s, Wildcard, j)
  {
    var i := Find(s, Wildcard).value;
    var r := ReplaceFirstWildcard(s);
    assert r == s[..i] + s[i + 2..];
    assert r[..i] == s[..i];
    assert r[i..] == s[i + 2..];
    assert s[i..i + 2] == Wildcard;
    assert s == s[..i] + s[i..i + 2] + s[i + 2..];
  }

  /** A path whose first segment is empty (one starting with "/", or the
      empty path) matches every key, so it is rewritten by the first alias
      whatever that alias is. */
  lemma EmptySegmentMatchesFirstAlias(input: string, paths: seq<Alias>)
    requires FirstSegment(input) == "" && |paths| > 0
    ensures FirstAlias(paths, FirstSegment(input)) == Some(0)
  {
  }
}
