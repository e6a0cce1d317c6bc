/** `pkg/version`: the version banner, with the link-time variables as parameters. */
module Version {
  import opened Wrappers
  import opened Strings

  const Banner := "Version: "

  /** `GetVersion()` for `Version == version` and `GitCommit == gitCommit`. */
  function GetVersion(version: string, gitCommit: string): (v: string)
    ensures HasPrefix(v, Banner + version)
    ensures |v| == |Banner| + |version| + (if |gitCommit| > 0 then 1 + |gitCommit| else 0)
    ensures |gitCommit| == 0 ==> v == Banner + version
    ensures |gitCommit| > 0 ==> v[|Banner| + |version|..] == "-" + gitCommit
  {
    var v := Banner + version;
    assert v[..|Banner + version|] == Banner + version;
    if |gitCommit| > 0 then v + "-" + gitCommit else v
  }

  /** Position of the first `c` in `s`, or `|s|` when there is none. */
  function IndexOf(s: string, c: char): (i: nat)
    ensures i <= |s|
    ensures i < |s| ==> s[i] == c
    ensures forall j :: 0 <= j < i ==> s[j] != c
  {
    if |s| == 0 then 0
    else if s[0] == c then 0
    else 1 + IndexOf(s[1..], c)
  }

  /** Reads a banner back into `(Version, GitCommit)`, splitting at the first `-`. */
  function SplitVersion(v: string): (r: Option<(string, string)>)
    ensures r.Some? <==> HasPrefix(v, Banner)
  {
    if !HasPrefix(v, Banner) then None
    else
      var rest := v[|Banner|..];
      var i := IndexOf(rest, '-');
      if i == |rest| then Some((rest, "")) else Some((rest[..i], rest[i + 1..]))
  }

  /** The banner loses nothing when the version string itself has no `-`. */
  lemma VersionRoundTrip(version: string, gitCommit: string)
    requires '-' !in version
    ensures SplitVersion(GetVersion(version, gitCommit)) == Some((version, gitCommit))
  {
    var v := GetVersion(version, gitCommit);
    var rest := v[|Banner|..];
    var i := IndexOf(rest, '-');
    if |gitCommit| > 0 {
      assert rest == version + "-" + gitCommit;
      assert rest[|version|] == '-';
      assert i == |version|;
      assert rest[..i] == version;
      assert rest[i + 1..] == gitCommit;
    } else {
      assert rest == version;
    }
  }
}
