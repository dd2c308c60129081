/**
 * The Artifact Registry address both pipeline triggers build:
 * `https://<location><host>/<project>/<repo>/<name>` as the pipeline root and
 * the root plus `/<tag>` as the template path, for a host suffix each trigger
 * fixes. Parsing reads the coordinates back, so the address determines them.
 */
module RegistryPath {
  import opened Wrappers
  import opened Text

  /** The registry coordinates a template path names. */
  datatype Coordinates = Coordinates(location: string, projectId: string, repo: string, name: string, tag: string)

  function Root(host: string, co: Coordinates): string
  {
    "https://" + co.location + host + "/" + co.projectId + "/" + co.repo + "/" + co.name
  }

  function Path(host: string, co: Coordinates): string
  {
    Root(host, co) + "/" + co.tag
  }

  /** No coordinate contains a slash. */
  predicate SlashFree(co: Coordinates)
  {
    '/' !in co.location && '/' !in co.projectId && '/' !in co.repo && '/' !in co.name && '/' !in co.tag
  }

  /** Reads the coordinates back out of a template path, the inverse of `Path`. */
  function Parse(host: string, path: string): Option<Coordinates>
  {
    if |path| < 8 || path[..8] != "https://" then None
    else
      var parts := Split(path[8..], "/");
      if |parts| != 5 then None
      else
        var first := parts[0];
        var n := |host|;
        if |first| < n || first[|first| - n..] != host then None
        else Some(Coordinates(first[..|first| - n], parts[1], parts[2], parts[3], parts[4]))
  }

  /** Five pieces joined with slashes are their `Join`. */
  lemma JoinFive(a: string, b: string, c: string, d: string, e: string)
    ensures Join([a, b, c, d, e], "/") == a + "/" + b + "/" + c + "/" + d + "/" + e
  {
    JoinCons(d, [e], "/");
    var de := d + "/" + e;
    assert Join([d, e], "/") == de;
    JoinCons(c, [d, e], "/");
    var cde := c + "/" + de;
    assert Join([c, d, e], "/") == cde;
    JoinCons(b, [c, d, e], "/");
    var bcde := b + "/" + cde;
    assert Join([b, c, d, e], "/") == bcde;
    JoinCons(a, [b, c, d, e], "/");
    assert Join([a, b, c, d, e], "/") == a + "/" + bcde;
    assert cde == c + "/" + d + "/" + e;
    assert bcde == b + "/" + c + "/" + d + "/" + e;
  }

  /** Five slash-free pieces joined with slashes split back into themselves. */
  lemma SplitFiveSegments(a: string, b: string, c: string, d: string, e: string)
    requires '/' !in a && '/' !in b && '/' !in c && '/' !in d && '/' !in e
    ensures Split(a + "/" + b + "/" + c + "/" + d + "/" + e, "/") == [a, b, c, d, e]
  {
    JoinFive(a, b, c, d, e);
    assert "/" == ['/'];
    SplitJoinWithoutChar([a, b, c, d, e], '/');
  }

  /** For a slash-free host and coordinates, parsing the template path gives the coordinates back. */
  lemma RoundTrip(host: string, co: Coordinates)
    requires '/' !in host && SlashFree(co)
    ensures Parse(host, Path(host, co)) == Some(co)
  {
    var first := co.location + host;
    assert '/' !in first;
    var path := Path(host, co);
    var tail := first + "/" + co.projectId + "/" + co.repo + "/" + co.name + "/" + co.tag;
    assert path == "https://" + tail;
    assert path[..8] == "https://";
    assert path[8..] == tail;
    SplitFiveSegments(first, co.projectId, co.repo, co.name, co.tag);
    assert first[|first| - |host|..] == host;
    assert first[..|first| - |host|] == co.location;
  }

  /** Distinct slash-free coordinates give distinct template paths. */
  lemma Injective(host: string, co: Coordinates, other: Coordinates)
    requires '/' !in host && SlashFree(co) && SlashFree(other)
    requires Path(host, co) == Path(host, other)
    ensures co == other
  {
    RoundTrip(host, co);
    RoundTrip(host, other);
  }
}
