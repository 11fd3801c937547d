/** `assetPath` (src/lib/utils.ts). The build's `import.meta.env.BASE_URL` is the parameter `base`. */
module Utils {
  import opened Text

  /** Joins a public asset path onto the base URL, dropping one leading '/' of the path. */
  function AssetPath(base: string, path: string): (r: string)
    ensures StartsWith(r, base)
    ensures |r| == |base| + |path| - (if StartsWith(path, "/") then 1 else 0)
    ensures !StartsWith(path, "/") ==> r[|base|..] == path
  {
    var clean := if StartsWith(path, "/") then path[1..] else path;
    base + clean
  }

  /** Only one slash is removed: "//a" keeps its second slash. */
  lemma AssetPathStripsAtMostOneSlash(base: string, p: string)
    ensures AssetPath(base, "/" + p) == base + p
    ensures AssetPath(base, "//" + p) == base + "/" + p
  {
    assert ("//" + p)[1..] == "/" + p;
  }

  /** A leading slash makes no difference to the result. */
  lemma AssetPathIgnoresLeadingSlash(base: string, p: string)
    requires !StartsWith(p, "/")
    ensures AssetPath(base, "/" + p) == AssetPath(base, p)
  {
    assert ("/" + p)[1..] == p;
  }

  /** What follows the base is the path with at most one leading slash removed. */
  lemma AssetPathSuffix(base: string, path: string)
    ensures var r := AssetPath(base, path);
      r[|base|..] == path || "/" + r[|base|..] == path
  {
  }
}
