/** The API base address and the URL join of `constants/api.ts`. */
module Api {

  const ApiBase: string := "https://api.greasemeter.live/v1"

  predicate StartsWithSlash(path: string)
  {
    |path| > 0 && path[0] == '/'
  }

  /** `apiUrl(path)`: joins the base and the path with exactly one `/` inserted
      when the path lacks a leading one. The URL starts with the base followed
      by `/`, ends with the path unchanged, and is one character longer than
      base and path together only when the slash was inserted. */
  function ApiUrl(path: string): (url: string)
    ensures |url| > |ApiBase|
    ensures url[..|ApiBase|] == ApiBase && url[|ApiBase|] == '/'
    ensures |url| == |ApiBase| + |path| + (if StartsWithSlash(path) then 0 else 1)
    ensures url[|url| - |path|..] == path
  {
    if !StartsWithSlash(path) then ApiBase + "/" + path else ApiBase + path
  }

  /** The two branches: a path with a leading slash is appended as is (so
      extra slashes are kept, `"//x"` gives base + `"//x"`), and any other
      path, the empty one included, gets a slash in front. */
  lemma ApiUrlCases(path: string)
    ensures StartsWithSlash(path) ==> ApiUrl(path) == ApiBase + path
    ensures !StartsWithSlash(path) ==> ApiUrl(path) == ApiBase + "/" + path
    ensures ApiUrl("") == ApiBase + "/"
  {
  }

  /** Leaving out the leading slash makes no difference. */
  lemma ApiUrlSlashOptional(path: string)
    requires !StartsWithSlash(path)
    ensures ApiUrl(path) == ApiUrl("/" + path)
  {
    assert StartsWithSlash("/" + path);
    assert ApiBase + "/" + path == ApiBase + ("/" + path);
  }

  /** The path as it appears after the base. */
  function Rooted(path: string): (r: string)
    ensures StartsWithSlash(r)
  {
    if StartsWithSlash(path) then path else "/" + path
  }

  lemma ApiUrlIsBasePlusRooted(path: string)
    ensures ApiUrl(path) == ApiBase + Rooted(path)
  {
    if !StartsWithSlash(path) {
      assert ApiBase + "/" + path == ApiBase + ("/" + path);
    }
  }

  /** Two paths give the same URL exactly when they are equal or one is the
      other with a single leading slash added. */
  lemma ApiUrlInjective(p: string, q: string)
    ensures ApiUrl(p) == ApiUrl(q) <==>
            (p == q || (!StartsWithSlash(p) && q == "/" + p) || (!StartsWithSlash(q) && p == "/" + q))
  {
    ApiUrlIsBasePlusRooted(p);
    ApiUrlIsBasePlusRooted(q);
    if ApiUrl(p) == ApiUrl(q) {
      assert Rooted(p) == ApiUrl(p)[|ApiBase|..];
      assert Rooted(q) == ApiUrl(q)[|ApiBase|..];
      if StartsWithSlash(p) && !StartsWithSlash(q) {
        assert p == "/" + q;
      } else if !StartsWithSlash(p) && StartsWithSlash(q) {
        assert q == "/" + p;
      } else if !StartsWithSlash(p) && !StartsWithSlash(q) {
        assert p == ("/" + p)[1..] == ("/" + q)[1..] == q;
      }
    } else if !StartsWithSlash(p) && q == "/" + p {
      ApiUrlSlashOptional(p);
    } else if !StartsWithSlash(q) && p == "/" + q {
      ApiUrlSlashOptional(q);
    }
  }
}
