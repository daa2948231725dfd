/** `support/helpers.ts`: the application URL and the links to static assets. The
    environment variable `APP_URL` is a parameter. */
module Helpers {
  import opened Wrappers
  import opened Text

  const DefaultUrl := "http://localhost:8000"

  /** `Bun.env.APP_URL || "http://localhost:8000"`: an unset or empty variable falls back. */
  function BaseUrl(appUrl: Option<string>): (r: string)
    ensures r != ""
    ensures appUrl.Some? && appUrl.value != "" ==> r == appUrl.value
    ensures appUrl.None? || appUrl.value == "" ==> r == DefaultUrl
  {
    if appUrl.Some? && appUrl.value != "" then appUrl.value else DefaultUrl
  }

  /** `replace(/\/+$/, "")`. */
  function StripTrailingSlashes(s: string): (r: string)
    ensures r == [] || r[|r| - 1] != '/'
    ensures exists k: nat :: s == r + Repeat("/", k)
  {
    if s != [] && s[|s| - 1] == '/' then
      var r := StripTrailingSlashes(s[..|s| - 1]);
      var k: nat :| s[..|s| - 1] == r + Repeat("/", k);
      assert s == r + Repeat("/", k) + "/";
      RepeatSnoc(k);
      r
    else
      assert s == s + Repeat("/", 0);
      s
  }

  /** `replace(/^\/+/, "")`. */
  function StripLeadingSlashes(s: string): (r: string)
    ensures r == [] || r[0] != '/'
    ensures exists k: nat :: s == Repeat("/", k) + r
  {
    if s != [] && s[0] == '/' then
      var r := StripLeadingSlashes(s[1..]);
      var k: nat :| s[1..] == Repeat("/", k) + r;
      assert s == Repeat("/", k + 1) + r;
      r
    else
      assert s == Repeat("/", 0) + s;
      s
  }

  lemma RepeatSnoc(k: nat)
    ensures Repeat("/", k) + "/" == Repeat("/", k + 1)
  {
    if k > 0 {
      RepeatSnoc(k - 1);
    }
  }

  /** `asset(path)`: the base without its trailing slashes, one slash, the path without its
      leading slashes. */
  function Asset(appUrl: Option<string>, path: string): (r: string)
    ensures exists base, clean, j: nat, k: nat ::
      BaseUrl(appUrl) == base + Repeat("/", j) && (base == [] || base[|base| - 1] != '/') &&
      path == Repeat("/", k) + clean && (clean == [] || clean[0] != '/') &&
      r == base + "/" + clean
  {
    StripTrailingSlashes(BaseUrl(appUrl)) + "/" + StripLeadingSlashes(path)
  }

  /** Leading slashes on the path make no difference. */
  lemma AssetIgnoresLeadingSlash(appUrl: Option<string>, path: string)
    ensures Asset(appUrl, "/" + path) == Asset(appUrl, path)
  {
    assert ("/" + path)[1..] == path;
  }

  /** An absolute path with one slash too many on either side gives the same link. */
  lemma AssetIgnoresTrailingSlash(url: string, path: string)
    requires url != ""
    ensures Asset(Some(url + "/"), path) == Asset(Some(url), path)
  {
    assert (url + "/")[..|url|] == url;
  }
}
