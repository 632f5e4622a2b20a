/**
 * Source resolution (`getFileContent` and `fetchFile`): a specifier is a
 * shorthand repository reference when it starts with `@`, a remote URL when
 * it starts with `http://` or `https://`, and a local path otherwise; the
 * tests run in that order. Shorthand references are rewritten to a fixed
 * raw-content URL and fetched like any other URL.
 *
 * The network and the file system are parameters: `fetch` answers a URL
 * with a response (or rejects, e.g. on a DNS failure) and `read` answers a
 * path with the file's text (or an error).
 */
module Sources {
  import opened Results
  import opened JsStrings

  /** Where the text of a specifier comes from. */
  datatype Source = Remote(url: string) | Local(path: string)

  /** An HTTP response: status code, reason phrase and body text. */
  datatype Response = Response(status: nat, statusText: string, body: string)

  const RawHost := "https://raw.githubusercontent.com/"
  const Organization := "n-p-x"
  const Branch := "main"
  /** Every shorthand URL starts with this. */
  const ShorthandBase := RawHost + Organization + "/"
  /** What a missing array element reads as inside a JavaScript template literal. */
  const Undefined := "undefined"

  /** The `http://` or `https://` test; such a specifier starts with `h`, so it is never an `@` reference. */
  predicate IsHttpUrl(s: string): (b: bool)
    ensures b ==> StartsWith(s, "http") && !StartsWith(s, "@")
  {
    var http := StartsWith(s, "http://") || StartsWith(s, "https://");
    if http then
      assert s[0] == 'h';
      StartsWithTrans(s, if StartsWith(s, "http://") then "http://" else "https://", "http");
      http
    else http
  }

  /**
   * The URL of a shorthand reference: the specifier is split on `/`, its first
   * segment (the one holding the `@`) is dropped, and the URL is built from
   * the segments after it.
   */
  function ShorthandUrl(spec: string): (url: string)
    ensures StartsWith(url, ShorthandBase)
  {
    UrlOfSegments(Split(spec, '/')[1..])
  }

  /**
   * The URL built from the segments after the first: the first of them
   * names the repository (`undefined` when there is none) and the rest,
   * joined again by `/`, is the path inside it.
   */
  function UrlOfSegments(segments: seq<string>): (url: string)
    ensures StartsWith(url, ShorthandBase)
  {
    var repo := if |segments| >= 1 then segments[0] else Undefined;
    var pathParts := if |segments| >= 1 then segments[1..] else [];
    var url := ShorthandBase + repo + "/" + Branch + "/" + Join(pathParts, '/');
    assert url == ShorthandBase + (repo + "/" + Branch + "/" + Join(pathParts, '/'));
    url
  }

  /** The classification `getFileContent` makes before it fetches or reads. */
  function Classify(spec: string): (src: Source)
    ensures StartsWith(spec, "@") ==> src == Remote(ShorthandUrl(spec))
    ensures !StartsWith(spec, "@") && IsHttpUrl(spec) ==> src == Remote(spec)
    ensures src.Local? <==> !StartsWith(spec, "@") && !IsHttpUrl(spec)
    ensures src.Local? ==> src.path == spec
    ensures src.Remote? ==> IsHttpUrl(src.url)
  {
    if StartsWith(spec, "@") then
      var url := ShorthandUrl(spec);
      StartsWithTrans(url, ShorthandBase, "https://");
      Remote(url)
    else if IsHttpUrl(spec) then Remote(spec)
    else Local(spec)
  }

  /** A specifier starting with `http` never starts with `@`, so the order of the tests matters only for `@`. */
  lemma HttpUrlIsNotShorthand(spec: string)
    requires IsHttpUrl(spec)
    ensures Classify(spec) == Remote(spec)
  {
    assert spec[0] == 'h';
  }

  const FetchFailurePrefix := "Failed to fetch "

  /**
   * The error `fetchFile` throws for a response whose status is not ok: the
   * URL behind a fixed prefix, then the status and its reason phrase.
   */
  function FetchFailure(url: string, status: nat, statusText: string): (m: string)
    ensures StartsWith(m, FetchFailurePrefix + url + ": ")
    ensures |m| == |FetchFailurePrefix + url + ": "| + |Decimal(status)| + 1 + |statusText|
    ensures m[|m| - |statusText|..] == statusText && m[|m| - |statusText| - 1] == ' '
  {
    var prefix := FetchFailurePrefix + url + ": ";
    var m := prefix + Decimal(status) + " " + statusText;
    assert m == prefix + (Decimal(status) + " " + statusText);
    assert m == (prefix + Decimal(status) + " ") + statusText;
    m
  }

  /** `response.ok`: the status is in the 2xx class. */
  predicate IsOkStatus(status: nat): (ok: bool)
    ensures ok <==> status / 100 == 2
  {
    200 <= status <= 299
  }

  /**
   * `fetchFile(url)` given the network's answer: a rejected request
   * propagates unchanged, a response that is not ok becomes the fixed
   * failure message, and an ok response yields its body.
   */
  function FetchFile(url: string, reply: Result<Response>): (r: Result<string>)
    ensures reply.Err? ==> r == Err(reply.message)
    ensures reply.Ok? && IsOkStatus(reply.value.status) ==> r == Ok(reply.value.body)
    ensures reply.Ok? && !IsOkStatus(reply.value.status) ==>
      r == Err(FetchFailure(url, reply.value.status, reply.value.statusText))
    ensures r.Ok? <==> reply.Ok? && IsOkStatus(reply.value.status)
  {
    match reply
    case Err(m) => Err(m)
    case Ok(response) =>
      if IsOkStatus(response.status) then Ok(response.body)
      else Err(FetchFailure(url, response.status, response.statusText))
  }

  /** The failure message can be read apart again: the status code behind the URL, then a space and the reason phrase. */
  lemma FetchFailureCarriesStatus(url: string, status: nat, statusText: string)
    ensures var m := FetchFailure(url, status, statusText);
      var start := |FetchFailurePrefix + url + ": "|;
      var digits := Decimal(status);
      start + |digits| < |m| && m[start..start + |digits|] == digits && m[start + |digits|] == ' '
      && DecimalValue(m[start..start + |digits|]) == status
      && m[start + |digits| + 1..] == statusText
  {
    var prefix := FetchFailurePrefix + url + ": ";
    var digits := Decimal(status);
    var m := FetchFailure(url, status, statusText);
    assert m == prefix + digits + (" " + statusText);
    assert m[|prefix|..|prefix| + |digits|] == digits;
    DecimalRoundTrip(status);
  }

  /**
   * `getFileContent(spec)`: fetch the URL the specifier classifies to, or
   * read the local path.
   */
  function GetFileContent(spec: string, fetch: string -> Result<Response>, read: string -> Result<string>): (r: Result<string>)
    ensures StartsWith(spec, "@") ==> r == FetchFile(ShorthandUrl(spec), fetch(ShorthandUrl(spec)))
    ensures !StartsWith(spec, "@") && IsHttpUrl(spec) ==> r == FetchFile(spec, fetch(spec))
    ensures !StartsWith(spec, "@") && !IsHttpUrl(spec) ==> r == read(spec)
  {
    match Classify(spec)
    case Remote(url) => FetchFile(url, fetch(url))
    case Local(path) => read(path)
  }

  /** A shorthand reference is never read from the file system, whatever files exist. */
  lemma ShorthandNeverReadsLocally(spec: string, fetch: string -> Result<Response>, read1: string -> Result<string>, read2: string -> Result<string>)
    requires StartsWith(spec, "@")
    ensures GetFileContent(spec, fetch, read1) == GetFileContent(spec, fetch, read2)
  {
  }

  /** `@first/repo/path` resolves to `<base>repo/main/path`: the first segment never reaches the URL. */
  lemma {:induction false} ShorthandUrlWithPath(first: string, repo: string, path: string)
    requires '/' !in first && '/' !in repo
    ensures ShorthandUrl(first + "/" + repo + "/" + path) == ShorthandBase + repo + "/" + Branch + "/" + path
  {
    var rest := repo + "/" + path;
    assert first + "/" + repo + "/" + path == first + "/" + rest;
    SplitAfterHead(first, '/', rest);
    SplitAfterHead(repo, '/', path);
    var segments := Split(first + "/" + rest, '/')[1..];
    assert segments == [repo] + Split(path, '/');
    assert segments[1..] == Split(path, '/');
    SplitThenJoin(path, '/');
  }

  /** `@first/repo` resolves to `<base>repo/main/`, with an empty path. */
  lemma {:induction false} ShorthandUrlWithoutPath(first: string, repo: string)
    requires '/' !in first && '/' !in repo
    ensures ShorthandUrl(first + "/" + repo) == ShorthandBase + repo + "/" + Branch + "/"
  {
    SplitAfterHead(first, '/', repo);
    assert Split(first + "/" + repo, '/')[1..] == [repo];
  }

  /** `@name` without any `/` has no second segment: the URL names the repository `undefined`. */
  lemma ShorthandUrlWithoutSlash(spec: string)
    requires '/' !in spec
    ensures ShorthandUrl(spec) == ShorthandBase + Undefined + "/" + Branch + "/"
  {
  }

  /** Two shorthand references that differ only in their first segment resolve to the same URL. */
  lemma {:induction false} ShorthandIgnoresFirstSegment(first1: string, first2: string, rest: string)
    requires '/' !in first1 && '/' !in first2
    ensures ShorthandUrl(first1 + "/" + rest) == ShorthandUrl(first2 + "/" + rest)
  {
    SplitAfterHead(first1, '/', rest);
    SplitAfterHead(first2, '/', rest);
    assert Split(first1 + "/" + rest, '/')[1..] == Split(rest, '/') == Split(first2 + "/" + rest, '/')[1..];
  }

  /** End to end: a specifier `@first/repo/path` is fetched from the fixed organization's `main` branch. */
  lemma ShorthandSpecifierResolves(first: string, repo: string, path: string)
    requires StartsWith(first, "@") && '/' !in first && '/' !in repo
    ensures Classify(first + "/" + repo + "/" + path) == Remote(ShorthandBase + repo + "/" + Branch + "/" + path)
  {
    var spec := first + "/" + repo + "/" + path;
    assert spec[..1] == first[..1];
    ShorthandUrlWithPath(first, repo, path);
  }
}
