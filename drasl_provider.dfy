/**
 * The provider descriptor of a self-hosted Yggdrasil-protocol auth server: a
 * validated URL with a host, and the domain derived from it. The URL parser is
 * a foreign library and is given to `Parse` as a function.
 */
module DraslProvider {
  import opened Wrappers
  import opened Http
  import opened DraslError

  datatype YggdrasilProvider = YggdrasilProvider(url: Url)

  /** The message of the error `Parse` returns for a URL without a host. */
  const HostMissing := "Url must have a host for example: https://example.com/authenticate"

  /** `char::is_whitespace`: the characters with Unicode's White_Space property. */
  predicate IsWhitespace(c: char)
  {
    || '\t' <= c <= '\r'
    || c == ' '
    || c == '\U{85}'
    || c == '\U{A0}'
    || c == '\U{1680}'
    || '\U{2000}' <= c <= '\U{200A}'
    || c == '\U{2028}'
    || c == '\U{2029}'
    || c == '\U{202F}'
    || c == '\U{205F}'
    || c == '\U{3000}'
  }

  /** `str::trim_start`: drops the leading whitespace. */
  function TrimStart(s: string): (r: string)
    ensures |r| <= |s| && r == s[|s| - |r|..]
    ensures r != [] ==> !IsWhitespace(r[0])
    ensures forall i :: 0 <= i < |s| - |r| ==> IsWhitespace(s[i])
  {
    if s != [] && IsWhitespace(s[0]) then TrimStart(s[1..]) else s
  }

  /** `str::trim_end`: drops the trailing whitespace. */
  function TrimEnd(s: string): (r: string)
    ensures |r| <= |s| && r == s[..|r|]
    ensures r != [] ==> !IsWhitespace(r[|r| - 1])
    ensures forall i :: |r| <= i < |s| ==> IsWhitespace(s[i])
  {
    if s != [] && IsWhitespace(s[|s| - 1]) then TrimEnd(s[..|s| - 1]) else s
  }

  /**
   * `str::trim`: the result is a slice of the input that neither starts nor ends
   * with whitespace, and everything cut away on either side is whitespace.
   */
  function Trim(s: string): (r: string)
    ensures r == [] || (!IsWhitespace(r[0]) && !IsWhitespace(r[|r| - 1]))
    ensures |s| - |TrimStart(s)| + |r| <= |s|
    ensures forall i :: 0 <= i < |r| ==> r[i] == s[|s| - |TrimStart(s)| + i]
    ensures forall i :: 0 <= i < |s| - |TrimStart(s)| ==> IsWhitespace(s[i])
    ensures forall i :: |s| - |TrimStart(s)| + |r| <= i < |s| ==> IsWhitespace(s[i])
  {
    TrimBothEnds(s);
    TrimEnd(TrimStart(s))
  }

  /** The facts `Trim` promises, about trimming the start and then the end. */
  lemma TrimBothEnds(s: string)
    ensures var k := |s| - |TrimStart(s)|;
      var r := TrimEnd(TrimStart(s));
      && (r == [] || (!IsWhitespace(r[0]) && !IsWhitespace(r[|r| - 1])))
      && k + |r| <= |s|
      && (forall i :: 0 <= i < |r| ==> r[i] == s[k + i])
      && (forall i :: 0 <= i < k ==> IsWhitespace(s[i]))
      && (forall i :: k + |r| <= i < |s| ==> IsWhitespace(s[i]))
  {
    var t := TrimStart(s);
    TrimEndOfSuffix(s, t);
  }

  /** Trimming the end of a suffix `t` of `s` cuts a slice of `s` and only whitespace after it. */
  lemma TrimEndOfSuffix(s: string, t: string)
    requires |t| <= |s| && t == s[|s| - |t|..]
    ensures var k, r := |s| - |t|, TrimEnd(t);
      && k + |r| <= |s|
      && (forall i :: 0 <= i < |r| ==> r[i] == s[k + i])
      && (r != [] ==> r[0] == t[0])
      && (forall i :: k + |r| <= i < |s| ==> IsWhitespace(s[i]))
  {
    var k, r := |s| - |t|, TrimEnd(t);
    forall i | 0 <= i < |r|
      ensures r[i] == s[k + i]
    {
      assert r[i] == t[i];
    }
    forall i | k + |r| <= i < |s|
      ensures IsWhitespace(s[i])
    {
      assert s[i] == t[i - k];
    }
  }

  /** Trimming a trimmed string changes nothing. */
  lemma TrimIdempotent(s: string)
    ensures Trim(Trim(s)) == Trim(s)
  {
    var r := Trim(s);
    assert TrimStart(r) == r;
    assert TrimEnd(r) == r;
  }

  predicate HasHost(p: YggdrasilProvider)
  {
    p.url.host.Some?
  }

  /**
   * `YggdrasilProvider::parse`: trims the text, parses it, and rejects a parse
   * error or a URL without a host with `CantParseUrl`.
   */
  function Parse(raw: string, urlParse: string -> Result<Url, string>): (r: Result<YggdrasilProvider, DrasilInputError>)
    ensures r.Success? <==> urlParse(Trim(raw)).Success? && urlParse(Trim(raw)).value.host.Some?
    ensures r.Success? ==> HasHost(r.value) && r.value.url == urlParse(Trim(raw)).value
    ensures r.Success? ==> Some(Domain(r.value)) == urlParse(Trim(raw)).value.host
    ensures urlParse(Trim(raw)).Failure? ==> r == Failure(CantParseUrl(urlParse(Trim(raw)).error))
    ensures urlParse(Trim(raw)).Success? && urlParse(Trim(raw)).value.host.None? ==>
      r == Failure(CantParseUrl(HostMissing))
  {
    match urlParse(Trim(raw))
    case Failure(e) => Failure(CantParseUrl(e))
    case Success(url) =>
      if url.host.None? then Failure(CantParseUrl(HostMissing))
      else Success(YggdrasilProvider(url))
  }

  /** `YggdrasilProvider::domain`: the host; it panics on a provider without one. */
  function Domain(p: YggdrasilProvider): (d: string)
    requires HasHost(p)
    ensures Some(d) == p.url.host
  {
    p.url.host.value
  }
}
