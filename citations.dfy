/** `CitationResponse.validate_citations` of models/response/base.py: a
    citation without a title is given the host of its URL, with one leading
    `www.` removed. `urlparse(url).netloc` is the parameter `netloc` and
    UTF-8 decoding of a bytes host is the parameter `decode` (None when the
    bytes are not valid UTF-8, where the validator raises). */
module Citations {
  import opened Wrappers
  import opened Text

  datatype Citation = Citation(url: string, title: Option<string>)

  datatype CitationResponse = CitationResponse(citations: seq<Citation>, iframeUrl: Option<string>, summary: string)

  /** A `netloc` is text, or bytes when the URL was bytes. */
  datatype Host = HostText(s: string) | HostBytes(b: seq<bv8>)

  datatype DecodeError = DecodeError

  /** The title a citation without one receives. */
  function HostTitle(url: string, netloc: string -> Host, decode: seq<bv8> -> Option<string>): (r: Result<string, DecodeError>)
    ensures r.Err? <==> netloc(url).HostBytes? && decode(netloc(url).b).None?
  {
    var host := netloc(url);
    var domain := if host.HostText? then Some(host.s) else decode(host.b);
    if domain.None? then Err(DecodeError)
    else if StartsWith(domain.value, "www.") then Ok(domain.value[4..])
    else Ok(domain.value)
  }

  /** One citation after the validator. */
  function Processed(c: Citation, netloc: string -> Host, decode: seq<bv8> -> Option<string>): Result<Citation, DecodeError> {
    if c.title.Some? then Ok(c)
    else
      var t := HostTitle(c.url, netloc, decode);
      if t.Err? then Err(t.error) else Ok(Citation(c.url, Some(t.value)))
  }

  /** Whether some citation's host fails to decode. */
  predicate AnyFails(cs: seq<Citation>, netloc: string -> Host, decode: seq<bv8> -> Option<string>) {
    exists i :: 0 <= i < |cs| && Processed(cs[i], netloc, decode).Err?
  }

  /** `validate_citations`: each citation in order, with its url and its
      title when it has one; the first decoding error raises. */
  method ValidateCitations(resp: CitationResponse, netloc: string -> Host, decode: seq<bv8> -> Option<string>)
    returns (r: Result<CitationResponse, DecodeError>)
    ensures r.Err? <==> AnyFails(resp.citations, netloc, decode)
    ensures r.Ok? ==>
      r.value.iframeUrl == resp.iframeUrl && r.value.summary == resp.summary
      && |r.value.citations| == |resp.citations|
      && forall i :: 0 <= i < |resp.citations| ==> Ok(r.value.citations[i]) == Processed(resp.citations[i], netloc, decode)
  {
    var processed: seq<Citation> := [];
    var i := 0;
    while i < |resp.citations|
      invariant 0 <= i <= |resp.citations|
      invariant |processed| == i
      invariant forall j :: 0 <= j < i ==> Ok(processed[j]) == Processed(resp.citations[j], netloc, decode)
    {
      var url := resp.citations[i].url;
      var title := resp.citations[i].title;
      if title.None? {
        var host := netloc(url);
        var domain: string;
        if host.HostBytes? {
          var decoded := decode(host.b);
          if decoded.None? {
            return Err(DecodeError);
          }
          domain := decoded.value;
        } else {
          domain := host.s;
        }
        if StartsWith(domain, "www.") {
          domain := domain[4..];
        }
        title := Some(domain);
      }
      processed := processed + [Citation(url, title)];
      i := i + 1;
    }
    return Ok(resp.(citations := processed));
  }

  /** A title that is present, even empty, is kept; a missing one becomes
      the host; the url never changes; afterwards every citation has a title. */
  lemma ProcessedTitle(c: Citation, netloc: string -> Host, decode: seq<bv8> -> Option<string>)
    ensures var p := Processed(c, netloc, decode);
      p.Ok? ==> (p.value.url == c.url && p.value.title.Some?
                 && (c.title.Some? ==> p.value == c)
                 && (c.title.None? ==> p.value.title == Some(HostTitle(c.url, netloc, decode).value)))
  {
  }

  /** Exactly one leading `www.` is removed: `www.www.x` becomes `www.x`. */
  lemma StripsOneWww(url: string, netloc: string -> Host, decode: seq<bv8> -> Option<string>, rest: string)
    requires netloc(url) == HostText("www." + rest)
    ensures HostTitle(url, netloc, decode) == Ok(rest)
  {
    assert StartsWith("www." + rest, "www.");
    assert ("www." + rest)[4..] == rest;
  }

  /** A bytes host is decoded before the prefix is removed. */
  lemma BytesDecodedFirst(url: string, netloc: string -> Host, decode: seq<bv8> -> Option<string>, b: seq<bv8>, rest: string)
    requires netloc(url) == HostBytes(b) && decode(b) == Some("www." + rest)
    ensures HostTitle(url, netloc, decode) == Ok(rest)
  {
    assert StartsWith("www." + rest, "www.");
    assert ("www." + rest)[4..] == rest;
  }

  /** Validating an already validated response changes nothing. */
  lemma ProcessedIdempotent(c: Citation, netloc: string -> Host, decode: seq<bv8> -> Option<string>)
    requires Processed(c, netloc, decode).Ok?
    ensures Processed(Processed(c, netloc, decode).value, netloc, decode) == Processed(c, netloc, decode)
  {
  }
}
