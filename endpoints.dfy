/**
 * The `scheme://host:port` strings built by the client (`http(s)://host:port/api/v1`)
 * and by the realtime channel (`ws(s)://host:port`), and a parser that recovers
 * host and port from them, so that the builders are shown to lose nothing.
 */
module Endpoints {
  import opened Wrappers
  import opened Decimal

  /** `${scheme}://${host}:${port}`. */
  function Endpoint(scheme: string, host: string, port: int): string {
    scheme + "://" + host + ":" + IntToText(port)
  }

  /** Length of the longest run of digits at the end of `s`. */
  function TrailingDigits(s: string): (k: nat)
    ensures k <= |s|
    ensures AllDigits(s[|s| - k..])
    ensures k < |s| ==> !IsDigit(s[|s| - k - 1])
  {
    if s == [] || !IsDigit(s[|s| - 1]) then 0
    else
      var k := TrailingDigits(s[..|s| - 1]);
      assert s[|s| - (k + 1)..] == s[..|s| - 1][|s| - 1 - k..] + [s[|s| - 1]];
      k + 1
  }

  /**
   * Reads `url` as `scheme://host:port`, the port being the digits after the last `:`.
   * None when the scheme differs or no `:digits` ends the text.
   */
  function ParseEndpoint(scheme: string, url: string): Option<(string, nat)> {
    var prefix := scheme + "://";
    if |url| < |prefix| || url[..|prefix|] != prefix then None
    else
      var rest := url[|prefix|..];
      var k := TrailingDigits(rest);
      if k == 0 || k == |rest| || rest[|rest| - k - 1] != ':' then None
      else Some((rest[..|rest| - k - 1], TextToNat(rest[|rest| - k..])))
  }

  lemma {:induction false} TrailingDigitsAfterColon(a: string, d: string)
    requires AllDigits(d)
    ensures TrailingDigits(a + ":" + d) == |d|
  {
    var s := a + ":" + d;
    if d == [] {
      assert s[|s| - 1] == ':';
    } else {
      assert s[..|s| - 1] == a + ":" + d[..|d| - 1];
      TrailingDigitsAfterColon(a, d[..|d| - 1]);
    }
  }

  /** The endpoint text is the scheme's `://` prefix followed by `host:digits`. */
  lemma EndpointSplits(scheme: string, host: string, port: nat)
    ensures Endpoint(scheme, host, port) == (scheme + "://") + (host + ":" + NatToText(port))
  {
  }

  /** The parser reads `host:digits` after the prefix back as the host and the digits' value. */
  lemma {:induction false} ParseAfterPrefix(scheme: string, host: string, digits: string)
    requires |digits| >= 1 && AllDigits(digits)
    ensures ParseEndpoint(scheme, (scheme + "://") + (host + ":" + digits)) == Some((host, TextToNat(digits)))
  {
    var prefix := scheme + "://";
    var rest := host + ":" + digits;
    var url := prefix + rest;
    assert url[..|prefix|] == prefix;
    assert url[|prefix|..] == rest;
    TrailingDigitsAfterColon(host, digits);
    assert rest[|rest| - |digits| - 1] == ':';
    assert rest[|rest| - |digits|..] == digits;
    assert rest[..|rest| - |digits| - 1] == host;
  }

  /** Any host, however odd, and any non-negative port are recovered from the endpoint text. */
  lemma EndpointRoundTrip(scheme: string, host: string, port: nat)
    ensures ParseEndpoint(scheme, Endpoint(scheme, host, port)) == Some((host, port))
  {
    EndpointSplits(scheme, host, port);
    ParseAfterPrefix(scheme, host, NatToText(port));
    TextToNatOfNatToText(port);
  }

  /** An endpoint never parses under a scheme whose `://` form differs from its own at some position `i`. */
  lemma OtherSchemeRejected(scheme: string, other: string, host: string, port: int, i: nat)
    requires i < |scheme| + 3 && i < |other| + 3
    requires (scheme + "://")[i] != (other + "://")[i]
    ensures ParseEndpoint(other, Endpoint(scheme, host, port)).None?
  {
    var url := Endpoint(scheme, host, port);
    assert url == (scheme + "://") + (host + ":" + IntToText(port));
    assert url[i] == (scheme + "://")[i];
  }
}
