/**
 * The application's own copy of the shared declarations (src/index.ts). Its
 * `formatServerUrl` formats an address for display and differs from the one
 * in the shared types package: sse addresses are shown as given and stdio
 * commands get a `stdio://` prefix. The two are kept apart here, and the
 * lemmas below say where they agree and where they do not.
 */
module AppTypes {
  import opened Wrappers
  import opened Js
  import opened McpContracts
  import SharedTypes

  const StdioScheme: string := "stdio://"

  /** `formatServerUrl` of the application: the address as displayed. */
  function FormatServerUrl(url: string, serverType: ServerType): (r: string)
    ensures |r| >= |url|
    ensures serverType == Sse ==> r == url
    ensures serverType == Stdio ==> StripStdioScheme(r) == Some(url)
  {
    if serverType == Sse then url else StdioScheme + url
  }

  /** An sse address is shown exactly as given, the empty one included. */
  lemma SseAddressShownAsGiven(url: string)
    ensures FormatServerUrl(url, Sse) == url
  {
  }

  /** A stdio address is shown behind `stdio://`: eight more characters, after which the address follows unchanged. */
  lemma StdioAddressPrefixed(url: string)
    ensures var r := FormatServerUrl(url, Stdio);
      StartsWith(r, "stdio://") && |r| == |url| + 8 && r[8..] == url
  {
  }

  /** Recovers the command from a displayed stdio address. */
  function StripStdioScheme(shown: string): (r: Option<string>)
    ensures r.Some? <==> StartsWith(shown, StdioScheme)
  {
    if StartsWith(shown, StdioScheme) then Some(shown[|StdioScheme|..]) else None
  }

  /** Stripping the scheme inverts the stdio formatting, and only formatted addresses can be stripped. */
  lemma StripInvertsStdioFormat(url: string, shown: string)
    ensures StripStdioScheme(FormatServerUrl(url, Stdio)) == Some(url)
    ensures StripStdioScheme(shown) == Some(url) <==> FormatServerUrl(url, Stdio) == shown
  {
    if StripStdioScheme(shown) == Some(url) {
      assert shown == shown[..8] + shown[8..];
    }
  }

  /** Formatting is total here, while the shared copy rejects the empty address. */
  lemma OnlySharedCopyRejectsEmpty(serverType: ServerType, resolve: string -> string)
    ensures SharedTypes.FormatServerUrl("", serverType, resolve).Err?
    ensures FormatServerUrl("", serverType) == if serverType == Sse then "" else "stdio://"
  {
  }

  /** For an sse address that already has a scheme the two copies agree. */
  lemma CopiesAgreeOnSseSchemeUrls(url: string, resolve: string -> string)
    requires OccursIn("://", url)
    ensures SharedTypes.FormatServerUrl(url, Sse, resolve) == Ok(FormatServerUrl(url, Sse))
  {
    SharedTypes.SchemeUrlsPassThrough(url, Sse, resolve);
  }

  /** For a stdio path without a scheme the two copies never agree: one gives `file://`, the other `stdio://`. */
  lemma CopiesDisagreeOnStdioPaths(url: string, resolve: string -> string)
    requires url != "" && !OccursIn("://", url)
    ensures SharedTypes.FormatServerUrl(url, Stdio, resolve) != Ok(FormatServerUrl(url, Stdio))
  {
    SharedTypes.StdioPathsBecomeFileUrls(url, resolve);
    assert SharedTypes.FormatServerUrl(url, Stdio, resolve).value[0] == 'f';
    assert FormatServerUrl(url, Stdio)[0] == 's';
  }

  /** The shared copy passes a displayed stdio address through unchanged, as it has a scheme. */
  lemma SharedCopyKeepsDisplayedStdio(url: string, serverType: ServerType, resolve: string -> string)
    ensures var shown := FormatServerUrl(url, Stdio);
      SharedTypes.FormatServerUrl(shown, serverType, resolve) == Ok(shown)
  {
    var shown := FormatServerUrl(url, Stdio);
    assert shown[5..8] == "://";
    assert OccursAt("://", shown, 5);
    SharedTypes.SchemeUrlsPassThrough(shown, serverType, resolve);
  }

  /** Unlike the shared copy, stdio formatting is not idempotent: each application adds eight characters. */
  lemma StdioFormatNotIdempotent(url: string)
    ensures FormatServerUrl(FormatServerUrl(url, Stdio), Stdio) != FormatServerUrl(url, Stdio)
  {
    StdioAddressPrefixed(url);
    StdioAddressPrefixed(FormatServerUrl(url, Stdio));
  }
}
