/**
 * The request-size guard (`middleware/validation.py`): a decision taken from the Content-Length
 * and x-demo-client header values alone, before any handler runs and without reading the body.
 *
 * The module-level settings are gathered in `Config`, so that a patched limit is just another
 * configuration. Header lookup (case-insensitive in the framework) is done by the caller: the
 * decision takes the two header values, `None` where the header is absent.
 */
module ValidationMiddleware {
  import opened Common
  import Text
  import Numerals

  /** Production limit: 10 MiB. */
  const MAX_CONTENT_LENGTH: int := 10 * 1024 * 1024
  /** Limit for demo clients: 1 MiB. */
  const DEMO_MAX_CONTENT_LENGTH: int := 1 * 1024 * 1024
  const DEMO_HEADER := "x-demo-client"

  datatype Config = Config(maxContentLength: int, demoMaxContentLength: int, demoModeEnabled: bool)

  /** The spellings of "true" in any mix of upper and lower case: "true", "True", "tRuE", "TRUE", ... */
  predicate SpellsTrue(s: string) {
    |s| == 4 && forall i :: 0 <= i < 4 ==> s[i] == "true"[i] || s[i] == "TRUE"[i]
  }

  /**
   * `DEMO_MODE` (default "true") turns demo mode on when it lower-cases to "true": when it is
   * unset, or set to "true" in any mix of cases.
   */
  function DemoModeEnabled(env: Option<string>): (on: bool)
    ensures on <==> env.None? || SpellsTrue(env.value)
    ensures env.None? || env == Some("true") || env == Some("TRUE") || env == Some("True") ==> on
    ensures env.Some? && |env.value| != 4 ==> !on
  {
    var s := env.GetOr("true");
    assert Text.Lower(s) == "true" <==> SpellsTrue(s) by {
      if Text.Lower(s) == "true" {
        forall i | 0 <= i < 4 ensures s[i] == "true"[i] || s[i] == "TRUE"[i] {
          assert Text.LowerChar(s[i]) == "true"[i];
        }
      }
      if SpellsTrue(s) {
        assert Text.Lower(s) == "true";
      }
    }
    Text.Lower(s) == "true"
  }

  /** The settings as the module computes them at import time. */
  function DefaultConfig(env: Option<string>): Config {
    Config(MAX_CONTENT_LENGTH, DEMO_MAX_CONTENT_LENGTH, DemoModeEnabled(env))
  }

  /** Demo clients are those that send x-demo-client exactly "true" while demo mode is on. */
  predicate IsDemoClient(config: Config, demoHeader: Option<string>) {
    config.demoModeEnabled && demoHeader == Some("true")
  }

  function ChosenLimit(config: Config, demoHeader: Option<string>): (limit: int)
    ensures IsDemoClient(config, demoHeader) ==> limit == config.demoMaxContentLength
    ensures !IsDemoClient(config, demoHeader) ==> limit == config.maxContentLength
  {
    if IsDemoClient(config, demoHeader) then config.demoMaxContentLength else config.maxContentLength
  }

  function ClientType(config: Config, demoHeader: Option<string>): string {
    if IsDemoClient(config, demoHeader) then "demo" else "production"
  }

  /** Either the request goes on to the application, or a JSON error response is sent instead. */
  datatype Outcome =
    | PassThrough
    | Rejected(status: nat, error: string, message: string, limitBytes: Option<int>)

  /**
   * `dispatch`: no Content-Length passes; one that `int()` rejects is a 400; a length above the
   * chosen limit is a 413 naming that limit; anything else, the limit itself included, passes.
   */
  function Dispatch(config: Config, contentLength: Option<string>, demoHeader: Option<string>): (o: Outcome)
    ensures contentLength.None? ==> o == PassThrough
    ensures contentLength.Some? && Numerals.ParseInt(contentLength.value).None? ==>
      o == Rejected(400, "INVALID_CONTENT_LENGTH", "Invalid Content-Length header", None)
    ensures contentLength.Some? && Numerals.ParseInt(contentLength.value).Some? ==>
      && (o.Rejected? <==> Numerals.ParseInt(contentLength.value).value > ChosenLimit(config, demoHeader))
      && (o.Rejected? ==> o.status == 413 && o.error == "PAYLOAD_TOO_LARGE"
                          && o.limitBytes == Some(ChosenLimit(config, demoHeader)))
  {
    match contentLength
    case None => PassThrough
    case Some(raw) =>
      match Numerals.ParseInt(raw)
      case None => Rejected(400, "INVALID_CONTENT_LENGTH", "Invalid Content-Length header", None)
      case Some(length) =>
        var limit := ChosenLimit(config, demoHeader);
        if length > limit then
          Rejected(413, "PAYLOAD_TOO_LARGE",
                   "Request body exceeds limit for " + ClientType(config, demoHeader) + " client", Some(limit))
        else PassThrough
  }

  /** A declared length decides the outcome: over the limit is rejected, at or under it passes. */
  lemma DeclaredLengthDecides(config: Config, n: int, demoHeader: Option<string>)
    ensures var o := Dispatch(config, Some(Numerals.IntToString(n)), demoHeader);
      if n > ChosenLimit(config, demoHeader) then
        o.Rejected? && o.status == 413 && o.limitBytes == Some(ChosenLimit(config, demoHeader))
      else o == PassThrough
  {
  }

  /** The guard is monotone: a longer declared body than one already refused is refused too. */
  lemma LongerBodiesStayRejected(config: Config, n: int, m: int, demoHeader: Option<string>)
    requires n <= m
    requires Dispatch(config, Some(Numerals.IntToString(n)), demoHeader).Rejected?
    ensures Dispatch(config, Some(Numerals.IntToString(m)), demoHeader).Rejected?
  {
  }

  /** A demo client gets the smaller limit; with the default settings it is 1 MiB rather than 10 MiB. */
  lemma DemoClientsGetTheSmallerLimit(env: Option<string>, demoHeader: Option<string>)
    ensures ChosenLimit(DefaultConfig(env), demoHeader) <= MAX_CONTENT_LENGTH
    ensures ChosenLimit(DefaultConfig(env), demoHeader) == DEMO_MAX_CONTENT_LENGTH
        <==> DemoModeEnabled(env) && demoHeader == Some("true")
  {
  }

  /** With the production limit patched to 100 bytes, a 150-byte body is refused with 413. */
  lemma PatchedLimitRejectsLargerBody(demoMode: bool)
    ensures var o := Dispatch(Config(100, DEMO_MAX_CONTENT_LENGTH, demoMode), Some("150"), None);
      o.Rejected? && o.status == 413 && o.error == "PAYLOAD_TOO_LARGE" && o.limitBytes == Some(100)
  {
    var s := "150";
    assert s[..2] == "15" && "15"[..1] == "1" && "1"[..0] == "";
    assert Numerals.DigitsValue("1") == 1;
    assert Numerals.DigitsValue("15") == 15;
    assert Numerals.DigitsValue(s) == 150;
    Numerals.ParseIntUnsigned(s, 150);
  }
}
