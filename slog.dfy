/**
 * The log-handler setting of slog/slog.go: a Go `int` enumeration with four
 * named values, its name codec, and the rule NewSlogLogger follows to pick a
 * back end.
 */
module Slog {
  import opened Wrappers
  import opened Decimal

  /** A Go `int`; four values are named, every other one is unknown. */
  newtype Handler = x: int | MinInt <= x <= MaxInt

  const HandlerText: Handler := 0
  const HandlerJSON: Handler := 1
  const HandlerTint: Handler := 2
  const HandlerAuto: Handler := 3

  /** One of the four named handlers. */
  predicate Known(h: Handler) {
    HandlerText <= h <= HandlerAuto
  }

  /** The name of a handler: "text", "json", "tint" or "auto"; "" for every other value. */
  function String(h: Handler): (s: string)
    ensures s == "" <==> !Known(h)
  {
    if h == HandlerText then "text"
    else if h == HandlerJSON then "json"
    else if h == HandlerTint then "tint"
    else if h == HandlerAuto then "auto"
    else ""
  }

  /** The bytes of String(h). The error Go returns beside them is always nil. */
  function MarshalText(h: Handler): (b: string)
    ensures b == String(h)
  {
    String(h)
  }

  /** Why a handler could not be decoded or, in the corrected encoder, encoded. */
  datatype Error =
    | UnknownHandlerName(text: string)   // ErrUnknownHandlerName: the text names no handler
    | UnknownHandler(value: Handler)     // MarshalTextChecked: the value has no name

  /** The handler a name stands for; any other text is an unknown name. */
  function ParseHandler(s: string): (r: Result<Handler, Error>)
    ensures r.Success? ==> Known(r.value) && String(r.value) == s
    ensures r.Failure? ==> r.error == UnknownHandlerName(s)
  {
    if s == String(HandlerText) then Success(HandlerText)
    else if s == String(HandlerJSON) then Success(HandlerJSON)
    else if s == String(HandlerTint) then Success(HandlerTint)
    else if s == String(HandlerAuto) then Success(HandlerAuto)
    else Failure(UnknownHandlerName(s))
  }

  /**
   * Decodes b into the receiver h: a name of one of the four handlers
   * replaces the receiver; anything else leaves it unchanged and reports
   * ErrUnknownHandlerName.
   */
  method UnmarshalText(h: Handler, b: string) returns (h': Handler, err: Option<Error>)
    ensures err.None? ==> ParseHandler(b) == Success(h')
    ensures err.Some? ==> ParseHandler(b) == Failure(err.value) && h' == h
  {
    match ParseHandler(b)
    case Success(decoded) =>
      h', err := decoded, None;
    case Failure(e) =>
      h', err := h, Some(e);
  }

  /** The name of each of the four handlers decodes back to it. */
  lemma RoundTrip(h: Handler)
    requires Known(h)
    ensures ParseHandler(MarshalText(h)) == Success(h)
  {
  }

  /** Exactly the names of the four handlers decode; in particular "" does not. */
  lemma ParseHandlerAcceptsExactlyNames(s: string)
    ensures ParseHandler(s).Success? <==> exists h: Handler :: Known(h) && String(h) == s
  {
  }

  /**
   * As written, MarshalText gives "" (and a nil error) for a value outside
   * the four handlers, and UnmarshalText rejects "": not every text
   * MarshalText produces is accepted, contrary to its doc comment.
   */
  lemma MarshalTextUnknownNotDecodable(h: Handler)
    requires !Known(h)
    ensures MarshalText(h) == ""
    ensures ParseHandler(MarshalText(h)).Failure?
  {
  }

  /** The encoder as its doc comment needs it: an unnamed value is an error, not "". */
  function MarshalTextChecked(h: Handler): (r: Result<string, Error>)
    ensures r.Success? <==> Known(h)
    ensures r.Failure? ==> r.error == UnknownHandler(h)
  {
    if Known(h) then Success(String(h)) else Failure(UnknownHandler(h))
  }

  /** Every text the corrected encoder produces decodes back to the handler. */
  lemma CheckedRoundTrip(h: Handler)
    ensures MarshalTextChecked(h).Success? ==> ParseHandler(MarshalTextChecked(h).value) == Success(h)
  {
  }

  /** No two of the four handlers share a name. */
  lemma StringInjective(h1: Handler, h2: Handler)
    requires Known(h1) && Known(h2) && String(h1) == String(h2)
    ensures h1 == h2
  {
  }

  /** The logger implementations NewSlogLogger can build. */
  datatype Backend = TextBackend | JSONBackend | TintBackend

  /**
   * The handler NewSlogLogger goes on with: HandlerAuto becomes HandlerTint
   * when the writer is a terminal file and HandlerText otherwise; any other
   * value is kept.
   */
  function ResolveAuto(h: Handler, isTerminal: bool): (r: Handler)
    ensures r != HandlerAuto
    ensures h == HandlerAuto ==> r == (if isTerminal then HandlerTint else HandlerText)
    ensures h != HandlerAuto ==> r == h
    ensures Known(r) <==> Known(h)
  {
    if h == HandlerAuto then
      if isTerminal then HandlerTint else HandlerText
    else h
  }

  /** The back end that bears a handler's name. */
  function BackendName(b: Backend): string {
    match b
    case TextBackend => "text"
    case JSONBackend => "json"
    case TintBackend => "tint"
  }

  /**
   * The back end NewSlogLogger builds for a handler, or None where it returns
   * nil: after resolving HandlerAuto, the handler's own back end is chosen;
   * an unknown handler selects none.
   */
  function NewSlogLogger(h: Handler, isTerminal: bool): (r: Option<Backend>)
    ensures r.None? <==> !Known(h)
    ensures r.Some? ==> BackendName(r.value) == String(ResolveAuto(h, isTerminal))
  {
    var resolved := ResolveAuto(h, isTerminal);
    if resolved == HandlerText then Some(TextBackend)
    else if resolved == HandlerJSON then Some(JSONBackend)
    else if resolved == HandlerTint then Some(TintBackend)
    else None
  }
}
