/**
  The request-body parser of the clear-scroll REST action, as a single-pass
  state machine over a finite token stream.

  The body must be one object. Inside it the parser remembers the most recent
  field name; under `scroll_id` it accepts a scalar or an array of scalars
  and collects their texts, and anything else is an error. Parsing ends at
  the first top-level object end.
 */
module BodyParser {
  import opened Wrappers
  import opened Tokens

  /** Why a body was rejected. The first four are the
      IllegalArgumentExceptions thrown by
      `RestClearScrollAction.buildFromContent`; the fifth is the stream
      ending while a `scroll_id` value is expected, where that method
      dereferences the null token. */
  datatype ParseError =
    | MalformedContent
    | UnknownParameter(field: Option<string>, found: Option<Token>)
    | InvalidArrayElement
    | InvalidScrollIdElement
    | UnexpectedEndOfContent

  /** Where the parser is: directly inside the top-level object (with the
      current field name, absent before the first one), or inside the array
      value of `scroll_id`. */
  datatype Mode = InObject(field: Option<string>) | InScrollIdArray

  /** What one token does to the parser: stop with an outcome, or move on. */
  datatype Transition =
    | Stop(outcome: Result<seq<string>, ParseError>)
    | Next(mode: Mode, ids: seq<string>)

  /** The state-machine step for token `t` read in `mode` with ids `ids`
      collected so far. */
  function Step(t: Token, mode: Mode, ids: seq<string>): Transition
  {
    match mode
    case InScrollIdArray =>
      if t == EndArray then Next(InObject(Some(ScrollIdField)), ids)
      else if t.Value? then Next(InScrollIdArray, ids + [t.text])
      else Stop(Failure(InvalidArrayElement))
    case InObject(field) =>
      if t == EndObject then Stop(Success(ids))
      else if t.FieldName? then Next(InObject(Some(t.name)), ids)
      else if field == Some(ScrollIdField) then
        if t == StartArray then Next(InScrollIdArray, ids)
        else if t.Value? then Next(mode, ids + [t.text])
        else Stop(Failure(InvalidScrollIdElement))
      else Stop(Failure(UnknownParameter(field, Some(t))))
  }

  /** The outcome when the stream ends (the pull parser returns no token)
      in `mode`: a missing `scroll_id` value, or the unknown-parameter
      error reporting no token. */
  function EndOfStream(mode: Mode): ParseError
  {
    match mode
    case InScrollIdArray => UnexpectedEndOfContent
    case InObject(field) =>
      if field == Some(ScrollIdField) then UnexpectedEndOfContent
      else UnknownParameter(field, None)
  }

  /** Runs the state machine over the tokens still to be read. On success
      the ids collected before are kept as a prefix; the object-start error
      is never produced here. */
  function Run(toks: seq<Token>, mode: Mode, ids: seq<string>): (r: Result<seq<string>, ParseError>)
    ensures r != Failure(MalformedContent)
    ensures r.Success? ==> ids <= r.value
    decreases |toks|
  {
    if |toks| == 0 then Failure(EndOfStream(mode))
    else
      match Step(toks[0], mode, ids)
      case Stop(outcome) => outcome
      case Next(mode', ids') => Run(toks[1..], mode', ids')
  }

  /** The body parser: the first token must start an object, then the state
      machine runs with no current field and no ids. */
  function ParseBody(toks: seq<Token>): (r: Result<seq<string>, ParseError>)
    ensures r == Failure(MalformedContent) <==> |toks| == 0 || toks[0] != StartObject
  {
    if |toks| == 0 || toks[0] != StartObject then Failure(MalformedContent)
    else Run(toks[1..], InObject(None), [])
  }

  /** The parse outcomes that only the end of the stream can produce. */
  predicate RanOut(r: Result<seq<string>, ParseError>)
  {
    r.Failure? && (r.error.UnexpectedEndOfContent? || (r.error.UnknownParameter? && r.error.found.None?))
  }

  /** The parser is single-pass: an outcome reached without running off the
      end of `toks` is unchanged by whatever follows. */
  lemma {:induction false} RunIgnoresSuffix(toks: seq<Token>, rest: seq<Token>, mode: Mode, ids: seq<string>)
    requires !RanOut(Run(toks, mode, ids))
    ensures Run(toks + rest, mode, ids) == Run(toks, mode, ids)
    decreases |toks|
  {
    if |toks| > 0 {
      assert (toks + rest)[0] == toks[0];
      assert (toks + rest)[1..] == toks[1..] + rest;
      var s := Step(toks[0], mode, ids);
      if s.Next? {
        RunIgnoresSuffix(toks[1..], rest, s.mode, s.ids);
      }
    }
  }

  /** Tokens after the point where the body's outcome is decided are never
      examined: in particular nothing after the top-level object end. (An
      empty stream is rejected for lacking its first token, so it is not
      decided.) */
  lemma ParseBodyIgnoresSuffix(toks: seq<Token>, rest: seq<Token>)
    requires |toks| > 0
    requires !RanOut(ParseBody(toks))
    ensures ParseBody(toks + rest) == ParseBody(toks)
  {
    assert (toks + rest)[0] == toks[0];
    if toks[0] == StartObject {
      assert (toks + rest)[1..] == toks[1..] + rest;
      RunIgnoresSuffix(toks[1..], rest, InObject(None), []);
    }
  }

  /** The body parser written as `RestClearScrollAction.buildFromContent`
      writes it: an outer loop over the object's tokens and an inner loop
      over a `scroll_id` array, with a mutable current field name and id
      list. It computes ParseBody. */
  method BuildFromContent(toks: seq<Token>) returns (r: Result<seq<string>, ParseError>)
    ensures r == ParseBody(toks)
  {
    if |toks| == 0 || toks[0] != StartObject {
      return Failure(MalformedContent);
    }
    var i := 1;
    var field: Option<string> := None;
    var ids: seq<string> := [];
    while true
      invariant 1 <= i <= |toks|
      invariant Run(toks[i..], InObject(field), ids) == ParseBody(toks)
      decreases |toks| - i
    {
      if i == |toks| {
        if field == Some(ScrollIdField) {
          return Failure(UnexpectedEndOfContent);
        }
        return Failure(UnknownParameter(field, None));
      }
      var token := toks[i];
      i := i + 1;
      if token == EndObject {
        return Success(ids);
      }
      if token.FieldName? {
        field := Some(token.name);
      } else if field == Some(ScrollIdField) {
        if token == StartArray {
          while true
            invariant 1 <= i <= |toks|
            invariant Run(toks[i..], InScrollIdArray, ids) == ParseBody(toks)
            decreases |toks| - i
          {
            if i == |toks| {
              return Failure(UnexpectedEndOfContent);
            }
            token := toks[i];
            i := i + 1;
            if token == EndArray {
              break;
            }
            if !token.Value? {
              return Failure(InvalidArrayElement);
            }
            ids := ids + [token.text];
          }
        } else {
          if !token.Value? {
            return Failure(InvalidScrollIdElement);
          }
          ids := ids + [token.text];
        }
      } else {
        return Failure(UnknownParameter(field, Some(token)));
      }
    }
  }
}
