/**
  An independent, declarative description of the bodies the clear-scroll
  parser accepts, and the ids each one names. A body is an object holding a
  sequence of entries: field names, scalar values and arrays of scalars,
  where a value may only follow the `scroll_id` field name.
 */
module BodyGrammar {
  import opened Wrappers
  import opened Tokens
  import opened BodyParser

  /** One entry of the top-level object, as the body's author writes it. */
  datatype Entry =
    | Field(name: string)
    | Scalar(id: string)
    | List(ids: seq<string>)

  /** The field a value falls under after entry `e`, if it fell under `field` before. */
  function Advance(e: Entry, field: Option<string>): Option<string>
  {
    if e.Field? then Some(e.name) else field
  }

  /** The field a value would fall under after `es`, starting from `field`. */
  function CurrentField(es: seq<Entry>, field: Option<string>): Option<string>
    decreases |es|
  {
    if |es| == 0 then field else CurrentField(es[1..], Advance(es[0], field))
  }

  /** Every scalar and array in `es` falls under the `scroll_id` field. */
  predicate Valid(es: seq<Entry>, field: Option<string>)
    decreases |es|
  {
    |es| == 0 ||
    ((es[0].Field? || field == Some(ScrollIdField)) && Valid(es[1..], Advance(es[0], field)))
  }

  /** The value tokens for `ids`, in order. */
  function Values(ids: seq<string>): (r: seq<Token>)
    ensures |r| == |ids|
    ensures forall k :: 0 <= k < |ids| ==> r[k] == Value(ids[k])
  {
    seq(|ids|, k requires 0 <= k < |ids| => Value(ids[k]))
  }

  function RenderEntry(e: Entry): seq<Token>
  {
    match e
    case Field(n) => [FieldName(n)]
    case Scalar(s) => [Value(s)]
    case List(ids) => [StartArray] + Values(ids) + [EndArray]
  }

  function RenderEntries(es: seq<Entry>): seq<Token>
    decreases |es|
  {
    if |es| == 0 then [] else RenderEntry(es[0]) + RenderEntries(es[1..])
  }

  /** The token stream of the object holding `es`. */
  function Render(es: seq<Entry>): seq<Token>
  {
    [StartObject] + RenderEntries(es) + [EndObject]
  }

  function EntryIds(e: Entry): seq<string>
  {
    match e
    case Field(_) => []
    case Scalar(s) => [s]
    case List(ids) => ids
  }

  /** The ids the entries name, in the order they are written. */
  function Ids(es: seq<Entry>): seq<string>
    decreases |es|
  {
    if |es| == 0 then [] else EntryIds(es[0]) + Ids(es[1..])
  }

  /** Repeated `scroll_id` entries accumulate: the ids of two runs of
      entries are the ids of the first followed by those of the second. */
  lemma {:induction false} IdsAppend(es1: seq<Entry>, es2: seq<Entry>)
    ensures Ids(es1 + es2) == Ids(es1) + Ids(es2)
    decreases |es1|
  {
    if |es1| > 0 {
      assert (es1 + es2)[0] == es1[0];
      assert (es1 + es2)[1..] == es1[1..] + es2;
      IdsAppend(es1[1..], es2);
    } else {
      assert es1 + es2 == es2;
    }
  }

  /** How the tokens after the valid entries end the body. */
  datatype Ending =
    | Closed                               // the object end
    | Stray(found: Token)                  // a value under a field other than `scroll_id`
    | BadScalar(found: Token)              // a `scroll_id` value that is neither scalar nor array
    | BadElement(ids: seq<string>, found: Token)  // a non-scalar inside the `scroll_id` array
    | Truncated                            // the stream ends inside the object
    | TruncatedArray(ids: seq<string>)     // the stream ends inside the `scroll_id` array

  /** The ending is one that can follow entries whose current field is `field`. */
  predicate Allowed(ending: Ending, field: Option<string>)
  {
    match ending
    case Closed => true
    case Stray(t) => field != Some(ScrollIdField) && !t.FieldName? && t != EndObject
    case BadScalar(t) =>
      field == Some(ScrollIdField) && !t.Value? && !t.FieldName? && t != StartArray && t != EndObject
    case BadElement(_, t) => field == Some(ScrollIdField) && !t.Value? && t != EndArray
    case Truncated => true
    case TruncatedArray(_) => field == Some(ScrollIdField)
  }

  /** The ending leaves nothing to read after it. */
  predicate Truncating(ending: Ending)
  {
    ending.Truncated? || ending.TruncatedArray?
  }

  function EndingTokens(ending: Ending): seq<Token>
  {
    match ending
    case Closed => [EndObject]
    case Stray(t) => [t]
    case BadScalar(t) => [t]
    case BadElement(ids, t) => [StartArray] + Values(ids) + [t]
    case Truncated => []
    case TruncatedArray(ids) => [StartArray] + Values(ids)
  }

  /** The tokens of a body made of `es` followed by `ending`. */
  function Shape(es: seq<Entry>, ending: Ending): seq<Token>
  {
    [StartObject] + RenderEntries(es) + EndingTokens(ending)
  }

  /** What the body made of `es` and `ending` is meant to produce, when the
      entries start under `field` and `ids` were collected before them: the
      ids named on a closed object, otherwise the error the ending calls for. */
  function Outcome(es: seq<Entry>, ending: Ending, field: Option<string>, ids: seq<string>): Result<seq<string>, ParseError>
  {
    var current := CurrentField(es, field);
    match ending
    case Closed => Success(ids + Ids(es))
    case Stray(t) => Failure(UnknownParameter(current, Some(t)))
    case BadScalar(_) => Failure(InvalidScrollIdElement)
    case BadElement(_, _) => Failure(InvalidArrayElement)
    case Truncated =>
      if current == Some(ScrollIdField) then Failure(UnexpectedEndOfContent)
      else Failure(UnknownParameter(current, None))
    case TruncatedArray(_) => Failure(UnexpectedEndOfContent)
  }

  /** The outcome of a whole body. */
  function Expected(es: seq<Entry>, ending: Ending): Result<seq<string>, ParseError>
  {
    Outcome(es, ending, None, [])
  }
}
