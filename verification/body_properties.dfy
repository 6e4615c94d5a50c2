/**
  The properties of the clear-scroll body parser, stated on whole bodies and
  derived from its agreement with the body grammar.
 */
module BodyProperties {
  import opened Wrappers
  import opened Tokens
  import opened BodyParser
  import opened BodyGrammar
  import opened ParserCorrectness

  /** A body parses successfully exactly when it begins with a closed object
      of valid entries, and then the ids are those the entries name, in
      order: the texts of the scalars under `scroll_id` and of the elements
      of the arrays under it. */
  lemma ParseBodySucceedsIffGrammatical(toks: seq<Token>, ids: seq<string>)
    ensures ParseBody(toks) == Success(ids)
        <==> exists es :: Valid(es, None) && Render(es) <= toks && Ids(es) == ids
  {
    if ParseBody(toks) == Success(ids) {
      var es, ending, rest := ParseBodyDecomposes(toks);
      assert ending == Closed;
      assert toks == Render(es) + rest;
      assert Render(es) <= toks;
    }
    if exists es :: Valid(es, None) && Render(es) <= toks && Ids(es) == ids {
      var es :| Valid(es, None) && Render(es) <= toks && Ids(es) == ids;
      var rest := toks[|Render(es)|..];
      assert toks == Shape(es, Closed) + rest;
      ParseBodyMatchesGrammar(es, Closed, rest);
      assert [] + Ids(es) == Ids(es);
    }
  }

  /** Parsing stops at the first top-level object end: whatever follows a
      closed object of valid entries is never read. */
  lemma ParseBodyStopsAtObjectEnd(es: seq<Entry>, rest: seq<Token>)
    requires Valid(es, None)
    ensures ParseBody(Render(es) + rest) == Success(Ids(es))
  {
    ParseBodyMatchesGrammar(es, Closed, rest);
    assert [] + Ids(es) == Ids(es);
  }

  /** Repeated `scroll_id` entries accumulate rather than replace. */
  lemma RepeatedScrollIdsAccumulate(es1: seq<Entry>, es2: seq<Entry>)
    requires Valid(es1 + es2, None)
    ensures ParseBody(Render(es1 + es2)) == Success(Ids(es1) + Ids(es2))
  {
    ParseBodyMatchesGrammar(es1 + es2, Closed, []);
    assert Shape(es1 + es2, Closed) + [] == Render(es1 + es2);
    IdsAppend(es1, es2);
    assert [] + Ids(es1 + es2) == Ids(es1 + es2);
  }

  /** A non-field token read while the current field is not `scroll_id`
      (including before any field name, when there is no current field) is
      the unknown-parameter error naming that field and token. */
  lemma UnknownFieldRejected(es: seq<Entry>, t: Token, rest: seq<Token>)
    requires Valid(es, None)
    requires CurrentField(es, None) != Some(ScrollIdField)
    requires !t.FieldName? && t != EndObject
    ensures ParseBody([StartObject] + RenderEntries(es) + [t] + rest)
         == Failure(UnknownParameter(CurrentField(es, None), Some(t)))
  {
    ParseBodyMatchesGrammar(es, Stray(t), rest);
  }

  /** Inside a `scroll_id` array, any token other than a value or the array
      end fails the whole body, whatever values were read before it. */
  lemma ArrayElementRejected(es: seq<Entry>, ids: seq<string>, t: Token, rest: seq<Token>)
    requires Valid(es, None)
    requires CurrentField(es, None) == Some(ScrollIdField)
    requires !t.Value? && t != EndArray
    ensures ParseBody([StartObject] + RenderEntries(es) + ([StartArray] + Values(ids) + [t]) + rest)
         == Failure(InvalidArrayElement)
  {
    ParseBodyMatchesGrammar(es, BadElement(ids, t), rest);
  }

  /** A direct `scroll_id` value that is neither an array nor a value (an
      object start or a stray array end) fails the whole body. */
  lemma ScrollIdElementRejected(es: seq<Entry>, t: Token, rest: seq<Token>)
    requires Valid(es, None)
    requires CurrentField(es, None) == Some(ScrollIdField)
    requires t == StartObject || t == EndArray
    ensures ParseBody([StartObject] + RenderEntries(es) + [t] + rest) == Failure(InvalidScrollIdElement)
  {
    ParseBodyMatchesGrammar(es, BadScalar(t), rest);
  }

  /** A body cut off before its object end fails: for want of a `scroll_id`
      value when one is expected, otherwise with the unknown-parameter error
      reporting no token. */
  lemma TruncatedBodyRejected(es: seq<Entry>, ids: seq<string>)
    requires Valid(es, None)
    ensures ParseBody([StartObject] + RenderEntries(es))
         == if CurrentField(es, None) == Some(ScrollIdField) then Failure(UnexpectedEndOfContent)
            else Failure(UnknownParameter(CurrentField(es, None), None))
    ensures CurrentField(es, None) == Some(ScrollIdField) ==>
              (ParseBody([StartObject] + RenderEntries(es) + ([StartArray] + Values(ids)))
               == Failure(UnexpectedEndOfContent))
  {
    ParseBodyMatchesGrammar(es, Truncated, []);
    assert Shape(es, Truncated) + [] == [StartObject] + RenderEntries(es);
    if CurrentField(es, None) == Some(ScrollIdField) {
      ParseBodyMatchesGrammar(es, TruncatedArray(ids), []);
      assert Shape(es, TruncatedArray(ids)) + [] == [StartObject] + RenderEntries(es) + ([StartArray] + Values(ids));
    }
  }
}
