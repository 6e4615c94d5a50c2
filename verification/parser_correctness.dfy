/**
  The body parser agrees with the body grammar: every token stream that
  starts an object is valid entries followed by an ending (and possibly
  more tokens), and the parser's outcome on it is the one the grammar
  assigns; conversely every grammatical stream parses to that outcome,
  whatever follows a closed or failing ending.
 */
module ParserCorrectness {
  import opened Wrappers
  import opened Tokens
  import opened BodyParser
  import opened BodyGrammar

  lemma ConcatAssoc(a: seq<Token>, b: seq<Token>, c: seq<Token>)
    ensures a + b + c == a + (b + c)
  {
  }

  /** Reading value tokens inside the `scroll_id` array appends their texts. */
  lemma {:induction false} RunOverValues(ids: seq<string>, rest: seq<Token>, acc: seq<string>)
    ensures Run(Values(ids) + rest, InScrollIdArray, acc) == Run(rest, InScrollIdArray, acc + ids)
    decreases |ids|
  {
    var toks := Values(ids) + rest;
    if |ids| == 0 {
      assert toks == rest;
      assert acc + ids == acc;
    } else {
      assert toks[0] == Value(ids[0]);
      assert toks[1..] == Values(ids[1..]) + rest;
      RunOverValues(ids[1..], rest, acc + [ids[0]]);
      assert acc + [ids[0]] + ids[1..] == acc + ids;
    }
  }

  /** The longest run of value tokens at the front of `toks`, and the array
      state after it. */
  lemma {:induction false} ValuesRun(toks: seq<Token>, acc: seq<string>) returns (ids: seq<string>, rest: seq<Token>)
    ensures toks == Values(ids) + rest
    ensures |rest| > 0 ==> !rest[0].Value?
    ensures Run(toks, InScrollIdArray, acc) == Run(rest, InScrollIdArray, acc + ids)
    decreases |toks|
  {
    if |toks| == 0 || !toks[0].Value? {
      ids, rest := [], toks;
      assert acc + ids == acc;
    } else {
      var t := toks[0];
      var more;
      more, rest := ValuesRun(toks[1..], acc + [t.text]);
      ids := [t.text] + more;
      assert Values(ids) == [t] + Values(more);
      assert toks == [t] + toks[1..];
      assert acc + [t.text] + more == acc + ids;
    }
  }

  /** Reading the tokens of one entry that may appear under `field`. */
  lemma RunOverEntry(e: Entry, rest: seq<Token>, field: Option<string>, acc: seq<string>)
    requires e.Field? || field == Some(ScrollIdField)
    ensures Run(RenderEntry(e) + rest, InObject(field), acc)
         == Run(rest, InObject(Advance(e, field)), acc + EntryIds(e))
  {
    var toks := RenderEntry(e) + rest;
    assert toks[0] == RenderEntry(e)[0];
    match e
    case Field(n) =>
      assert toks[1..] == rest;
      assert acc + EntryIds(e) == acc;
    case Scalar(s) =>
      assert toks[1..] == rest;
    case List(ids) =>
      var closing := [EndArray] + rest;
      assert toks == [StartArray] + (Values(ids) + closing) by {
        ConcatAssoc([StartArray] + Values(ids), [EndArray], rest);
        ConcatAssoc([StartArray], Values(ids), closing);
      }
      calc {
        Run(toks, InObject(field), acc);
        Run(Values(ids) + closing, InScrollIdArray, acc);
        { RunOverValues(ids, closing, acc); }
        Run(closing, InScrollIdArray, acc + ids);
        { assert closing[1..] == rest; }
        Run(rest, InObject(Some(ScrollIdField)), acc + ids);
      }
  }

  /** Reading the tokens of valid entries moves the field and collects their ids. */
  lemma {:induction false} RunOverEntries(es: seq<Entry>, rest: seq<Token>, field: Option<string>, acc: seq<string>)
    requires Valid(es, field)
    ensures Run(RenderEntries(es) + rest, InObject(field), acc)
         == Run(rest, InObject(CurrentField(es, field)), acc + Ids(es))
    decreases |es|
  {
    if |es| == 0 {
      assert RenderEntries(es) + rest == rest;
      assert acc + Ids(es) == acc;
    } else {
      var e, tail := es[0], es[1..];
      var acc' := acc + EntryIds(e);
      calc {
        Run(RenderEntries(es) + rest, InObject(field), acc);
        { ConcatAssoc(RenderEntry(e), RenderEntries(tail), rest); }
        Run(RenderEntry(e) + (RenderEntries(tail) + rest), InObject(field), acc);
        { RunOverEntry(e, RenderEntries(tail) + rest, field, acc); }
        Run(RenderEntries(tail) + rest, InObject(Advance(e, field)), acc');
        { RunOverEntries(tail, rest, Advance(e, field), acc'); }
        Run(rest, InObject(CurrentField(tail, Advance(e, field))), acc' + Ids(tail));
        { assert acc' + Ids(tail) == acc + Ids(es); }
        Run(rest, InObject(CurrentField(es, field)), acc + Ids(es));
      }
    }
  }

  /** Reading an ending right after entries whose current field is `field`. */
  lemma RunOverEnding(ending: Ending, rest: seq<Token>, field: Option<string>, acc: seq<string>)
    requires Allowed(ending, field)
    requires Truncating(ending) ==> rest == []
    ensures Run(EndingTokens(ending) + rest, InObject(field), acc) == Outcome([], ending, field, acc)
  {
    var toks := EndingTokens(ending) + rest;
    assert acc + Ids([]) == acc;
    match ending
    case Closed =>
      assert toks[0] == EndObject;
    case Stray(t) =>
      assert toks[0] == t;
    case BadScalar(t) =>
      assert toks[0] == t;
    case BadElement(ids, t) =>
      assert toks == [StartArray] + (Values(ids) + ([t] + rest)) by {
        ConcatAssoc([StartArray] + Values(ids), [t], rest);
        ConcatAssoc([StartArray], Values(ids), [t] + rest);
      }
      RunOverValues(ids, [t] + rest, acc);
    case Truncated =>
      assert toks == [];
    case TruncatedArray(ids) =>
      assert toks == [StartArray] + (Values(ids) + []);
      RunOverValues(ids, [], acc);
  }

  /** The outcome of entries and an ending is that of the ending alone, read
      with the entries' current field and ids. */
  lemma OutcomeAfterEntries(es: seq<Entry>, ending: Ending, field: Option<string>, acc: seq<string>)
    ensures Outcome(es, ending, field, acc) == Outcome([], ending, CurrentField(es, field), acc + Ids(es))
  {
    assert acc + Ids(es) + Ids([]) == acc + Ids(es);
  }

  /** Completeness: a grammatical body parses to the outcome the grammar
      assigns it, and whatever follows a non-truncating ending is ignored. */
  lemma ParseBodyMatchesGrammar(es: seq<Entry>, ending: Ending, rest: seq<Token>)
    requires Valid(es, None)
    requires Allowed(ending, CurrentField(es, None))
    requires Truncating(ending) ==> rest == []
    ensures ParseBody(Shape(es, ending) + rest) == Expected(es, ending)
  {
    var body, after := RenderEntries(es), EndingTokens(ending) + rest;
    var toks := Shape(es, ending) + rest;
    var current := CurrentField(es, None);
    assert toks == [StartObject] + (body + after) by {
      ConcatAssoc([StartObject] + body, EndingTokens(ending), rest);
      ConcatAssoc([StartObject], body, after);
    }
    calc {
      ParseBody(toks);
      Run(body + after, InObject(None), []);
      { RunOverEntries(es, after, None, []); assert [] + Ids(es) == Ids(es); }
      Run(after, InObject(current), Ids(es));
      { RunOverEnding(ending, rest, current, Ids(es)); }
      Outcome([], ending, current, Ids(es));
      { OutcomeAfterEntries(es, ending, None, []); assert [] + Ids(es) == Ids(es); }
      Expected(es, ending);
    }
  }

  /** Putting one more entry in front of valid entries and an ending. */
  lemma ShapeCons(e: Entry, es: seq<Entry>, ending: Ending, rest: seq<Token>, field: Option<string>)
    requires e.Field? || field == Some(ScrollIdField)
    requires Valid(es, Advance(e, field))
    requires Allowed(ending, CurrentField(es, Advance(e, field)))
    ensures Valid([e] + es, field)
    ensures Allowed(ending, CurrentField([e] + es, field))
    ensures RenderEntry(e) + (RenderEntries(es) + EndingTokens(ending) + rest)
         == RenderEntries([e] + es) + EndingTokens(ending) + rest
  {
  }

  /** The outcome after one more entry in front of a decomposed stream. */
  lemma OutcomeCons(e: Entry, es: seq<Entry>, ending: Ending, toks: seq<Token>, field: Option<string>, acc: seq<string>)
    requires e.Field? || field == Some(ScrollIdField)
    requires Run(toks, InObject(Advance(e, field)), acc + EntryIds(e)) == Outcome(es, ending, Advance(e, field), acc + EntryIds(e))
    ensures Run(RenderEntry(e) + toks, InObject(field), acc) == Outcome([e] + es, ending, field, acc)
  {
    var es' := [e] + es;
    assert es'[0] == e && es'[1..] == es;
    var acc' := acc + EntryIds(e);
    calc {
      Run(RenderEntry(e) + toks, InObject(field), acc);
      { RunOverEntry(e, toks, field, acc); }
      Run(toks, InObject(Advance(e, field)), acc');
      Outcome(es, ending, Advance(e, field), acc');
      { OutcomeAfterEntries(es, ending, Advance(e, field), acc'); }
      Outcome([], ending, CurrentField(es, Advance(e, field)), acc' + Ids(es));
      { assert acc' + Ids(es) == acc + Ids(es'); }
      Outcome([], ending, CurrentField(es', field), acc + Ids(es'));
      { OutcomeAfterEntries(es', ending, field, acc); }
      Outcome(es', ending, field, acc);
    }
  }

  /** Soundness of the state machine inside the object: the tokens are valid
      entries, an ending and whatever the parser did not read, and the run's
      outcome is the one that ending calls for. */
  lemma {:induction false} RunDecompose(toks: seq<Token>, field: Option<string>, acc: seq<string>)
    returns (es: seq<Entry>, ending: Ending, rest: seq<Token>)
    ensures Valid(es, field)
    ensures Allowed(ending, CurrentField(es, field))
    ensures toks == RenderEntries(es) + EndingTokens(ending) + rest
    ensures Truncating(ending) ==> rest == []
    ensures Run(toks, InObject(field), acc) == Outcome(es, ending, field, acc)
    decreases |toks|
  {
    if |toks| == 0 {
      return [], Truncated, [];
    }
    var t := toks[0];
    var next := toks[1..];
    assert toks == [t] + next;
    var e: Entry;
    var suffix: seq<Token>;
    if t == EndObject {
      es, ending, rest := [], Closed, next;
      assert acc + Ids(es) == acc;
      return;
    } else if t.FieldName? {
      e, suffix := Field(t.name), next;
    } else if field != Some(ScrollIdField) {
      es, ending, rest := [], Stray(t), next;
      return;
    } else if t == StartArray {
      var ids, after := ValuesRun(next, acc);
      if |after| == 0 {
        es, ending, rest := [], TruncatedArray(ids), [];
        assert toks == [StartArray] + Values(ids);
        return;
      } else if after[0] != EndArray {
        es, ending, rest := [], BadElement(ids, after[0]), after[1..];
        assert toks == [StartArray] + Values(ids) + [after[0]] + after[1..] by {
          assert after == [after[0]] + after[1..];
          ConcatAssoc([StartArray], Values(ids), after);
          ConcatAssoc([StartArray] + Values(ids), [after[0]], after[1..]);
        }
        return;
      }
      e, suffix := List(ids), after[1..];
      assert toks == RenderEntry(e) + suffix by {
        assert after == [EndArray] + suffix;
        ConcatAssoc([StartArray], Values(ids), after);
        ConcatAssoc([StartArray] + Values(ids), [EndArray], suffix);
      }
    } else if t.Value? {
      e, suffix := Scalar(t.text), next;
    } else {
      es, ending, rest := [], BadScalar(t), next;
      return;
    }
    assert toks == RenderEntry(e) + suffix;
    assert |suffix| < |toks|;
    var es', ending', rest' := RunDecompose(suffix, Advance(e, field), acc + EntryIds(e));
    ShapeCons(e, es', ending', rest', field);
    OutcomeCons(e, es', ending', suffix, field, acc);
    es, ending, rest := [e] + es', ending', rest';
  }

  /** Soundness: every body that starts an object is a grammatical body
      followed by tokens the parser never reads (none when it is cut short),
      and the parser's outcome is the one the grammar assigns. */
  lemma ParseBodyDecomposes(toks: seq<Token>) returns (es: seq<Entry>, ending: Ending, rest: seq<Token>)
    requires |toks| > 0 && toks[0] == StartObject
    ensures Valid(es, None)
    ensures Allowed(ending, CurrentField(es, None))
    ensures toks == Shape(es, ending) + rest
    ensures Truncating(ending) ==> rest == []
    ensures ParseBody(toks) == Expected(es, ending)
  {
    es, ending, rest := RunDecompose(toks[1..], None, []);
    var body, tail := RenderEntries(es), EndingTokens(ending);
    assert toks == [StartObject] + (body + tail + rest);
    ConcatAssoc([StartObject], body + tail, rest);
    ConcatAssoc([StartObject], body, tail);
  }
}
