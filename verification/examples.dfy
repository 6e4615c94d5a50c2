/** Worked examples of the clear-scroll action on concrete requests. Bodies
    are written token by token, or as their grammar entries. */
module Examples {
  import opened Wrappers
  import opened Tokens
  import opened BodyParser
  import opened BodyGrammar
  import opened BodyProperties
  import opened ClearScrollAction

  /** {"scroll_id":["x","y","z"]} names x, y and z, in that order. */
  lemma ArrayBodyExample()
    ensures ParseBody([StartObject, FieldName("scroll_id"), StartArray, Value("x"), Value("y"), Value("z"), EndArray, EndObject])
         == Success(["x", "y", "z"])
  {
    var es := [Field("scroll_id"), List(["x", "y", "z"])];
    assert es[1..] == [List(["x", "y", "z"])];
    assert es[1..][1..] == [];
    assert Ids(es[1..]) == ["x", "y", "z"] + [];
    assert Ids(es) == [] + (["x", "y", "z"] + []);
    assert Ids(es) == ["x", "y", "z"];
    assert Valid(es, None);
    assert Values(["x", "y", "z"]) == [Value("x"), Value("y"), Value("z")];
    assert Render(es) + []
        == [StartObject, FieldName("scroll_id"), StartArray, Value("x"), Value("y"), Value("z"), EndArray, EndObject];
    ParseBodyStopsAtObjectEnd(es, []);
  }

  /** {"other_field":"x"} is rejected as an unknown parameter. */
  lemma UnknownFieldExample()
    ensures ParseBody([StartObject, FieldName("other_field"), Value("x"), EndObject])
         == Failure(UnknownParameter(Some("other_field"), Some(Value("x"))))
  {
  }

  /** {"scroll_id":["x",{"nested":1}]} is rejected for its object element;
      the x read before it is not returned. */
  lemma NestedObjectInArrayExample()
    ensures ParseBody([StartObject, FieldName("scroll_id"), StartArray, Value("x"), StartObject, FieldName("nested"), Value("1"),
                       EndObject, EndArray, EndObject])
         == Failure(InvalidArrayElement)
  {
  }

  /** {"scroll_id":{"nested":1}} is rejected: an object is neither a value
      nor an array. */
  lemma ObjectValueExample()
    ensures ParseBody([StartObject, FieldName("scroll_id"), StartObject, FieldName("nested"), Value("1"), EndObject, EndObject])
         == Failure(InvalidScrollIdElement)
  {
  }

  /** With parameter "a,b" and body {"scroll_id":"x"} the request names only x. */
  lemma BodyOverridesParameterExample(splitByComma: string -> seq<string>)
    ensures PrepareRequest(Some("a,b"), Some([StartObject, FieldName("scroll_id"), Value("x"), EndObject]), splitByComma)
         == Success(ClearScrollRequest(["x"]))
  {
    var es := [Field("scroll_id"), Scalar("x")];
    assert es[1..] == [Scalar("x")];
    assert es[1..][1..] == [];
    assert Ids(es[1..]) == ["x"] + [];
    assert Ids(es) == ["x"];
    assert Render(es) + [] == [StartObject, FieldName("scroll_id"), Value("x"), EndObject];
    BodyIdsReplaceParameter(Some("a,b"), es, [], splitByComma);
  }

  /** With parameter "a,b" and the empty body {} the request names nothing:
      the body's presence alone discards the parameter. */
  lemma EmptyBodyExample(splitByComma: string -> seq<string>)
    ensures PrepareRequest(Some("a,b"), Some([StartObject, EndObject]), splitByComma) == Success(ClearScrollRequest([]))
  {
  }
}
