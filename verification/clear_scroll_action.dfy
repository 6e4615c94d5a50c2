/**
  The clear-scroll REST action's request preparation: the scroll ids come
  from the comma-separated `scroll_id` request parameter, unless the request
  carries a body, in which case they come from the body alone.
 */
module ClearScrollAction {
  import opened Wrappers
  import opened Tokens
  import opened BodyParser
  import opened BodyGrammar
  import opened BodyProperties

  /** The request handed on to the scroll-release action: the ids of the
      scrolls to release, in the order given, duplicates kept. */
  datatype ClearScrollRequest = ClearScrollRequest(scrollIds: seq<string>)

  /** The ids named by the `scroll_id` parameter. An absent parameter names
      none; a present one is cut at commas by `splitByComma`, the shared
      string splitter, which this model leaves uninterpreted. */
  function SplitScrollIds(param: Option<string>, splitByComma: string -> seq<string>): (ids: seq<string>)
    ensures param.None? ==> ids == []
    ensures param.Some? ==> ids == splitByComma(param.value)
  {
    match param
    case None => []
    case Some(s) => splitByComma(s)
  }

  /** Builds the request from the parameter and, when the request has one,
      the body's tokens. The parameter's ids are set first; a body discards
      them and the request holds exactly the body's ids, even none; a body
      that fails to parse yields its error and no request. */
  function PrepareRequest(param: Option<string>, body: Option<seq<Token>>, splitByComma: string -> seq<string>)
    : (r: Result<ClearScrollRequest, ParseError>)
    ensures body.None? ==> r == Success(ClearScrollRequest(SplitScrollIds(param, splitByComma)))
    ensures body.Some? ==> (r.Success? <==> ParseBody(body.value).Success?)
    ensures body.Some? && r.Success? ==> r.value.scrollIds == ParseBody(body.value).value
    ensures body.Some? && r.Failure? ==> r.error == ParseBody(body.value).error
  {
    var request := ClearScrollRequest(SplitScrollIds(param, splitByComma));
    match body
    case None => Success(request)
    case Some(toks) =>
      var cleared := request.(scrollIds := []);
      var ids :- ParseBody(toks);
      Success(cleared.(scrollIds := cleared.scrollIds + ids))
  }

  /** When a body is present the parameter does not matter at all. */
  lemma BodyOverridesParameter(param1: Option<string>, param2: Option<string>, toks: seq<Token>,
                               split1: string -> seq<string>, split2: string -> seq<string>)
    ensures PrepareRequest(param1, Some(toks), split1) == PrepareRequest(param2, Some(toks), split2)
  {
  }

  /** A body of valid entries yields exactly its ids, replacing the
      parameter's, even when it names none (an empty object, say). */
  lemma BodyIdsReplaceParameter(param: Option<string>, es: seq<Entry>, rest: seq<Token>, splitByComma: string -> seq<string>)
    requires Valid(es, None)
    ensures PrepareRequest(param, Some(Render(es) + rest), splitByComma) == Success(ClearScrollRequest(Ids(es)))
  {
    ParseBodyStopsAtObjectEnd(es, rest);
  }
}
