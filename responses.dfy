/**
 * `_normalize_http_result`: what the HTTP handler turns a controller
 * method's return value into. JSON serialisation itself is not modelled; a
 * JSON response is the content, status and headers it is built from.
 */
module Responses {
  import opened Objects

  /** A `Response` returned as it is, or a `JSONResponse(content, status_code, headers)`. */
  datatype Response = Passthrough(id: nat) | Json(content: Value, status: Value, headers: Value)

  const DefaultStatus := IntVal(200)

  /** `v.model_dump()` for an object that has one, `v` otherwise. */
  function Dumped(v: Value): (r: Value)
    ensures !r.ModelVal?
    ensures !v.ModelVal? ==> r == v
  {
    if v.ModelVal? then DictVal(v.dump) else v
  }

  function Normalize(result: Value): (r: Response)
    // a `Response` passes through as the very same object, and only a `Response` does
    ensures r.Passthrough? <==> result.ResponseVal?
    ensures r.Passthrough? ==> r.id == result.id
    // the JSON content is never a model: models are dumped first, on both paths
    ensures r.Json? ==> !r.content.ModelVal?
    // a 2- or 3-tuple is (content, status[, headers]); headers are `None` for a pair
    ensures result.TupleVal? && |result.items| in {2, 3} ==>
              r == Json(Dumped(result.items[0]), result.items[1],
                        if |result.items| == 3 then result.items[2] else NoneVal)
    // everything else, tuples of other lengths included, is the content itself with status 200
    ensures !result.ResponseVal? && !(result.TupleVal? && |result.items| in {2, 3}) ==>
              r == Json(Dumped(result), DefaultStatus, NoneVal)
  {
    if result.ResponseVal? then Passthrough(result.id)
    else if result.TupleVal? && (|result.items| == 2 || |result.items| == 3) then
      var content, status := result.items[0], result.items[1];
      var headers := if |result.items| == 3 then result.items[2] else NoneVal;
      Json(Dumped(content), status, headers)
    else Json(Dumped(result), DefaultStatus, NoneVal)
  }

  /** The return value a controller method would write to get response `r`. */
  function Encode(r: Response): Value
  {
    match r
    case Passthrough(id) => ResponseVal(id)
    case Json(content, status, headers) =>
      if headers == NoneVal then TupleVal([content, status]) else TupleVal([content, status, headers])
  }

  /**
   * Every response whose content is not a model can be asked for: returning
   * its tuple (or the `Response` itself) normalises to exactly it.
   */
  lemma NormalizeEncode(r: Response)
    requires r.Json? ==> !r.content.ModelVal?
    ensures Normalize(Encode(r)) == r
  {
  }

  /** Normalising is stable: a response's content, re-returned on its own, keeps it as content. */
  lemma NormalizeContentAgain(result: Value)
    requires !result.ResponseVal? && !result.TupleVal?
    ensures var r := Normalize(result);
            Normalize(r.content) == r
  {
  }

  /** A model returned inside a tuple and on its own is dumped the same way. */
  lemma ModelDumpedOnBothPaths(dump: map<string, Value>, status: Value)
    ensures Normalize(TupleVal([ModelVal(dump), status])).content
         == Normalize(ModelVal(dump)).content
         == DictVal(dump)
  {
  }

  /** A 1-tuple or a 4-tuple is not read as (content, status): it becomes the content, with status 200. */
  lemma OtherTuplesAreContent(a: Value, b: Value, c: Value, d: Value)
    ensures Normalize(TupleVal([a])) == Json(TupleVal([a]), DefaultStatus, NoneVal)
    ensures Normalize(TupleVal([a, b, c, d])) == Json(TupleVal([a, b, c, d]), DefaultStatus, NoneVal)
  {
  }
}
