/**
 The `POST /generate_chart` handler: read the five trait scores from the JSON
 body in trait order (missing keys default to 0), reject the request with 400
 unless every score is numeric, otherwise build the chart and return it as a
 PNG; any exception on the way becomes a 500 carrying the exception's message.

 The HTTP layer and the renderer are outside the model: the body arrives
 already parsed (or as the exception parsing raised), and rendering is a
 parameter that either yields PNG bytes or raises.
 */
module ChartApi {
  import opened PyJson
  import opened Traits
  import opened Geometry

  /** What `request.json` produced: a decoded body, or the exception raised
      while reading it (wrong content type, malformed JSON). */
  datatype Request = JsonBody(body: Json) | BodyError(message: string)

  /** The outcome of drawing and encoding a chart: PNG bytes, or an exception
      with its message. */
  datatype Rendering = Rendered(png: seq<bv8>) | Raised(message: string)

  /** `send_file(..., mimetype=...)`, or `jsonify({'error': error})` with an
      HTTP status. */
  datatype Response = PngFile(png: seq<bv8>, mimetype: string) | ErrorJson(status: nat, error: string)

  const NOT_NUMERIC: string := "All values must be numeric"
  const PNG_MIME: string := "image/png"
  const NO_GET_SUFFIX: string := "' object has no attribute 'get'"

  /** The message of the AttributeError raised by `data.get` on a body that is
      not a dict. The Python type name can be read back from between the
      opening quote and the fixed suffix. */
  function NoGetMessage(v: Json): (m: string)
    ensures |m| == |TypeName(v)| + 1 + |NO_GET_SUFFIX|
    ensures m[0] == '\'' && m[1..|m| - |NO_GET_SUFFIX|] == TypeName(v)
    ensures m[|m| - |NO_GET_SUFFIX|..] == NO_GET_SUFFIX
  {
    "'" + TypeName(v) + NO_GET_SUFFIX
  }

  /** `[data.get(k, 0) for k in keys]`: one score per key, in key order. */
  function Extract(fields: map<string, Json>, keys: seq<string>): (scores: seq<Json>)
    ensures |scores| == |keys|
    ensures forall i :: 0 <= i < |keys| && keys[i] in fields ==> scores[i] == fields[keys[i]]
    ensures forall i :: 0 <= i < |keys| && keys[i] !in fields ==> scores[i] == JInt(0)
  {
    if |keys| == 0 then [] else [Get(fields, keys[0], JInt(0))] + Extract(fields, keys[1..])
  }

  /** The five scores of a body, in trait order: score i is the value of
      trait i when present and 0 otherwise. */
  function Scores(fields: map<string, Json>): (scores: seq<Json>)
    ensures |scores| == 5
    ensures forall i :: 0 <= i < 5 && TRAITS[i] in fields ==> scores[i] == fields[TRAITS[i]]
    ensures forall i :: 0 <= i < 5 && TRAITS[i] !in fields ==> scores[i] == JInt(0)
  {
    Extract(fields, TRAITS)
  }

  /** `all(isinstance(s, (int, float)) for s in scores)`. */
  function AllNumeric(scores: seq<Json>): (ok: bool)
    ensures ok <==> forall i :: 0 <= i < |scores| ==> IsNumeric(scores[i])
  {
    |scores| == 0 || (IsNumeric(scores[0]) && AllNumeric(scores[1..]))
  }

  /** The handler. */
  function GenerateChart(req: Request, render: Chart<Json> -> Rendering): (r: Response)
    ensures r.PngFile? ==> r.mimetype == PNG_MIME
    ensures r.ErrorJson? ==> r.status == 400 || r.status == 500
    ensures r.ErrorJson? && r.status == 400 ==> r.error == NOT_NUMERIC
    ensures req.BodyError? ==> r == ErrorJson(500, req.message)
  {
    match req
    case BodyError(msg) => ErrorJson(500, msg)
    case JsonBody(data) =>
      if !data.JObj? then
        ErrorJson(500, NoGetMessage(data))
      else
        var scores := Scores(data.fields);
        if !AllNumeric(scores) then
          ErrorJson(400, NOT_NUMERIC)
        else
          match render(BuildChart(scores))
          case Rendered(png) => PngFile(png, PNG_MIME)
          case Raised(msg) => ErrorJson(500, msg)
  }

  // ---------------------------------------------------------------------
  // Properties of extraction

  /** The scores are exactly the literal list the handler builds: one
      `data.get(trait, 0)` per trait, Extraversion first and Openness last. */
  lemma ScoresFollowTraitOrder(fields: map<string, Json>)
    ensures Scores(fields) == [
      Get(fields, "Extraversion", JInt(0)),
      Get(fields, "Agreeableness", JInt(0)),
      Get(fields, "Conscientiousness", JInt(0)),
      Get(fields, "Neuroticism", JInt(0)),
      Get(fields, "Openness", JInt(0))]
  {
  }

  /** Two bodies that agree on the five traits, where a missing trait counts
      as 0, get the same response: extra keys are ignored and a missing key is
      the same as an explicit 0. */
  lemma OnlyTraitsMatter(f1: map<string, Json>, f2: map<string, Json>, render: Chart<Json> -> Rendering)
    requires forall k :: k in TRAITS ==> Get(f1, k, JInt(0)) == Get(f2, k, JInt(0))
    ensures GenerateChart(JsonBody(JObj(f1)), render) == GenerateChart(JsonBody(JObj(f2)), render)
  {
    assert Scores(f1) == Scores(f2) by {
      forall i | 0 <= i < |TRAITS|
        ensures Scores(f1)[i] == Scores(f2)[i]
      {
        assert TRAITS[i] in TRAITS;
      }
    }
  }

  /** A body naming only Openness is answered exactly like one naming all
      five traits with the other four at 0. */
  lemma MissingTraitsDefaultToZero(render: Chart<Json> -> Rendering)
    ensures Scores(map["Openness" := JInt(5)]) == [JInt(0), JInt(0), JInt(0), JInt(0), JInt(5)]
    ensures GenerateChart(JsonBody(JObj(map["Openness" := JInt(5)])), render)
         == GenerateChart(JsonBody(JObj(map[
              "Extraversion" := JInt(0), "Agreeableness" := JInt(0),
              "Conscientiousness" := JInt(0), "Neuroticism" := JInt(0),
              "Openness" := JInt(5)])), render)
  {
    var f1 := map["Openness" := JInt(5)];
    var f2 := map[
      "Extraversion" := JInt(0), "Agreeableness" := JInt(0),
      "Conscientiousness" := JInt(0), "Neuroticism" := JInt(0),
      "Openness" := JInt(5)];
    TraitsAreFiveDistinct();
    ScoresFollowTraitOrder(f1);
    OnlyTraitsMatter(f1, f2, render);
  }

  // ---------------------------------------------------------------------
  // Properties of the handler's outcomes

  /** A body is rejected as non-numeric exactly when it is an object in which
      some trait is present with a value that is not an int, float or bool. */
  lemma RejectedIffSomeTraitNotNumeric(req: Request, render: Chart<Json> -> Rendering)
    ensures GenerateChart(req, render) == ErrorJson(400, NOT_NUMERIC)
        <==> (&& req.JsonBody? && req.body.JObj?
              && exists k :: k in TRAITS && k in req.body.fields && !IsNumeric(req.body.fields[k]))
  {
  }

  /** A rejected request never reaches the renderer: its response is the same
      whatever the renderer would have done. */
  lemma RejectionIgnoresRenderer(req: Request, render1: Chart<Json> -> Rendering, render2: Chart<Json> -> Rendering)
    requires GenerateChart(req, render1).ErrorJson? && GenerateChart(req, render1).status == 400
    ensures GenerateChart(req, render2) == ErrorJson(400, NOT_NUMERIC)
  {
  }

  /** Booleans are accepted as scores: a body whose values are all booleans is
      never rejected, and is answered with whatever rendering its chart gives. */
  lemma BooleansAreAccepted(fields: map<string, Json>, render: Chart<Json> -> Rendering)
    requires forall k :: k in fields ==> fields[k].JBool?
    ensures GenerateChart(JsonBody(JObj(fields)), render) != ErrorJson(400, NOT_NUMERIC)
    ensures render(BuildChart(Scores(fields))).Rendered? ==>
      GenerateChart(JsonBody(JObj(fields)), render) == PngFile(render(BuildChart(Scores(fields))).png, PNG_MIME)
  {
    RejectedIffSomeTraitNotNumeric(JsonBody(JObj(fields)), render);
  }

  /** A PNG comes back exactly when the body is an object whose present traits
      are all numeric and the renderer succeeds on the chart of the five
      scores; the bytes are the renderer's, with the PNG mimetype. That chart
      is closed: six radii, the five scores in trait order followed by the
      first one again, paired one to one with the slots 0, 1, 2, 3, 4, 0. */
  lemma ChartIffValidAndRendered(req: Request, render: Chart<Json> -> Rendering)
    ensures GenerateChart(req, render).PngFile?
        <==> (&& req.JsonBody? && req.body.JObj?
              && (forall k :: k in TRAITS && k in req.body.fields ==> IsNumeric(req.body.fields[k]))
              && render(BuildChart(Scores(req.body.fields))).Rendered?)
    ensures GenerateChart(req, render).PngFile? ==>
      var s := Scores(req.body.fields);
      var c := BuildChart(s);
      && GenerateChart(req, render) == PngFile(render(c).png, PNG_MIME)
      && |c.radii| == |c.angles| == 6
      && c.radii == s + [s[0]]
  {
  }

  /** Every exception is reported as a 500 with its message: one raised while
      reading the body, the AttributeError of `data.get` on a non-object body,
      or one raised while rendering. Nothing else yields a 500. */
  lemma ServerErrorIffException(req: Request, render: Chart<Json> -> Rendering, msg: string)
    ensures GenerateChart(req, render) == ErrorJson(500, msg)
        <==> (|| req == BodyError(msg)
              || (req.JsonBody? && !req.body.JObj? && msg == NoGetMessage(req.body))
              || (&& req.JsonBody? && req.body.JObj?
                  && AllNumeric(Scores(req.body.fields))
                  && render(BuildChart(Scores(req.body.fields))) == Raised(msg)))
  {
  }

  /** A body that is not an object is never treated as scores: `null`, a list,
      a string, a number or a boolean all fail on `data.get`, whose message
      names the Python type. */
  lemma NonObjectBodyIsServerError(v: Json, render: Chart<Json> -> Rendering)
    requires !v.JObj?
    ensures GenerateChart(JsonBody(v), render) == ErrorJson(500, NoGetMessage(v))
  {
  }

  /** The commonest failing body, JSON `null`, gets exactly the message
      Python prints for `None.get`. */
  lemma NullBodyMessage(render: Chart<Json> -> Rendering)
    ensures GenerateChart(JsonBody(JNull), render)
         == ErrorJson(500, "'NoneType' object has no attribute 'get'")
  {
    var m := NoGetMessage(JNull);
    var expected := "'NoneType' object has no attribute 'get'";
    assert TypeName(JNull) == "NoneType";
    assert m[..9] == "'NoneType" == expected[..9];
    assert m[9..] == NO_GET_SUFFIX == expected[9..];
    assert m == m[..9] + m[9..];
    assert expected == expected[..9] + expected[9..];
  }
}
