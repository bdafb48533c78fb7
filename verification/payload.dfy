/**
 * The request body that `call_gemini_api` posts on every attempt: one user
 * turn holding the prompt and the inlined JPEG image, and a generation
 * configuration that asks for a JSON answer shaped by a response schema.
 */
module Payload {

  import opened PyJson

  /** A schema node `{"type": t}` for a scalar type. */
  function Scalar(t: string): Json
  {
    JObj(map["type" := JStr(t)])
  }

  /** The declared shape of the answer: an ARRAY of OBJECTs {food_item: STRING, calories: NUMBER}. */
  const ResponseSchema: Json := JObj(map["type" := JStr("ARRAY"), "items" := EstimateSchema])

  /** The declared shape of one element of the answer. */
  const EstimateSchema: Json := JObj(map["type" := JStr("OBJECT"), "properties" := EstimateProperties])

  const EstimateProperties: Json := JObj(map["food_item" := Scalar("STRING"), "calories" := Scalar("NUMBER")])

  /** Lookup paths into the request body. */
  const ContentsPath: seq<Key> := [Name("contents")]
  const PartsPath: seq<Key> := [Name("contents"), Pos(0), Name("parts")]
  const PromptPath: seq<Key> := [Name("contents"), Pos(0), Name("parts"), Pos(0), Name("text")]
  const MimeTypePath: seq<Key> :=
    [Name("contents"), Pos(0), Name("parts"), Pos(1), Name("inlineData"), Name("mimeType")]
  const ImagePath: seq<Key> :=
    [Name("contents"), Pos(0), Name("parts"), Pos(1), Name("inlineData"), Name("data")]

  /** The number of elements of the array found at `path`, if it is an array. */
  function LengthAt(x: Json, path: seq<Key>): (n: int)
  {
    match Path(x, path)
    case Found(JArr(items)) => |items|
    case _ => -1
  }

  /** The request body for a prompt and a base64-encoded JPEG image. */
  function Build(prompt: string, imageData: string): Json
  {
    JObj(map["contents" := JArr([UserTurn(prompt, imageData)]), "generationConfig" := GenerationConfig()])
  }

  /** The one user turn: its role and its two parts. */
  function UserTurn(prompt: string, imageData: string): Json
  {
    JObj(map["role" := JStr("user"), "parts" := JArr([TextPart(prompt), ImagePart(imageData)])])
  }

  function TextPart(prompt: string): Json
  {
    JObj(map["text" := JStr(prompt)])
  }

  function ImagePart(imageData: string): Json
  {
    JObj(map["inlineData" := JObj(map["mimeType" := JStr("image/jpeg"), "data" := JStr(imageData)])])
  }

  function GenerationConfig(): Json
  {
    JObj(map["responseMimeType" := JStr("application/json"), "responseSchema" := ResponseSchema])
  }

  /**
   * What a reader of the request body finds: exactly one user turn with
   * exactly two parts, the prompt text verbatim first and the JPEG image data
   * verbatim second, and a configuration asking for JSON shaped by
   * `ResponseSchema`.
   */
  lemma BuildLayout(prompt: string, imageData: string)
    ensures var body := Build(prompt, imageData);
      && body.JObj? && body.fields.Keys == {"contents", "generationConfig"}
      && LengthAt(body, ContentsPath) == 1
      && Path(body, [Name("contents"), Pos(0), Name("role")]) == Found(JStr("user"))
      && LengthAt(body, PartsPath) == 2
      && Path(body, PromptPath) == Found(JStr(prompt))
      && Path(body, MimeTypePath) == Found(JStr("image/jpeg"))
      && Path(body, ImagePath) == Found(JStr(imageData))
      && Path(body, [Name("generationConfig"), Name("responseMimeType")]) == Found(JStr("application/json"))
      && Path(body, [Name("generationConfig"), Name("responseSchema")]) == Found(ResponseSchema)
  {
    BuildTurn(prompt, imageData);
    BuildParts(prompt, imageData);
    BuildConfig(prompt, imageData);
  }

  /** The body's single user turn and its two parts. */
  lemma BuildTurn(prompt: string, imageData: string)
    ensures var body := Build(prompt, imageData);
      && body.JObj? && body.fields.Keys == {"contents", "generationConfig"}
      && LengthAt(body, ContentsPath) == 1
      && Path(body, [Name("contents"), Pos(0), Name("role")]) == Found(JStr("user"))
      && LengthAt(body, PartsPath) == 2
  {
    var body := Build(prompt, imageData);
    var turn := UserTurn(prompt, imageData);
    assert Subscript(body, Name("contents")) == Found(JArr([turn]));
    calc {
      Path(body, [Name("contents"), Pos(0), Name("role")]);
      Path(JArr([turn]), [Pos(0), Name("role")]);
      Path(turn, [Name("role")]);
    }
    assert Subscript(turn, Name("parts")) == Found(JArr([TextPart(prompt), ImagePart(imageData)]));
    IntoParts(body, turn, JArr([TextPart(prompt), ImagePart(imageData)]), []);
  }

  /** The prompt and the image data, each found verbatim where the backend reads it. */
  lemma BuildParts(prompt: string, imageData: string)
    ensures var body := Build(prompt, imageData);
      && Path(body, PromptPath) == Found(JStr(prompt))
      && Path(body, MimeTypePath) == Found(JStr("image/jpeg"))
      && Path(body, ImagePath) == Found(JStr(imageData))
  {
    var body := Build(prompt, imageData);
    var turn := UserTurn(prompt, imageData);
    var parts := JArr([TextPart(prompt), ImagePart(imageData)]);
    assert Subscript(body, Name("contents")) == Found(JArr([turn]));
    assert Subscript(turn, Name("parts")) == Found(parts);
    PartsLookups(prompt, imageData);
    IntoParts(body, turn, parts, [Pos(0), Name("text")]);
    IntoParts(body, turn, parts, [Pos(1), Name("inlineData"), Name("mimeType")]);
    IntoParts(body, turn, parts, [Pos(1), Name("inlineData"), Name("data")]);
  }

  /** The generation configuration: a JSON answer shaped by `ResponseSchema`. */
  lemma BuildConfig(prompt: string, imageData: string)
    ensures var body := Build(prompt, imageData);
      && Path(body, [Name("generationConfig"), Name("responseMimeType")]) == Found(JStr("application/json"))
      && Path(body, [Name("generationConfig"), Name("responseSchema")]) == Found(ResponseSchema)
  {
    var body := Build(prompt, imageData);
    calc {
      Path(body, [Name("generationConfig"), Name("responseSchema")]);
      Path(GenerationConfig(), [Name("responseSchema")]);
    }
    calc {
      Path(body, [Name("generationConfig"), Name("responseMimeType")]);
      Path(GenerationConfig(), [Name("responseMimeType")]);
    }
  }

  /** The parts of the user turn: the prompt text first, then the inlined image. */
  lemma PartsLookups(prompt: string, imageData: string)
    ensures var parts := JArr([TextPart(prompt), ImagePart(imageData)]);
      && Path(parts, [Pos(0), Name("text")]) == Found(JStr(prompt))
      && Path(parts, [Pos(1), Name("inlineData"), Name("mimeType")]) == Found(JStr("image/jpeg"))
      && Path(parts, [Pos(1), Name("inlineData"), Name("data")]) == Found(JStr(imageData))
  {
    var parts := JArr([TextPart(prompt), ImagePart(imageData)]);
    var inline := JObj(map["mimeType" := JStr("image/jpeg"), "data" := JStr(imageData)]);
    calc {
      Path(parts, [Pos(0), Name("text")]);
      Path(TextPart(prompt), [Name("text")]);
    }
    calc {
      Path(parts, [Pos(1), Name("inlineData"), Name("mimeType")]);
      Path(ImagePart(imageData), [Name("inlineData"), Name("mimeType")]);
      Path(inline, [Name("mimeType")]);
    }
    calc {
      Path(parts, [Pos(1), Name("inlineData"), Name("data")]);
      Path(ImagePart(imageData), [Name("inlineData"), Name("data")]);
      Path(inline, [Name("data")]);
    }
  }

  /** Looking below `contents[0].parts` is looking into the parts list. */
  lemma IntoParts(body: Json, turn: Json, parts: Json, rest: seq<Key>)
    requires Subscript(body, Name("contents")) == Found(JArr([turn]))
    requires Subscript(turn, Name("parts")) == Found(parts)
    ensures Path(body, PartsPath + rest) == Path(parts, rest)
  {
    var p := PartsPath + rest;
    calc {
      Path(body, p);
      { assert p[0] == Name("contents"); }
      Path(JArr([turn]), p[1..]);
      { assert p[1..][0] == Pos(0); }
      Path(turn, p[2..]);
      { assert p[2..][0] == Name("parts"); }
      Path(parts, p[3..]);
      { assert p[3..] == rest; }
      Path(parts, rest);
    }
  }

  /** The request body carries the prompt and the image verbatim: distinct inputs give distinct bodies. */
  lemma BuildInjective(p1: string, d1: string, p2: string, d2: string)
    ensures Build(p1, d1) == Build(p2, d2) <==> p1 == p2 && d1 == d2
  {
    if Build(p1, d1) == Build(p2, d2) {
      BuildLayout(p1, d1);
      BuildLayout(p2, d2);
      assert Path(Build(p1, d1), PromptPath) == Path(Build(p2, d2), PromptPath);
      assert Path(Build(p1, d1), ImagePath) == Path(Build(p2, d2), ImagePath);
    }
  }

  /**
   * Whether `v` has the shape a schema node describes, reading the node the
   * way the inference backend is asked to: ARRAY constrains every element by
   * "items", OBJECT constrains each present property listed in "properties"
   * (no property is declared required), STRING and NUMBER fix the scalar kind.
   * `depth` bounds the nesting of the schema.
   */
  predicate Admits(schema: Json, v: Json, depth: nat)
    decreases depth
  {
    var kind := TypeName(schema);
    if kind == "STRING" then v.JStr?
    else if kind == "NUMBER" then v.JNum?
    else if kind == "ARRAY" then
      depth > 0 && v.JArr? &&
      (match Subscript(schema, Name("items"))
       case Found(element) => forall i :: 0 <= i < |v.items| ==> Admits(element, v.items[i], depth - 1)
       case _ => false)
    else if kind == "OBJECT" then
      depth > 0 && v.JObj? &&
      (match Subscript(schema, Name("properties"))
       case Found(JObj(properties)) =>
         forall k :: k in v.fields && k in properties ==> Admits(properties[k], v.fields[k], depth - 1)
       case _ => false)
    else false
  }

  /** The "type" a schema node declares, or "" when it declares none. */
  function TypeName(schema: Json): string
  {
    match Subscript(schema, Name("type"))
    case Found(JStr(t)) => t
    case _ => ""
  }

  /** The nesting depth of `ResponseSchema`. */
  const SchemaDepth: nat := 2

  /**
   * An element the response schema admits: an object whose `food_item`,
   * when present, is a string and whose `calories`, when present, is a number.
   */
  lemma AdmitsEstimate(v: Json)
    ensures Admits(EstimateSchema, v, SchemaDepth - 1) <==>
      v.JObj? &&
      ("food_item" in v.fields ==> v.fields["food_item"].JStr?) &&
      ("calories" in v.fields ==> v.fields["calories"].JNum?)
  {
    assert TypeName(EstimateSchema) == "OBJECT";
    assert Subscript(EstimateSchema, Name("properties")) == Found(EstimateProperties);
    assert TypeName(Scalar("STRING")) == "STRING";
    assert TypeName(Scalar("NUMBER")) == "NUMBER";
  }

  /** The schema admits an array of values exactly when it admits each of them as an estimate. */
  lemma AdmitsElementwise(items: seq<Json>)
    ensures Admits(ResponseSchema, JArr(items), SchemaDepth) <==>
      forall i :: 0 <= i < |items| ==> Admits(EstimateSchema, items[i], SchemaDepth - 1)
  {
    assert TypeName(ResponseSchema) == "ARRAY";
    assert Subscript(ResponseSchema, Name("items")) == Found(EstimateSchema);
  }
}
