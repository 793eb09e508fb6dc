/// The request translator of POST /api/restore (server.js:83-115): the
/// instruction chosen by `mode`, the data URL wrapped around the caller's
/// base64 payload, and the job body sent to Qwen-Image-Edit-Plus.

module RequestTranslator {
  import opened JsValues

  const DefaultInstruction: string :=
    "Restore old or low-quality photo, increase sharpness and details, remove noise, keep faces natural and realistic."
  const ColorInstruction: string :=
    "Restore and colorize old black and white photo, keep skin tones and faces natural, do not over-smooth."
  const SuperInstruction: string :=
    "Super-resolution and enhancement for an old or low-quality photo, keep original style and faces natural."

  const DataUrlPrefix: string := "data:image/jpeg;base64,"
  const ModelName: string := "qwen-image-edit-plus"

  /** The fixed `parameters` object of every job. */
  const JobParameters: Json :=
    Obj(map["n" := Num(1.0), "watermark" := Bool(false), "prompt_extend" := Bool(true)])

  /** The instruction for `mode`, compared with `===`: only the strings
      "color" and "super" select their instructions; "auto", a missing mode
      and every other value, string or not, get the default one. */
  function Instruction(mode: Value): (r: string)
    ensures r == ColorInstruction <==> mode == Some(Str("color"))
    ensures r == SuperInstruction <==> mode == Some(Str("super"))
    ensures r == DefaultInstruction <==> mode != Some(Str("color")) && mode != Some(Str("super"))
  {
    if mode == Some(Str("color")) then ColorInstruction
    else if mode == Some(Str("super")) then SuperInstruction
    else DefaultInstruction
  }

  /** The image reference sent upstream: the JPEG data-URI header, then the
      caller's payload unchanged. */
  function DataUrl(image: string): (r: string)
    ensures |r| == |DataUrlPrefix| + |image|
    ensures r[..|DataUrlPrefix|] == DataUrlPrefix
    ensures r[|DataUrlPrefix|..] == image
  {
    DataUrlPrefix + image
  }

  /** The payload of a JPEG data URL, or None when `url` is not one. */
  function PayloadOf(url: string): (r: Option<string>)
    ensures r.Some? <==> DataUrlPrefix <= url
  {
    if DataUrlPrefix <= url then Some(url[|DataUrlPrefix|..]) else None
  }

  lemma DataUrlRoundTrip(image: string)
    ensures PayloadOf(DataUrl(image)) == Some(image)
  {
    assert DataUrlPrefix <= DataUrl(image);
  }

  lemma PayloadOfInverse(url: string, image: string)
    requires PayloadOf(url) == Some(image)
    ensures DataUrl(image) == url
  {
    assert url == url[..|DataUrlPrefix|] + url[|DataUrlPrefix|..];
  }

  /** Different payloads give different image references. */
  lemma DataUrlInjective(a: string, b: string)
    requires DataUrl(a) == DataUrl(b)
    ensures a == b
  {
    DataUrlRoundTrip(a);
    DataUrlRoundTrip(b);
  }

  /** The one user message of a job: an image block, then a text block. */
  function UserMessage(imageRef: string, instruction: string): Json {
    Obj(map[
      "role" := Str("user"),
      "content" := Arr([Obj(map["image" := Str(imageRef)]), Obj(map["text" := Str(instruction)])])
    ])
  }

  /** The job body for an image reference and an instruction. */
  function Job(imageRef: string, instruction: string): Json {
    Obj(map[
      "model" := Str(ModelName),
      "input" := Obj(map["messages" := Arr([UserMessage(imageRef, instruction)])]),
      "parameters" := JobParameters
    ])
  }

  /** The body the handler sends for a validated payload and a mode. It is a
      function of `(image, mode)` alone, so equal requests give equal bodies. */
  function JobBody(image: string, mode: Value): (r: Json)
    ensures ReadJob(r) == Some((DataUrl(image), Instruction(mode)))
  {
    JobRoundTrip(DataUrl(image), Instruction(mode));
    Job(DataUrl(image), Instruction(mode))
  }

  /** Reads a user message back: the image reference and the instruction, or
      None when `m` is not exactly `{role: "user", content: [{image}, {text}]}`. */
  function ReadMessage(m: Json): Option<(string, string)> {
    match m
    case Obj(f) =>
      if f.Keys == {"role", "content"} && f["role"] == Str("user") then
        match f["content"]
        case Arr(blocks) =>
          if |blocks| == 2
             && blocks[0].Obj? && blocks[0].fields.Keys == {"image"} && blocks[0].fields["image"].Str?
             && blocks[1].Obj? && blocks[1].fields.Keys == {"text"} && blocks[1].fields["text"].Str?
          then Some((blocks[0].fields["image"].s, blocks[1].fields["text"].s))
          else None
        case _ => None
      else None
    case _ => None
  }

  /** Reads a job body back: the image reference and the instruction of its
      single message, or None when `j` is not exactly the shape of a job
      (model, one message in `input.messages`, the fixed parameters). */
  function ReadJob(j: Json): Option<(string, string)> {
    match j
    case Obj(f) =>
      if f.Keys == {"model", "input", "parameters"}
         && f["model"] == Str(ModelName) && f["parameters"] == JobParameters
      then
        match f["input"]
        case Obj(input) =>
          if input.Keys == {"messages"} then
            match input["messages"]
            case Arr(messages) => if |messages| == 1 then ReadMessage(messages[0]) else None
            case _ => None
          else None
        case _ => None
      else None
    case _ => None
  }

  lemma JobRoundTrip(imageRef: string, instruction: string)
    ensures ReadJob(Job(imageRef, instruction)) == Some((imageRef, instruction))
  {
    var m := UserMessage(imageRef, instruction);
    assert m.fields.Keys == {"role", "content"};
    assert m.fields["content"].items[0].fields.Keys == {"image"};
    assert m.fields["content"].items[1].fields.Keys == {"text"};
    assert ReadMessage(m) == Some((imageRef, instruction));
    var j := Job(imageRef, instruction);
    assert j.fields.Keys == {"model", "input", "parameters"};
    assert j.fields["input"].fields.Keys == {"messages"};
  }

  lemma ReadMessageExact(m: Json, imageRef: string, instruction: string)
    requires ReadMessage(m) == Some((imageRef, instruction))
    ensures m == UserMessage(imageRef, instruction)
  {
    var f := m.fields;
    var blocks := f["content"].items;
    assert blocks[0].fields == map["image" := Str(imageRef)];
    assert blocks[1].fields == map["text" := Str(instruction)];
    assert blocks == [Obj(map["image" := Str(imageRef)]), Obj(map["text" := Str(instruction)])];
    assert f == UserMessage(imageRef, instruction).fields;
  }

  /** ReadJob accepts nothing but a job: whatever it reads back, the body was
      exactly the job for that image reference and instruction. */
  lemma ReadJobExact(j: Json, imageRef: string, instruction: string)
    requires ReadJob(j) == Some((imageRef, instruction))
    ensures j == Job(imageRef, instruction)
  {
    var f := j.fields;
    var input := f["input"].fields;
    var messages := input["messages"].items;
    ReadMessageExact(messages[0], imageRef, instruction);
    assert messages == [UserMessage(imageRef, instruction)];
    assert input == map["messages" := Arr([UserMessage(imageRef, instruction)])];
    assert f == Job(imageRef, instruction).fields;
  }

  /** The body determines the payload and the instruction it was built from:
      different payloads never share a body, and neither do modes that
      select different instructions. */
  lemma JobBodyDetermines(a: string, modeA: Value, b: string, modeB: Value)
    requires JobBody(a, modeA) == JobBody(b, modeB)
    ensures a == b
    ensures Instruction(modeA) == Instruction(modeB)
  {
    DataUrlInjective(a, b);
  }
}
