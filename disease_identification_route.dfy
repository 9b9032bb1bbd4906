/**
 * `POST /api/disease-identification`: read the multipart form, encode an
 * uploaded image in base64, compose the pathologist prompt (with at most the
 * first 100 characters of the image text), ask the model, and recover a JSON
 * object from its reply.
 */
module DiseaseIdentificationRoute {
  import opened Outcomes
  import opened Strings
  import opened JsonValues
  import opened Http
  import opened Recovery

  /**
   * `formData.get(name)`: a text field, an uploaded file, or an uploaded file
   * whose `arrayBuffer()` rejects with `error`; `None` is `null`.
   */
  datatype FormValue = Field(text: string) | File(bytes: seq<bv8>) | UnreadableFile(error: JsError)

  /** `await req.formData()`: the three fields read, or the error it threw. */
  datatype FormBody =
    | FormUnreadable(error: JsError)
    | Form(crop: Option<FormValue>, symptom: Option<FormValue>, image: Option<FormValue>)

  /** `Buffer.from(bytes).toString("base64")`, left abstract. */
  type Base64 = seq<bv8> -> string

  /** `${v}` for a form value: `null`, the text itself, or a `File` object. */
  function FieldText(v: Option<FormValue>): string {
    match v
    case None => "null"
    case Some(Field(s)) => s
    case Some(File(_)) => "[object File]"
    case Some(UnreadableFile(_)) => "[object File]"
  }

  /** The uploaded image's `arrayBuffer()` rejects, and the outer `catch` answers. */
  predicate ImageUnreadable(form: FormBody) {
    form.Form? && form.image.Some? && form.image.value.UnreadableFile?
  }

  /** `imageBase64`: the encoding of an uploaded file, and `""` for anything else. */
  function ImageBase64(encode: Base64, image: Option<FormValue>): string {
    match image
    case Some(File(bytes)) => encode(bytes)
    case _ => ""
  }

  const Preamble := "You are a plant pathologist. Given the following information, identify the most likely disease and provide 2-3 actionable measures to overcome it."
  const ImageLead := "\nThe following is a base64-encoded image of the affected plant: "
  const TruncationMark := "... (truncated)"
  const Instruction := "\nRespond in JSON: { \"disease\": string, \"measures\": string[] }"

  /** The longest prefix of the image text the prompt carries. */
  const ImageLimit: nat := 100

  /** The crop and symptom lines. */
  function CaseLines(crop: string, symptom: string): string {
    "\nCrop: " + crop + "\nSymptoms: " + symptom
  }

  /** The image section: absent for an empty image text, otherwise its truncated head. */
  function ImageSection(imageBase64: string): string {
    if imageBase64 == "" then "" else ImageLead + Truncate(imageBase64, ImageLimit) + TruncationMark
  }

  /** The prompt the handler sends. */
  function DiseasePrompt(crop: string, symptom: string, imageBase64: string): string {
    Preamble + CaseLines(crop, symptom) + ImageSection(imageBase64) + Instruction
  }

  /** The prompt, composed by successive appends as the handler does. */
  method ComposePrompt(crop: string, symptom: string, imageBase64: string) returns (prompt: string)
    ensures prompt == DiseasePrompt(crop, symptom, imageBase64)
  {
    prompt := Preamble + CaseLines(crop, symptom);
    if imageBase64 != "" {
      prompt := prompt + (ImageLead + Truncate(imageBase64, ImageLimit) + TruncationMark);
    }
    assert prompt == Preamble + CaseLines(crop, symptom) + ImageSection(imageBase64);
    prompt := prompt + Instruction;
  }

  /**
   * The handler. `apiKey` is the environment's `GEMINI_API_KEY`, `encode` the
   * base64 encoder, `reply` what the model call would return and `parse`
   * stands for `JSON.parse`; `calls` lists the outgoing calls made.
   */
  method Post(form: FormBody, apiKey: Option<string>, encode: Base64, reply: Reply, parse: Parser)
    returns (resp: Response, calls: seq<Call>)
    ensures form.FormUnreadable? ==> resp == Caught(form.error) && calls == []
    ensures ImageUnreadable(form) ==> resp == Caught(form.image.value.error) && calls == []
    ensures form.Form? && !ImageUnreadable(form) && KeyMissing(apiKey) ==> resp == Response(500, ErrorJson(KeyNotSet)) && calls == []
    ensures form.Form? && !ImageUnreadable(form) && !KeyMissing(apiKey) ==>
              && calls == [Generate(DiseasePrompt(FieldText(form.crop), FieldText(form.symptom),
                                                  ImageBase64(encode, form.image)))]
              && resp == match reply
                         case Unreachable(e) => Caught(e)
                         case Rejected(t) => Response(500, ErrorJson(t))
                         case Answered(text) => Response(200, WholeThenSpan(parse, CandidateText(text, "{}"), JObj([])))
  {
    calls := [];
    if form.FormUnreadable? {
      resp := Caught(form.error);
      return;
    }
    var crop, symptom, imageFile := form.crop, form.symptom, form.image;
    var imageBase64 := "";
    if imageFile.Some? && imageFile.value.UnreadableFile? {
      resp := Caught(imageFile.value.error);
      return;
    }
    if imageFile.Some? && imageFile.value.File? {
      imageBase64 := encode(imageFile.value.bytes);
    }
    if KeyMissing(apiKey) {
      resp := Response(500, ErrorJson(KeyNotSet));
      return;
    }
    var prompt := ComposePrompt(FieldText(crop), FieldText(symptom), imageBase64);
    calls := calls + [Generate(prompt)];
    match reply {
      case Unreachable(e) =>
        resp := Caught(e);
      case Rejected(t) =>
        resp := Response(500, ErrorJson(t));
      case Answered(text) =>
        var aiText := CandidateText(text, "{}");
        var result := JObj([]);
        var whole := parse(aiText);
        if whole.Some? {
          result := whole.value;
        } else {
          var m := GreedyMatch(aiText, '{', '}');
          if m.Some? {
            var span := parse(m.value);
            if span.Some? {
              result := span.value;
            }
          }
        }
        resp := Response(200, result);
    }
  }

  // ---------------------------------------------------------------------------
  // Properties of the prompt

  /** The prompt opens with the preamble and the crop and symptom lines, and ends with the instruction. */
  lemma PromptFrame(crop: string, symptom: string, imageBase64: string)
    ensures Preamble + CaseLines(crop, symptom) <= DiseasePrompt(crop, symptom, imageBase64)
    ensures var p := DiseasePrompt(crop, symptom, imageBase64);
            |p| >= |Instruction| && p[|p| - |Instruction|..] == Instruction
    ensures Includes(DiseasePrompt(crop, symptom, imageBase64), CaseLines(crop, symptom))
  {
    var p, c := DiseasePrompt(crop, symptom, imageBase64), CaseLines(crop, symptom);
    assert p[|Preamble|..|Preamble| + |c|] == c;
    assert OccursAt(p, c, |Preamble|);
    IncludesIff(p, c);
  }

  /**
   * The image section is there exactly when the image text is non-empty, and
   * then carries the first `min(100, length)` characters of it and the mark.
   */
  lemma ImageSectionIff(crop: string, symptom: string, imageBase64: string)
    ensures imageBase64 == "" <==>
              DiseasePrompt(crop, symptom, imageBase64) == Preamble + CaseLines(crop, symptom) + Instruction
    ensures imageBase64 != "" ==>
              exists head ::
                && head <= imageBase64
                && |head| == (if |imageBase64| <= ImageLimit then |imageBase64| else ImageLimit)
                && DiseasePrompt(crop, symptom, imageBase64) ==
                     Preamble + CaseLines(crop, symptom) + (ImageLead + head + TruncationMark) + Instruction
  {
    var front := Preamble + CaseLines(crop, symptom);
    var section := ImageSection(imageBase64);
    assert DiseasePrompt(crop, symptom, imageBase64) == front + section + Instruction;
    if imageBase64 != "" {
      var head := Truncate(imageBase64, ImageLimit);
      assert section == ImageLead + head + TruncationMark;
      assert |front + section + Instruction| > |front + Instruction|;
    }
  }

  /** Only an uploaded file contributes an image; a text field named `image` does not. */
  lemma OnlyFilesAreImages(encode: Base64, image: Option<FormValue>)
    ensures ImageBase64(encode, image) != "" ==> image.Some? && image.value.File?
  {
  }

  /** No candidate text: the reply text is "{}", so the result is `{}`. */
  lemma MissingCandidate(parse: Parser)
    requires parse("{}") == Some(JObj([]))
    ensures WholeThenSpan(parse, CandidateText(None, "{}"), JObj([])) == JObj([])
  {
  }
}
