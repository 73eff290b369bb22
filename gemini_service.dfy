/** The generation client: derives the digital-competency level from the
    grade, resolves the selected topic keys to labels, composes the system
    instruction and the user prompt, and folds the streamed response into
    one text, reporting the running total after every chunk. */
module GeminiService {
  import opened Strings
  import opened Catalog

  /** The service's own key-to-label table. */
  const IntegrationLabels: map<string, string> := map[
    "NLS" := "Năng lực số",
    "AI" := "Trí tuệ nhân tạo (AI)",
    "THUOC_LA" := "Phòng chống thuốc lá",
    "TT_HCM" := "Tư tưởng Hồ Chí Minh",
    "QUYEN_CN" := "Quyền con người",
    "BDKH" := "Biến đổi khí hậu",
    "QPAN" := "Quốc phòng – An ninh",
    "KNS" := "Kỹ năng sống"
  ]

  /** The service's table and the form's catalog agree on keys and labels. */
  lemma LabelTableMatchesCatalog()
    ensures IntegrationLabels.Keys == IntegrationTopics.Keys
    ensures forall k :: k in IntegrationLabels ==> IntegrationLabels[k] == IntegrationTopics[k].labelText
  {
  }

  /** No two topics share a label. */
  lemma LabelsInjective()
    ensures forall k1, k2 :: k1 in IntegrationLabels && k2 in IntegrationLabels && k1 != k2 ==>
      IntegrationLabels[k1] != IntegrationLabels[k2]
  {
  }

  // ---------------------------------------------------------------------------
  // Level and labels

  /** The competency level: "TC1" for a grade label mentioning 6 or 7, "TC2"
      for every other label, including ones that mention no grade at all. */
  function TcLevel(gradeLevel: string): (r: string)
    ensures r == "TC1" || r == "TC2"
    ensures r == "TC1" <==> '6' in gradeLevel || '7' in gradeLevel
  {
    if '6' in gradeLevel || '7' in gradeLevel then "TC1" else "TC2"
  }

  /** Each grade the form offers advertises the level the service derives for it. */
  lemma GradeOptionsAdvertiseTheirLevel()
    ensures forall i :: 0 <= i < |GradeOptions| ==>
      EndsWith(GradeOptions[i], "(Mức " + TcLevel(GradeOptions[i]) + ")")
  {
    forall i | 0 <= i < |GradeOptions|
      ensures EndsWith(GradeOptions[i], "(Mức " + TcLevel(GradeOptions[i]) + ")")
    {
      GradeOptionLevel(i);
    }
  }

  lemma GradeOptionLevel(i: nat)
    requires i < |GradeOptions|
    ensures EndsWith(GradeOptions[i], "(Mức " + TcLevel(GradeOptions[i]) + ")")
  {
    var g := GradeOptions[i];
    if i < 2 {
      LowerGradeLevel(i);
      assert "(Mức " + TcLevel(g) + ")" == "(Mức TC1)";
    } else {
      UpperGradeLevel(i);
      assert "(Mức " + TcLevel(g) + ")" == "(Mức TC2)";
    }
  }

  lemma LowerGradeLevel(i: nat)
    requires i < 2
    ensures TcLevel(GradeOptions[i]) == "TC1" && EndsWith(GradeOptions[i], "(Mức TC1)")
  {
    assert GradeOptions[i][5] == if i == 0 then '6' else '7';
  }

  lemma UpperGradeLevel(i: nat)
    requires 2 <= i < 4
    ensures TcLevel(GradeOptions[i]) == "TC2" && EndsWith(GradeOptions[i], "(Mức TC2)")
  {
    assert GradeOptions[i] == if i == 2 then "Khối 8 (Mức TC2)" else "Khối 9 (Mức TC2)";
  }

  /** `integrationLabels[key]`: `undefined` (None) for a key outside the table. */
  function LabelOf(key: string): Option<string> {
    if key in IntegrationLabels then Some(IntegrationLabels[key]) else None
  }

  /** `selectedIntegrations.map(key => integrationLabels[key])`. */
  function SelectedLabels(keys: seq<string>): (r: seq<Option<string>>)
    ensures |r| == |keys|
    ensures forall i :: 0 <= i < |keys| ==> r[i] == LabelOf(keys[i])
  {
    if keys == [] then [] else SelectedLabels(keys[..|keys| - 1]) + [LabelOf(keys[|keys| - 1])]
  }

  /** A catalog key's label is the catalog's label. */
  lemma LabelOfCatalogKey(k: string)
    requires k in IntegrationKeys
    ensures k in IntegrationTopics && LabelOf(k) == Some(IntegrationTopics[k].labelText)
  {
    IntegrationKeysListCatalog();
    LabelTableMatchesCatalog();
  }

  /** Two different catalog keys have different labels. */
  lemma LabelOfDistinct(k1: string, k2: string)
    requires k1 in IntegrationKeys && k2 in IntegrationKeys && k1 != k2
    ensures LabelOf(k1) != LabelOf(k2)
  {
    IntegrationKeysListCatalog();
    LabelTableMatchesCatalog();
    LabelsInjective();
  }

  /** For a selection of catalog keys every listed label is the catalog's
      label of the key at the same position. */
  lemma SelectedLabelsAreCatalogLabels(keys: seq<string>)
    requires CatalogKeys(keys)
    ensures forall i :: 0 <= i < |keys| ==>
      keys[i] in IntegrationTopics && SelectedLabels(keys)[i] == Some(IntegrationTopics[keys[i]].labelText)
  {
    forall i | 0 <= i < |keys|
      ensures keys[i] in IntegrationTopics && SelectedLabels(keys)[i] == Some(IntegrationTopics[keys[i]].labelText)
    {
      LabelOfCatalogKey(keys[i]);
    }
  }

  /** The label of a catalog topic that is not selected is not listed. */
  lemma UnselectedLabelsAbsent(keys: seq<string>, k: string)
    requires CatalogKeys(keys)
    requires k in IntegrationTopics && k !in keys
    ensures Some(IntegrationTopics[k].labelText) !in SelectedLabels(keys)
  {
    IntegrationKeysListCatalog();
    LabelOfCatalogKey(k);
    var r := SelectedLabels(keys);
    forall i | 0 <= i < |r| ensures r[i] != LabelOf(k) {
      LabelOfDistinct(keys[i], k);
    }
  }

  /** `labels.join(", ")`, where JavaScript writes an undefined element as "". */
  function JoinLabels(labels: seq<Option<string>>): string {
    Join(seq(|labels|, i requires 0 <= i < |labels| => labels[i].GetOr("")), ", ")
  }

  /** Every defined label occurs in the joined list. */
  lemma JoinLabelsContainsLabels(labels: seq<Option<string>>, i: nat)
    requires i < |labels| && labels[i].Some?
    ensures Infix(labels[i].value, JoinLabels(labels))
  {
    var items := seq(|labels|, i requires 0 <= i < |labels| => labels[i].GetOr(""));
    JoinContainsItem(items, ", ", i);
  }

  /** The bracketed list of allowed topics both prompts carry. */
  function AllowedList(config: GenerationConfig): (r: string)
    ensures |r| >= 2 && r[0] == '[' && r[|r| - 1] == ']'
  {
    "[" + JoinLabels(SelectedLabels(config.selectedIntegrations)) + "]"
  }

  /** The allowed list names the catalog label of every selected topic. */
  lemma AllowedListNamesSelection(config: GenerationConfig, k: string)
    requires k in config.selectedIntegrations && k in IntegrationTopics
    ensures Infix(IntegrationTopics[k].labelText, AllowedList(config))
  {
    var keys := config.selectedIntegrations;
    var labels := SelectedLabels(keys);
    var i :| 0 <= i < |keys| && keys[i] == k;
    IntegrationKeysListCatalog();
    LabelOfCatalogKey(k);
    JoinLabelsContainsLabels(labels, i);
    InfixWithin(IntegrationTopics[k].labelText, "[", JoinLabels(labels), "]");
  }

  // ---------------------------------------------------------------------------
  // Prompt composition. The constants below stand in for the fixed wording of
  // the two templates; the values spliced between them, their delimiters and
  // their order are those of the service.

  const SystemRoleAndAllowed := "I.1 Forms: "
  const SystemSeriesRule := "\nI.4 Series: "
  const SystemAiRule := "\nII.1 AI: "
  /** The only four codes the AI topic may use. */
  const AiCodes := "[NLa], [NLb], [NLc], [NLd]"
  const SystemNlsRule := "\nII.2 NLS: "
  const SystemNlsExample := " e.g. "
  const SystemTableRule := "\nIII. Table: "
  const SystemEnd := "\n"

  const PromptIntro := "Data:\n"
  const TripleQuote := "\"\"\""
  const PromptRules := "\nOnly: "
  const PromptAiRule := "\nAI: "
  const PromptAiCodes := "[NLa], [NLb], [NLc], hoặc [NLd]"
  const PromptEnd := "\n"

  /** The digital-competency code template and its worked example, both
      parameterised by the derived level. */
  function NlsCode(level: string): string { "[x.x." + level + "[a/b/c]]" }
  function NlsExample(level: string): string { "[1.1." + level + "a]" }

  /** The source text quoted verbatim between triple quotes. */
  function QuotedInput(inputData: string): string {
    TripleQuote + "\n    " + inputData + "\n    " + TripleQuote
  }

  /** The pieces of the system instruction, in order: allowed labels, textbook
      series, the AI codes, the level in the digital-competency code and its
      example, the appendix kind. */
  function SystemParts(config: GenerationConfig): seq<string> {
    var level := TcLevel(config.gradeLevel);
    [ SystemRoleAndAllowed, AllowedList(config),
      SystemSeriesRule, config.textbookSeries,
      SystemAiRule, AiCodes,
      SystemNlsRule, NlsCode(level),
      SystemNlsExample, NlsExample(level),
      SystemTableRule, config.appendixType.Name(),
      SystemEnd ]
  }

  function SystemInstruction(config: GenerationConfig): string {
    Concat(SystemParts(config))
  }

  /** The pieces of the user prompt, in order: the quoted source text, the
      context fields, the allowed labels again and the AI code rule. */
  function PromptParts(config: GenerationConfig): seq<string> {
    [ PromptIntro, QuotedInput(config.inputData),
      "\nMôn: ", config.subjectName,
      "\nKhối: ", config.gradeLevel,
      "\nBộ sách: ", config.textbookSeries,
      "\nPhụ lục đích: ", config.appendixType.Name(),
      PromptRules, AllowedList(config),
      PromptAiRule, PromptAiCodes,
      PromptEnd ]
  }

  function UserPrompt(config: GenerationConfig): string {
    Concat(PromptParts(config))
  }

  /** What is sent to the generative endpoint. */
  datatype Request = Request(model: string, contents: string, systemInstruction: string, temperature: real)

  const Model := "gemini-3-flash-preview"

  function BuildRequest(config: GenerationConfig): (r: Request)
    ensures r.model == Model && r.temperature == 0.1
  {
    Request(Model, UserPrompt(config), SystemInstruction(config), 0.1)
  }

  /** Both prompts restrict generation to the bracketed list of selected labels. */
  lemma PromptsListAllowedLabels(config: GenerationConfig)
    ensures Infix(AllowedList(config), SystemInstruction(config))
    ensures Infix(AllowedList(config), UserPrompt(config))
  {
    PartIsInfix(SystemParts(config), 1);
    PartIsInfix(PromptParts(config), 11);
  }

  /** The system instruction carries the derived level in the digital-competency
      code template and in its example, and offers exactly the four AI codes;
      the user prompt repeats the four codes. */
  lemma PromptsCarryCodes(config: GenerationConfig)
    ensures Infix(NlsCode(TcLevel(config.gradeLevel)), SystemInstruction(config))
    ensures Infix(NlsExample(TcLevel(config.gradeLevel)), SystemInstruction(config))
    ensures Infix(AiCodes, SystemInstruction(config))
    ensures Infix(PromptAiCodes, UserPrompt(config))
  {
    PartIsInfix(SystemParts(config), 7);
    PartIsInfix(SystemParts(config), 9);
    PartIsInfix(SystemParts(config), 5);
    PartIsInfix(PromptParts(config), 13);
  }

  /** The user prompt quotes the source text verbatim between triple quotes. */
  lemma UserPromptQuotesInput(config: GenerationConfig)
    ensures Infix(QuotedInput(config.inputData), UserPrompt(config))
  {
    PartIsInfix(PromptParts(config), 1);
  }

  /** Only the AI topic selected, grade 8: the allowed list is the AI label
      alone and the level is TC2. */
  lemma AiOnlyGradeEight(config: GenerationConfig)
    requires config.selectedIntegrations == ["AI"] && config.gradeLevel == "Khối 8"
    ensures AllowedList(config) == "[Trí tuệ nhân tạo (AI)]"
    ensures TcLevel(config.gradeLevel) == "TC2"
  {
    AiLabel();
    JoinLabelsSingle("Trí tuệ nhân tạo (AI)");
  }

  lemma AiLabel()
    ensures SelectedLabels(["AI"]) == [Some("Trí tuệ nhân tạo (AI)")]
  {
    assert SelectedLabels(["AI"])[0] == LabelOf("AI");
  }

  /** A single label is joined to itself. */
  lemma JoinLabelsSingle(text: string)
    ensures JoinLabels([Some(text)]) == text
  {
    var labels := [Some(text)];
    assert seq(|labels|, i requires 0 <= i < |labels| => labels[i].GetOr("")) == [text];
  }

  // ---------------------------------------------------------------------------
  // Streaming

  /** What a call meets. `ClientFailure`: building the client throws, before
      the `try` and before any request, with the thrown error's message.
      `Stream`: the request is sent and the endpoint delivers the chunks in
      stream order, each with or without text, and then either completes or
      fails; a request that fails outright delivers no chunks. */
  datatype Response =
    | ClientFailure(message: string)
    | Stream(chunks: seq<Option<string>>, failed: bool)

  const AiErrorMessage := "Lỗi hệ thống AI. Vui lòng kiểm tra tài liệu hoặc thử lại."

  /** `chunk.text || ""`. */
  function ChunkText(chunk: Option<string>): string {
    chunk.GetOr("")
  }

  /** The running buffer after the given chunks, appended one at a time. */
  function Accumulated(chunks: seq<Option<string>>): string {
    if chunks == [] then "" else Accumulated(chunks[..|chunks| - 1]) + ChunkText(chunks[|chunks| - 1])
  }

  /** The chunk texts concatenated in stream order. */
  function Concatenation(chunks: seq<Option<string>>): string {
    if chunks == [] then "" else ChunkText(chunks[0]) + Concatenation(chunks[1..])
  }

  /** The values handed to the update callback, one per chunk. */
  function Updates(chunks: seq<Option<string>>): (r: seq<string>)
    ensures |r| == |chunks|
  {
    if chunks == [] then [] else Updates(chunks[..|chunks| - 1]) + [Accumulated(chunks)]
  }

  /** The values a call hands to its callback: the running totals of the
      stream, and none when the client could not be built. */
  function Reports(response: Response): (r: seq<string>)
    ensures response.Stream? ==> |r| == |response.chunks|
    ensures response.ClientFailure? ==> r == []
  {
    if response.Stream? then Updates(response.chunks) else []
  }

  /** What a call settles to: the message of the error it throws, or the
      chunk texts concatenated in stream order. */
  function Outcome(response: Response): (r: Result<string>)
    ensures r.Err? <==> response.ClientFailure? || response.failed
  {
    match response
    case ClientFailure(message) => Err(message)
    case Stream(chunks, failed) => if failed then Err(AiErrorMessage) else Ok(Concatenation(chunks))
  }

  lemma {:induction false} AccumulatedAppend(a: seq<Option<string>>, b: seq<Option<string>>)
    ensures Accumulated(a + b) == Accumulated(a) + Accumulated(b)
    decreases |b|
  {
    if b == [] {
      assert a + b == a;
    } else {
      var c := a + b;
      assert c[..|c| - 1] == a + b[..|b| - 1];
      AccumulatedAppend(a, b[..|b| - 1]);
    }
  }

  /** The buffer is the concatenation of the chunk texts in stream order. */
  lemma {:induction false} AccumulatedIsConcatenation(chunks: seq<Option<string>>)
    ensures Accumulated(chunks) == Concatenation(chunks)
  {
    if chunks != [] {
      assert chunks == [chunks[0]] + chunks[1..];
      AccumulatedAppend([chunks[0]], chunks[1..]);
      assert [chunks[0]][..0] == [];
      AccumulatedIsConcatenation(chunks[1..]);
    }
  }

  /** One update per chunk; update k is the buffer after chunks 0..k. */
  lemma {:induction false} UpdatesAreRunningTotals(chunks: seq<Option<string>>)
    ensures |Updates(chunks)| == |chunks|
    ensures forall k :: 0 <= k < |chunks| ==> Updates(chunks)[k] == Accumulated(chunks[..k + 1])
  {
    if chunks != [] {
      var init := chunks[..|chunks| - 1];
      UpdatesAreRunningTotals(init);
      forall k | 0 <= k < |chunks| - 1 ensures Updates(chunks)[k] == Accumulated(chunks[..k + 1]) {
        assert init[..k + 1] == chunks[..k + 1];
      }
      assert chunks[..|chunks|] == chunks;
    }
  }

  lemma AccumulatedStep(chunks: seq<Option<string>>, k: nat)
    requires k < |chunks|
    ensures Accumulated(chunks[..k + 1]) == Accumulated(chunks[..k]) + ChunkText(chunks[k])
  {
    assert chunks[..k + 1][..k] == chunks[..k];
  }

  /** Every update is a prefix of the next, and the last is the whole text. */
  lemma UpdatesGrowToResult(chunks: seq<Option<string>>)
    ensures forall k :: 0 <= k < |chunks| - 1 ==> Updates(chunks)[k] <= Updates(chunks)[k + 1]
    ensures chunks != [] ==> Updates(chunks)[|chunks| - 1] == Concatenation(chunks)
  {
    var u := Updates(chunks);
    UpdatesAreRunningTotals(chunks);
    forall k | 0 <= k < |chunks| - 1 ensures u[k] <= u[k + 1] {
      AccumulatedStep(chunks, k + 1);
    }
    if chunks != [] {
      assert chunks[..|chunks|] == chunks;
      AccumulatedIsConcatenation(chunks);
    }
  }

  /** Builds the client, then sends the request built from `config`, consumes
      the response and, when a callback is supplied (`hasCallback`), reports
      the running text after each chunk. A failure while building the client
      propagates its own message with no request sent; a failure of the
      request or the stream yields the one fixed AI error and no text. */
  method GenerateAppendix(config: GenerationConfig, response: Response, hasCallback: bool)
    returns (request: Option<Request>, result: Result<string>, updates: seq<string>)
    ensures request == if response.Stream? then Some(BuildRequest(config)) else None
    ensures updates == if hasCallback then Reports(response) else []
    ensures result == Outcome(response)
  {
    if response.ClientFailure? {
      return None, Err(response.message), [];
    }
    request := Some(BuildRequest(config));
    var chunks := response.chunks;
    var fullText := "";
    updates := [];
    var i := 0;
    while i < |chunks|
      invariant 0 <= i <= |chunks|
      invariant fullText == Accumulated(chunks[..i])
      invariant updates == if hasCallback then Updates(chunks[..i]) else []
    {
      assert chunks[..i + 1][..i] == chunks[..i];
      var chunkText := ChunkText(chunks[i]);
      fullText := fullText + chunkText;
      if hasCallback {
        updates := updates + [fullText];
      }
      i := i + 1;
    }
    assert chunks[..i] == chunks;
    AccumulatedIsConcatenation(chunks);
    if response.failed {
      result := Err(AiErrorMessage);
    } else {
      result := Ok(fullText);
    }
  }
}
