/** The UI shell: the topic toggle, the file-upload handler with its PDF
    text loop, the generate handler with its two validation guards, and the
    Word export's file name and document body. */
module App {
  import opened Strings
  import opened Catalog
  import GeminiService

  // ---------------------------------------------------------------------------
  // Topic selection

  /** `current.filter(k => k !== key)`: every occurrence of `key` removed, every
      other key kept as often as it was. */
  function RemoveAll(current: seq<string>, key: string): (r: seq<string>)
    ensures key !in r
    ensures multiset(r) == multiset(current)[key := 0]
    ensures key !in current ==> r == current
  {
    if current == [] then []
    else
      assert current == [current[0]] + current[1..];
      (if current[0] == key then [] else [current[0]]) + RemoveAll(current[1..], key)
  }

  /** Filtering distributes over concatenation, so the kept keys stay in their
      original order. */
  lemma {:induction false} RemoveAllAppend(a: seq<string>, b: seq<string>, key: string)
    ensures RemoveAll(a + b, key) == RemoveAll(a, key) + RemoveAll(b, key)
  {
    if a == [] {
      assert a + b == b;
    } else {
      var head := if a[0] == key then [] else [a[0]];
      assert (a + b)[0] == a[0];
      assert (a + b)[1..] == a[1..] + b;
      RemoveAllAppend(a[1..], b, key);
      calc {
        RemoveAll(a + b, key);
        head + RemoveAll(a[1..] + b, key);
        head + (RemoveAll(a[1..], key) + RemoveAll(b, key));
        { AppendAssociative(head, RemoveAll(a[1..], key), RemoveAll(b, key)); }
        (head + RemoveAll(a[1..], key)) + RemoveAll(b, key);
        RemoveAll(a, key) + RemoveAll(b, key);
      }
    }
  }

  lemma AppendAssociative(x: seq<string>, y: seq<string>, z: seq<string>)
    ensures x + (y + z) == (x + y) + z
  {
  }

  /** A selected key is removed everywhere; an unselected one is appended. */
  function Toggle(current: seq<string>, key: string): (r: seq<string>)
    ensures key in r <==> key !in current
    ensures forall x :: x != key ==> multiset(r)[x] == multiset(current)[x]
  {
    if key in current then RemoveAll(current, key) else current + [key]
  }

  /** Toggling an unselected key twice gives back the selection unchanged. */
  lemma ToggleTwice(current: seq<string>, key: string)
    requires key !in current
    ensures Toggle(Toggle(current, key), key) == current
  {
    RemoveAllAppend(current, [key], key);
  }

  /** A selection of distinct catalog keys stays one when a catalog key is toggled. */
  lemma ToggleKeepsSelectionWellFormed(current: seq<string>, key: string)
    requires WellFormedSelection(current) && key in IntegrationKeys
    ensures WellFormedSelection(Toggle(current, key))
  {
    var r := Toggle(current, key);
    forall x | x in r ensures x in IntegrationKeys {
      if x != key {
        assert multiset(r)[x] > 0;
      }
    }
  }

  /** The state updater passed to `setConfig`: only the selection changes. */
  function ToggledConfig(prev: GenerationConfig, key: string): (r: GenerationConfig)
    ensures r.(selectedIntegrations := prev.selectedIntegrations) == prev
    ensures key in r.selectedIntegrations <==> key !in prev.selectedIntegrations
  {
    prev.(selectedIntegrations := Toggle(prev.selectedIntegrations, key))
  }

  // ---------------------------------------------------------------------------
  // File text

  datatype FileKind = WordDocument | PdfDocument | PlainText

  /** The branch an uploaded file takes, chosen by its name's suffix alone. */
  function KindOf(name: string): (k: FileKind)
    ensures k == WordDocument <==> EndsWith(name, ".docx") || EndsWith(name, ".doc")
    ensures k == PdfDocument <==> EndsWith(name, ".pdf")
  {
    assert EndsWith(name, ".pdf") ==> name[|name| - 1] == 'f';
    if EndsWith(name, ".docx") || EndsWith(name, ".doc") then WordDocument
    else if EndsWith(name, ".pdf") then PdfDocument
    else PlainText
  }

  /** One page: its text items joined with single spaces, then a newline. */
  function PageText(items: seq<string>): string {
    Join(items, " ") + "\n"
  }

  /** The text of the pages, in page order. */
  function PdfText(pages: seq<seq<string>>): string {
    if pages == [] then "" else PdfText(pages[..|pages| - 1]) + PageText(pages[|pages| - 1])
  }

  lemma {:induction false} PdfTextAppend(a: seq<seq<string>>, b: seq<seq<string>>)
    ensures PdfText(a + b) == PdfText(a) + PdfText(b)
    decreases |b|
  {
    if b == [] {
      assert a + b == a;
    } else {
      var c := a + b;
      var init := b[..|b| - 1];
      var last := b[|b| - 1];
      assert c[..|c| - 1] == a + init;
      assert c[|c| - 1] == last;
      PdfTextAppend(a, init);
      calc {
        PdfText(c);
        PdfText(a + init) + PageText(last);
        (PdfText(a) + PdfText(init)) + PageText(last);
        PdfText(a) + (PdfText(init) + PageText(last));
        PdfText(a) + PdfText(b);
      }
    }
  }

  /** With no newline inside the items, the text holds exactly one newline
      per page, each page's text ending in its own. */
  lemma {:induction false} PdfTextNewlines(pages: seq<seq<string>>)
    requires forall p, j :: 0 <= p < |pages| && 0 <= j < |pages[p]| ==> '\n' !in pages[p][j]
    ensures Count(PdfText(pages), '\n') == |pages|
    ensures pages != [] ==> EndsWith(PdfText(pages), "\n")
  {
    if pages != [] {
      var last := pages[|pages| - 1];
      PdfTextNewlines(pages[..|pages| - 1]);
      JoinAvoids(last, " ", '\n');
      CountAbsent(Join(last, " "), '\n');
      CountAppend(Join(last, " "), "\n", '\n');
      CountAppend(PdfText(pages[..|pages| - 1]), PageText(last), '\n');
    }
  }

  /** Two pages holding "A" and "B" give "A\nB\n"; items of one page are
      separated by a space. */
  lemma PdfTextExamples()
    ensures PdfText([["A"], ["B"]]) == "A\nB\n"
    ensures PdfText([["A", "B"]]) == "A B\n"
    ensures PdfText([]) == ""
  {
    assert [["A"], ["B"]][..1] == [["A"]];
    assert [["A"]][..0] == [];
    assert [["A", "B"]][..0] == [];
  }

  /** The page loop of the upload handler, pages numbered from 1. */
  method ExtractPdfText(pages: seq<seq<string>>) returns (fullText: string)
    ensures fullText == PdfText(pages)
  {
    var numPages := |pages|;
    fullText := "";
    var i := 1;
    while i <= numPages
      invariant 1 <= i <= numPages + 1
      invariant fullText == PdfText(pages[..i - 1])
    {
      var textItems := pages[i - 1];
      var pageText := Join(textItems, " ");
      assert pages[..i][..i - 1] == pages[..i - 1];
      fullText := fullText + pageText + "\n";
      i := i + 1;
    }
    assert pages[..numPages] == pages;
  }

  /** An uploaded file, with what each external reader would make of it:
      the word-processor extractor's text, the PDF reader's pages (each a list
      of text items) and the plain-text decoding. None stands for a reader
      that throws. */
  datatype UploadedFile = UploadedFile(
    name: string,
    wordText: Option<string>,
    pdfPages: Option<seq<seq<string>>>,
    plainText: Option<string>)

  /** The text an upload yields, or None when the chosen reader fails. */
  function ExtractedText(file: UploadedFile): Option<string> {
    match KindOf(file.name)
    case WordDocument => file.wordText
    case PdfDocument => if file.pdfPages.Some? then Some(PdfText(file.pdfPages.value)) else None
    case PlainText => file.plainText
  }

  /** Runs the reader the file's suffix selects. */
  method ReadUpload(f: UploadedFile) returns (text: Option<string>)
    ensures text == ExtractedText(f)
  {
    match KindOf(f.name) {
      case WordDocument =>
        text := f.wordText;
      case PdfDocument =>
        if f.pdfPages.Some? {
          var fullText := ExtractPdfText(f.pdfPages.value);
          text := Some(fullText);
        } else {
          text := None;
        }
      case PlainText =>
        text := f.plainText;
    }
  }

  const ReadErrorMessage := "Không thể đọc tệp. Vui lòng kiểm tra định dạng .doc, .docx hoặc .pdf."
  const NoInputMessage := "Vui lòng tải lên hoặc nhập nội dung bài dạy."
  const NoTopicMessage := "Vui lòng chọn ít nhất một hình thức tích hợp."
  const FallbackAiMessage := "Lỗi xử lý hệ thống AI."

  /** `err.message || "..."`. */
  function ErrorText(message: string): (r: string)
    ensures r != ""
  {
    if message != "" then message else FallbackAiMessage
  }

  /** The guards of the generate handler, in their order: blank source text
      is refused first, then an empty selection; None lets the generation run. */
  function Rejection(config: GenerationConfig): (r: Option<string>)
    ensures r == Some(NoInputMessage) <==> AllWhitespace(config.inputData)
    ensures r == Some(NoTopicMessage) <==> !AllWhitespace(config.inputData) && config.selectedIntegrations == []
    ensures r == None <==> !AllWhitespace(config.inputData) && config.selectedIntegrations != []
  {
    if IsBlank(config.inputData) then Some(NoInputMessage)
    else if |config.selectedIntegrations| == 0 then Some(NoTopicMessage)
    else None
  }

  /** The error banner once a generation has settled: the thrown error's
      message shown through `err.message || "..."`, or none when the stream
      completed. */
  function GenerationError(response: GeminiService.Response): (r: Option<string>)
    ensures r.Some? <==> response.ClientFailure? || response.failed
    ensures r.Some? ==> r.value != ""
    ensures response.Stream? && response.failed ==> r == Some(GeminiService.AiErrorMessage)
    ensures response.ClientFailure? && response.message != "" ==> r == Some(response.message)
  {
    var outcome := GeminiService.Outcome(response);
    if outcome.Err? then Some(ErrorText(outcome.message)) else None
  }

  /** What the form shows at one moment of a generation: the output, the
      error banner and the loading flag. */
  datatype Snapshot = Snapshot(output: string, error: Option<string>, loading: bool)

  /** The states a generation passes through: the output cleared, then each
      value handed to the callback, with no error and loading on throughout. */
  function Progress(outputs: seq<string>): (r: seq<Snapshot>)
    ensures |r| == |outputs| + 1
    ensures forall i :: 0 <= i < |r| ==> r[i].error == None && r[i].loading
    ensures r[0].output == ""
    ensures forall i :: 0 <= i < |outputs| ==> r[i + 1].output == outputs[i]
  {
    if outputs == [] then [Snapshot("", None, true)]
    else Progress(outputs[..|outputs| - 1]) + [Snapshot(outputs[|outputs| - 1], None, true)]
  }

  // ---------------------------------------------------------------------------
  // Export

  const ByteOrderMark := "\U{FEFF}"
  const WordMimeType := "application/msword"
  const ExportHeader :=
    "<html xmlns:o='urn:schemas-microsoft-com:office:office' xmlns:w='urn:schemas-microsoft-com:office:word' xmlns='http://www.w3.org/TR/REC-html40'>\n"
    + "                    <head><meta charset='utf-8'><title>Appendix Export</title>\n"
    + "                    <style>\n"
    + "                      body { font-family: \"Times New Roman\", serif; font-size: 11pt; line-height: 1.25; padding: 2cm; }\n"
    + "                      table { border-collapse: collapse; width: 100%; border: 1px solid black; margin-bottom: 20px; }\n"
    + "                      th, td { border: 1px solid black; padding: 8px; vertical-align: top; }\n"
    + "                      th { background-color: #f1f5f9; font-weight: bold; text-align: center; font-size: 10pt; }\n"
    + "                      h1, h2, h3 { text-align: center; text-transform: uppercase; font-weight: bold; }\n"
    + "                    </style>\n"
    + "                    </head><body>"
  const ExportFooter := "</body></html>"

  /** `appendixType + "_" + gradeLevel.replace(/\s/g, '_') + ".doc"`: a name with
      no whitespace, ending in ".doc", that keeps every other character of the
      grade label in place. */
  function ExportFileName(config: GenerationConfig): (r: string)
    ensures NoWhitespace(r) && EndsWith(r, ".doc")
    ensures var prefix := config.appendixType.Name() + "_";
      |r| == |prefix| + |config.gradeLevel| + 4 && r[..|prefix|] == prefix
      && forall i :: 0 <= i < |config.gradeLevel| && !IsWhitespace(config.gradeLevel[i]) ==>
        r[|prefix| + i] == config.gradeLevel[i]
  {
    var r := config.appendixType.Name() + "_" + ReplaceWhitespace(config.gradeLevel, '_') + ".doc";
    assert r[|r| - 4..] == ".doc";
    r
  }

  /** The exported markup: the preview's inner HTML, or the generated HTML
      when the preview is missing or empty. */
  function ExportContent(previewHtml: Option<string>, generatedHtml: string): (r: string)
    ensures r == generatedHtml || (previewHtml.Some? && r == previewHtml.value)
    ensures r == "" ==> generatedHtml == ""
  {
    if previewHtml.Some? && previewHtml.value != "" then previewHtml.value else generatedHtml
  }

  /** The exported file's text: byte-order mark, document shell, content, closing tags. */
  function ExportDocument(content: string): string {
    ByteOrderMark + ExportHeader + content + ExportFooter
  }

  /** The text between `prefix` and `suffix` when `data` is framed by them. */
  function Unframe(prefix: string, suffix: string, data: string): Option<string> {
    if |prefix| + |suffix| <= |data| && data[..|prefix|] == prefix && data[|data| - |suffix|..] == suffix
    then Some(data[|prefix|..|data| - |suffix|])
    else None
  }

  /** Unframing inverts framing, and only framed texts unframe. */
  lemma FramedRoundTrip(prefix: string, suffix: string, content: string, data: string)
    ensures Unframe(prefix, suffix, prefix + content + suffix) == Some(content)
    ensures Unframe(prefix, suffix, data) == Some(content) ==> data == prefix + content + suffix
  {
    var d := prefix + content + suffix;
    assert d[..|prefix|] == prefix;
    assert d[|d| - |suffix|..] == suffix;
    assert d[|prefix|..|d| - |suffix|] == content;
    if Unframe(prefix, suffix, data) == Some(content) {
      assert data == data[..|prefix|] + data[|prefix|..|data| - |suffix|] + data[|data| - |suffix|..];
    }
  }

  /** Reads the body back out of an exported document. */
  function ExportedBody(data: string): Option<string> {
    Unframe(ByteOrderMark + ExportHeader, ExportFooter, data)
  }

  /** Reading an export back yields exactly the markup that was exported, and
      only exports read back. */
  lemma ExportRoundTrip(content: string, data: string)
    ensures ExportedBody(ExportDocument(content)) == Some(content)
    ensures ExportedBody(data) == Some(content) ==> data == ExportDocument(content)
  {
    FramedRoundTrip(ByteOrderMark + ExportHeader, ExportFooter, content, data);
  }

  /** The file the export hands to the browser. */
  datatype ExportedFile = ExportedFile(name: string, mimeType: string, data: string)

  // ---------------------------------------------------------------------------
  // Application state

  class AppState {
    var config: GenerationConfig
    var isLoading: bool
    var isFileProcessing: bool
    var generatedHtml: string
    var error: Option<string>

    /** Between handlers nothing is in progress, and the selection is a set of
        distinct catalog keys. */
    ghost predicate Valid()
      reads this
    {
      !isLoading && !isFileProcessing && WellFormedSelection(config.selectedIntegrations)
    }

    constructor ()
      ensures Valid()
      ensures config == DefaultConfig && generatedHtml == "" && error == None
    {
      config := DefaultConfig;
      isLoading := false;
      isFileProcessing := false;
      generatedHtml := "";
      error := None;
      assert multiset(["NLS"])["NLS"] == 1;
    }

    /** A checkbox of the catalog was clicked. */
    method ToggleIntegration(key: string)
      requires Valid() && key in IntegrationKeys
      modifies this
      ensures Valid()
      ensures config == ToggledConfig(old(config), key)
      ensures generatedHtml == old(generatedHtml) && error == old(error)
    {
      ToggleKeepsSelectionWellFormed(config.selectedIntegrations, key);
      config := ToggledConfig(config, key);
    }

    /** A file was chosen (None: the picker was dismissed). On success the
        text replaces the source text; on failure the source text is kept and
        the fixed read error is shown. */
    method HandleFileUpload(file: Option<UploadedFile>)
      requires Valid()
      modifies this
      ensures Valid()
      ensures generatedHtml == old(generatedHtml)
      ensures file.None? ==> config == old(config) && error == old(error)
      ensures file.Some? ==>
        match ExtractedText(file.value)
        case Some(text) => config == old(config).(inputData := text) && error == None
        case None => config == old(config) && error == Some(ReadErrorMessage)
    {
      if file.None? {
        return;
      }
      isFileProcessing := true;
      error := None;
      var text := ReadUpload(file.value);
      if text.Some? {
        config := config.(inputData := text.value);
      } else {
        error := Some(ReadErrorMessage);
      }
      assert config.selectedIntegrations == old(config.selectedIntegrations);
      isFileProcessing := false;
    }

    /** The generate button was clicked. The two guards stop it with their
        message before any request; otherwise the generation runs. */
    method HandleGenerate(response: GeminiService.Response)
      returns (request: Option<GeminiService.Request>, renders: seq<Snapshot>)
      requires Valid()
      modifies this
      ensures Valid() && config == old(config)
      ensures Rejection(config).Some? ==>
        request == None && renders == [] && error == Rejection(config) && generatedHtml == old(generatedHtml)
      ensures Rejection(config).None? ==>
        && request == (if response.Stream? then Some(GeminiService.BuildRequest(config)) else None)
        && renders == Progress(GeminiService.Reports(response))
        && generatedHtml == renders[|renders| - 1].output
        && error == GenerationError(response)
    {
      var rejection := Rejection(config);
      if rejection.Some? {
        ShowError(rejection.value);
        return None, [];
      }
      request, renders := RunGeneration(response);
    }

    /** A guard stops the generation: its message goes to the banner. */
    method ShowError(message: string)
      requires Valid()
      modifies this
      ensures Valid() && config == old(config) && generatedHtml == old(generatedHtml)
      ensures error == Some(message)
    {
      error := Some(message);
    }

    /** The part of the generate handler after the guards. Loading is switched
        on, the error cleared and the output emptied; every value handed to
        the callback then replaces the output; once the call settles the
        banner shows its error, if any, and loading is switched off.
        `renders` lists the states the form passes through until then. */
    method RunGeneration(response: GeminiService.Response)
      returns (request: Option<GeminiService.Request>, renders: seq<Snapshot>)
      requires Valid()
      modifies this
      ensures Valid() && config == old(config)
      ensures request == if response.Stream? then Some(GeminiService.BuildRequest(config)) else None
      ensures renders == Progress(GeminiService.Reports(response))
      ensures generatedHtml == renders[|renders| - 1].output
      ensures error == GenerationError(response)
    {
      isLoading := true;
      error := None;
      generatedHtml := "";
      var result, updates;
      request, result, updates := GeminiService.GenerateAppendix(config, response, true);
      renders := ApplyUpdates(updates);
      if result.Err? {
        error := Some(ErrorText(result.message));
      }
      isLoading := false;
    }

    /** The callback `setGeneratedHtml(updatedText)`, run once per value while
        loading is on and the error is cleared. `renders` records the state
        of the form before the first value and after each one. */
    method ApplyUpdates(updates: seq<string>) returns (renders: seq<Snapshot>)
      requires isLoading && error == None && generatedHtml == ""
      modifies this
      ensures renders == Progress(updates)
      ensures isLoading && error == None && generatedHtml == renders[|renders| - 1].output
      ensures config == old(config) && isFileProcessing == old(isFileProcessing)
    {
      renders := [Snapshot(generatedHtml, error, isLoading)];
      var j := 0;
      while j < |updates|
        invariant 0 <= j <= |updates|
        invariant renders == Progress(updates[..j])
        invariant isLoading && error == None && generatedHtml == renders[|renders| - 1].output
        invariant config == old(config) && isFileProcessing == old(isFileProcessing)
      {
        assert updates[..j + 1][..j] == updates[..j];
        generatedHtml := updates[j];
        renders := renders + [Snapshot(generatedHtml, error, isLoading)];
        j := j + 1;
      }
      assert updates[..j] == updates;
    }

    /** The export button: the file name and the document text handed to the browser. */
    method ExportToWord(previewHtml: Option<string>) returns (file: ExportedFile)
      ensures file.name == ExportFileName(config) && file.mimeType == WordMimeType
      ensures ExportedBody(file.data) == Some(ExportContent(previewHtml, generatedHtml))
    {
      var content := ExportContent(previewHtml, generatedHtml);
      file := ExportedFile(ExportFileName(config), WordMimeType, ExportDocument(content));
      ExportRoundTrip(content, file.data);
    }
  }
}
