/** The state of `App` and one run of `startConversion`. React's state
    setters become a trace: every step written, every progress message
    shown, the request sent to the generation service, and the state left
    behind. The awaited helpers are inputs: the base64 encoding either
    yields its text or throws, the API key is the environment's, and the
    service's reply is fixed in advance. The two simulated delays do
    nothing observable and are dropped. */
module Conversion {
  import opened Common
  import opened Types
  import Generation

  const ReadingMessage := "Reading PDF file..."
  const AnalyzingMessage := "Analyzing PDF for images and diagrams..."
  const GeneratingMessage := "Generating LaTeX with Gemini 3.0 Pro (This may take a moment)..."
  const DefaultErrorMessage := "An unexpected error occurred during conversion."

  /** The `useState` hooks of `App`. */
  datatype AppState = AppState(
    fileData: Option<FileData>,
    config: CloudConfig,
    step: ProcessingStep,
    output: string,
    error: Option<string>,
    progress: string)

  /** What one `startConversion` call wrote, in order, and where it ended. */
  datatype Run = Run(
    steps: seq<ProcessingStep>,
    messages: seq<string>,
    sent: Option<Generation.Request>,
    final: AppState)

  /** `isProcessing`: a run is between its first step and its end. */
  predicate IsProcessing(step: ProcessingStep) {
    step != Idle && step != Completed && step != Failed
  }

  /** The convert button is rendered. */
  predicate ConvertShown(st: AppState) {
    st.fileData.Some? && st.output == "" && st.step != Failed
  }

  /** The convert button is rendered and clickable. */
  predicate ConvertEnabled(st: AppState) {
    ConvertShown(st) && !IsProcessing(st.step)
  }

  /** Position of a step in the forward order of a run. */
  function Rank(step: ProcessingStep): nat {
    match step
    case Idle => 0
    case ReadingPdf => 1
    case ExtractingImages => 2
    case UploadingImages => 3
    case GeneratingLatex => 4
    case Completed => 5
    case Failed => 5
  }

  /** `isProcessing` holds exactly for the four in-flight steps. */
  lemma IsProcessingSteps(step: ProcessingStep)
    ensures IsProcessing(step) <==> step in {ReadingPdf, ExtractingImages, UploadingImages, GeneratingLatex}
    ensures IsProcessing(step) <==> 0 < Rank(step) < 5
  {
  }

  /** `handleFileSelect`: stores the file and resets the run. */
  function HandleFileSelect(st: AppState, data: FileData): (r: AppState)
    ensures r.fileData == Some(data) && r.config == st.config && r.progress == st.progress
    ensures r.step == Idle && r.output == "" && r.error.None?
    ensures ConvertEnabled(r)
  {
    st.(fileData := Some(data), error := None, output := "", step := Idle)
  }

  /** `err.message || default`: the text shown for a thrown error is never empty. */
  function ErrorText(message: string): (r: string)
    ensures r != ""
    ensures message != "" ==> r == message
    ensures message == "" ==> r == DefaultErrorMessage
  {
    if message == "" then DefaultErrorMessage else message
  }

  /** The progress message of the simulated upload. */
  function UploadMessage(p: Provider): (r: string)
    ensures p == GDrive ==> r == "Simulating upload to Google Drive..."
    ensures p != GDrive ==> r == "Simulating upload to OneDrive..."
  {
    "Simulating upload to " + (if p == GDrive then "Google Drive" else "OneDrive") + "..."
  }

  /** The steps written before generation when the provider is a cloud one. */
  function CloudSteps(p: Provider): seq<ProcessingStep> {
    if p != NoCloud then [ExtractingImages, UploadingImages] else []
  }

  function CloudMessages(p: Provider): seq<string> {
    if p != NoCloud then [AnalyzingMessage, UploadMessage(p)] else []
  }

  /** `startConversion`. There is no busy check: a run starts from whatever
      state it is given, provided a file is selected. */
  function StartConversion(st: AppState, apiKey: Option<string>, encoded: Result<string, string>,
                           reply: Generation.Reply): (run: Run)
    // without a file nothing happens
    ensures st.fileData.None? ==> run == Run([], [], None, st)
    // the file and configuration are never written
    ensures run.final.fileData == st.fileData && run.final.config == st.config
    // a run starts reading and ends completed or failed
    ensures st.fileData.Some? ==>
      && 2 <= |run.steps|
      && run.steps[0] == ReadingPdf
      && run.final.step == run.steps[|run.steps| - 1]
      && (run.final.step == Completed || run.final.step == Failed)
      && 1 <= |run.messages| && run.messages[0] == ReadingMessage
      && run.final.progress == run.messages[|run.messages| - 1]
    // a failed encoding ends the run straight away and sends nothing
    ensures st.fileData.Some? && encoded.Failure? ==>
      && run.steps == [ReadingPdf, Failed]
      && run.sent.None?
      && run.final.error == Some(ErrorText(encoded.error))
    // the two placeholder steps appear exactly for a cloud provider
    ensures st.fileData.Some? && encoded.Success? && st.config.provider == NoCloud ==>
      |run.steps| == 3 && run.steps[..2] == [ReadingPdf, GeneratingLatex]
    ensures st.fileData.Some? && encoded.Success? && st.config.provider != NoCloud ==>
      && |run.steps| == 5
      && run.steps[..4] == [ReadingPdf, ExtractingImages, UploadingImages, GeneratingLatex]
      && 3 <= |run.messages| && run.messages[2] == UploadMessage(st.config.provider)
    ensures st.config.provider == NoCloud ==> ExtractingImages !in run.steps && UploadingImages !in run.steps
    // success stores the generator's text exactly
    ensures st.fileData.Some? ==> (run.final.step == Completed <==>
      encoded.Success? &&
      Generation.GenerateLatex(apiKey, encoded.value, st.config, reply).result.Success?)
    ensures st.fileData.Some? && run.final.step == Completed ==>
      run.final.output == Generation.GenerateLatex(apiKey, encoded.value, st.config, reply).result.value
      && run.final.error == st.error
    // failure shows a non-empty message and leaves the output alone
    ensures st.fileData.Some? && run.final.step == Failed ==>
      run.final.output == st.output && run.final.error.Some? && run.final.error.value != ""
    // a generation failure shows the thrown message, or the default when it is empty
    ensures st.fileData.Some? && encoded.Success? && run.final.step == Failed ==>
      run.final.error == Some(ErrorText(Generation.GenerateLatex(apiKey, encoded.value, st.config, reply).result.error.Message()))
    ensures st.fileData.Some? && encoded.Success? ==>
      run.sent == Generation.GenerateLatex(apiKey, encoded.value, st.config, reply).sent
  {
    if st.fileData.None? then Run([], [], None, st)
    else
      match encoded
      case Failure(m) =>
        Run([ReadingPdf, Failed], [ReadingMessage], None,
            st.(step := Failed, progress := ReadingMessage, error := Some(ErrorText(m))))
      case Success(base64) =>
        var p := st.config.provider;
        var call := Generation.GenerateLatex(apiKey, base64, st.config, reply);
        var messages := [ReadingMessage] + CloudMessages(p) + [GeneratingMessage] + call.progress;
        var last := messages[|messages| - 1];
        match call.result
        case Success(latex) =>
          Run([ReadingPdf] + CloudSteps(p) + [GeneratingLatex, Completed], messages, call.sent,
              st.(output := latex, step := Completed, progress := last))
        case Failure(e) =>
          Run([ReadingPdf] + CloudSteps(p) + [GeneratingLatex, Failed], messages, call.sent,
              st.(step := Failed, error := Some(ErrorText(e.Message())), progress := last))
  }

  /** Steps only move forward within a run, every step but the last is an
      in-flight one, and the last one is terminal. */
  lemma RunMovesForward(st: AppState, apiKey: Option<string>, encoded: Result<string, string>,
                        reply: Generation.Reply)
    ensures var steps := StartConversion(st, apiKey, encoded, reply).steps;
      && (forall i, j :: 0 <= i < j < |steps| ==> Rank(steps[i]) < Rank(steps[j]))
      && (forall i :: 0 <= i < |steps| - 1 ==> IsProcessing(steps[i]))
      && (|steps| > 0 ==> !IsProcessing(steps[|steps| - 1]))
  {
  }

  /** While a run is in flight the convert button is disabled, which is the
      only thing that keeps a second run from starting. */
  lemma NoConvertWhileInFlight(st: AppState, apiKey: Option<string>, encoded: Result<string, string>,
                               reply: Generation.Reply, i: nat)
    requires i < |StartConversion(st, apiKey, encoded, reply).steps| - 1
    ensures !ConvertEnabled(st.(step := StartConversion(st, apiKey, encoded, reply).steps[i]))
  {
  }

  /** A completed run with non-empty output, and any failed run, withdraws
      the convert button. */
  lemma FinishedRunHidesConvert(st: AppState, apiKey: Option<string>, encoded: Result<string, string>,
                                reply: Generation.Reply)
    requires st.fileData.Some?
    ensures var f := StartConversion(st, apiKey, encoded, reply).final;
      ConvertShown(f) <==> f.step == Completed && f.output == ""
  {
  }

  /** Without an API key the run fails with the missing-key message after
      the generating step, and no request goes out. */
  lemma MissingKeyRun(st: AppState, apiKey: Option<string>, base64: string, reply: Generation.Reply)
    requires st.fileData.Some? && !Truthy(apiKey)
    ensures var run := StartConversion(st, apiKey, Success(base64), reply);
      && run.sent.None?
      && run.final.step == Failed
      && run.final.error == Some(Generation.MissingKeyMessage)
      && run.steps[|run.steps| - 2] == GeneratingLatex
      && run.final.progress == GeneratingMessage
  {
  }

  /** A reply that is only an untagged fence around an empty body passes
      the empty-reply check but cleans to the empty text: the run completes
      with no output and the convert button comes back. */
  lemma EmptyCleanOutputReoffersConvert(st: AppState, apiKey: Option<string>, base64: string)
    requires st.fileData.Some? && Truthy(apiKey)
    ensures var f := StartConversion(st, apiKey, Success(base64), Generation.Answered(Some("```\n\n```"))).final;
      f.step == Completed && f.output == "" && ConvertShown(f)
  {
  }

  /** End to end: with a cloud provider and a prefix, the request sent
      tells the generator to reference `prefix/image_01.png`. */
  lemma CloudRunInstructsPrefix(st: AppState, apiKey: Option<string>, base64: string, reply: Generation.Reply)
    requires st.fileData.Some? && Truthy(apiKey)
    requires st.config.provider != NoCloud && st.config.publicUrlPrefix != ""
    ensures var run := StartConversion(st, apiKey, Success(base64), reply);
      && run.sent.Some?
      && Contains(Generation.ImageInstructions(run.sent.value.images),
                  st.config.publicUrlPrefix + "/image_01.png")
  {
    Generation.SentInstructionsNamePrefix(apiKey, base64, st.config, reply);
  }
}
