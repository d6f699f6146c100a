/** The guard logic of `generateLatexFromPdf`: the API-key precondition, the
    choice of image instructions, the empty-reply check and the fence
    clean-up. The network call itself is an input: `Reply` is what the
    generation service answered or threw for the one request sent. */
module Generation {
  import opened Common
  import opened Types
  import Fence

  const ModelId := "gemini-3-pro-preview"
  const MissingKeyMessage := "API Key is missing via process.env.API_KEY"
  const NoResponseMessage := "No response generated"
  const SendingMessage := "Sending PDF to Gemini 3.0 Pro..."
  /** The file name of the first image in the naming convention the
      instructions impose. */
  const FirstImageName := "image_01.png"

  /** Which image instructions the prompt carries. */
  datatype ImageMode = CloudRefs(prefix: string) | TikzPlaceholders

  /** The one request sent: model, inline PDF payload and image instructions. */
  datatype Request = Request(model: string, mimeType: string, data: string, images: ImageMode)

  /** What the service did with the request: answered with a possibly
      missing text, or threw. */
  datatype Reply = Answered(text: Option<string>) | Threw(message: string)

  /** The errors `generateLatexFromPdf` throws. */
  datatype GenError = MissingApiKey | NoResponse | Upstream(message: string) {
    /** The `message` of the thrown error. */
    function Message(): string {
      match this
      case MissingApiKey => MissingKeyMessage
      case NoResponse => NoResponseMessage
      case Upstream(m) => m
    }
  }

  /** One call: the progress messages it emitted, the request it sent (if
      any) and what it returned or threw. */
  datatype Call = Call(progress: seq<string>, sent: Option<Request>, result: Result<string, GenError>)

  /** The image-instruction branch picked from the cloud configuration. */
  function ChooseImageMode(config: CloudConfig): ImageMode {
    if config.provider != NoCloud && config.publicUrlPrefix != "" then CloudRefs(config.publicUrlPrefix)
    else TikzPlaceholders
  }

  /** The example image path the cloud instructions show. */
  function ExamplePath(prefix: string): string {
    prefix + "/" + FirstImageName
  }

  /** The parts of the image instructions that carry data: the host the
      images live at and the example `\includegraphics` line; the TikZ
      branch names the placeholder comment to emit instead. */
  function ImageInstructions(m: ImageMode): string {
    match m
    case CloudRefs(p) =>
      "cloud host at \"" + p + "\"\n" +
      "\\includegraphics[width=0.8\\linewidth]{" + ExamplePath(p) + "}\n"
    case TikzPlaceholders =>
      "TikZ, or % [IMAGE_PLACEHOLDER: Description]\n"
  }

  /** The cloud instructions name the prefix and the full example path. */
  lemma CloudInstructionsMentionPrefix(p: string)
    ensures Contains(ImageInstructions(CloudRefs(p)), p)
    ensures Contains(ImageInstructions(CloudRefs(p)), p + "/image_01.png")
  {
    var head := "cloud host at \"";
    var s := ImageInstructions(CloudRefs(p));
    assert s[|head|..|head| + |p|] == p;
    var mid := head + p + "\"\n" + "\\includegraphics[width=0.8\\linewidth]{";
    var path := p + "/image_01.png";
    assert s == mid + path + "}\n";
    assert s[|mid|..|mid| + |path|] == path;
  }

  /** `generateLatexFromPdf` with the environment's API key and the
      service's reply as inputs. */
  function GenerateLatex(apiKey: Option<string>, pdfBase64: string, config: CloudConfig, reply: Reply): (c: Call)
    // a missing or empty key fails before anything is sent or reported
    ensures !Truthy(apiKey) ==> c == Call([], None, Failure(MissingApiKey))
    ensures Truthy(apiKey) ==> c.sent.Some? && c.progress == [SendingMessage]
    // the request carries the PDF and the image branch the configuration selects
    ensures c.sent.Some? ==> c.sent.value.data == pdfBase64 && c.sent.value.mimeType == PdfMimeType
    ensures c.sent.Some? ==>
      (c.sent.value.images.CloudRefs? <==> config.provider != NoCloud && config.publicUrlPrefix != "")
    ensures c.sent.Some? && c.sent.value.images.CloudRefs? ==> c.sent.value.images.prefix == config.publicUrlPrefix
    // error cases
    ensures c.result == Failure(NoResponse) <==> Truthy(apiKey) && reply.Answered? && !Truthy(reply.text)
    ensures Truthy(apiKey) && reply.Threw? ==> c.result == Failure(Upstream(reply.message))
    // success returns the cleaned, non-empty reply text
    ensures c.result.Success? <==> Truthy(apiKey) && reply.Answered? && Truthy(reply.text)
    ensures c.result.Success? ==> c.result.value == Fence.CleanFence(reply.text.value)
  {
    if !Truthy(apiKey) then Call([], None, Failure(MissingApiKey))
    else
      var request := Request(ModelId, PdfMimeType, pdfBase64, ChooseImageMode(config));
      var result :=
        match reply
        case Threw(m) => Failure(Upstream(m))
        case Answered(text) =>
          if !Truthy(text) then Failure(NoResponse)
          else Success(Fence.CleanFence(text.value));
      Call([SendingMessage], Some(request), result)
  }

  /** A reply wrapped in a `latex` fence comes back as its body. */
  lemma GenerateUnwrapsTaggedFence(apiKey: Option<string>, pdfBase64: string, config: CloudConfig, x: string)
    requires Truthy(apiKey) && !Fence.StartsWith(x, Fence.Ticks)
    ensures GenerateLatex(apiKey, pdfBase64, config, Answered(Some(Fence.WrapTagged(x)))).result == Success(x)
  {
    Fence.CleanTaggedRoundTrip(x);
  }

  /** In the cloud branch, the instructions of the request sent name the
      example path under the configured prefix. */
  lemma SentInstructionsNamePrefix(apiKey: Option<string>, pdfBase64: string, config: CloudConfig, reply: Reply)
    requires Truthy(apiKey) && config.provider != NoCloud && config.publicUrlPrefix != ""
    ensures GenerateLatex(apiKey, pdfBase64, config, reply).sent.Some?
    ensures Contains(ImageInstructions(GenerateLatex(apiKey, pdfBase64, config, reply).sent.value.images),
                     config.publicUrlPrefix + "/image_01.png")
  {
    CloudInstructionsMentionPrefix(config.publicUrlPrefix);
  }
}
