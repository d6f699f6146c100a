# PDF-to-LaTeX converter: a Dafny model of its conversion core

The application is a browser front end that turns an uploaded PDF into
LaTeX by sending it, with a natural-language prompt, to the Gemini
generation service. This project models its conversion core:

- **Fence clean-up** (`Fence`): the three anchored replacements that strip
  a leading "```latex\n", then a leading "```\n", then a trailing "\n```"
  from the service's reply. The module proves the round trips and the
  slice property, and two counterexamples. One shows a tagged fence whose
  body opens with a fence losing both. The other shows that the clean-up
  is **not** idempotent.
- **Generation guards** (`Generation`): `generateLatexFromPdf`. It covers the
  API-key precondition, the choice between cloud image references and
  TikZ/placeholder instructions, the empty-reply check and the clean-up.
  The service call is an input: `Reply` is what the service answered or
  threw. The request that was sent (if any) is part of the result, so
  "nothing is sent without a key" is a statement about the model.
- **Conversion run** (`Conversion`): `App`'s state as a record, and
  `startConversion` as a function. It takes the state, the environment's
  API key, the outcome of the base64 encoding and the service's reply. It
  returns the trace of step writes, the progress messages, the request sent
  and the final state. Also modelled: `handleFileSelect`, `isProcessing`
  and the condition under which the convert button is shown and enabled.
- **File intake** (`FileUpload`): the drag/drop/input handlers over
  `{dragging, selected}`, the exact `application/pdf` gate, and a replay of
  any event sequence. Every file handed to the parent is a PDF.

`Common` holds `Option`/`Result`, JavaScript string truthiness and a substring predicate; `Types` holds the records of `types.ts`.

Facts about the code that the model makes explicit:

- The clean-up is not idempotent: a second pass can strip a further fence
  (`Fence.NotIdempotent`).
- `startConversion` has no busy check. Only the disabled convert button
  prevents a second run (`Conversion.NoConvertWhileInFlight`).
- A failure keeps only a message string: the thrown error's message, or a
  fixed default text when that message is empty. No error kind and no
  failing step are recorded.
- The empty-reply check runs before the clean-up. A reply of "```\n\n```"
  therefore completes the run with empty output, and the convert button is
  offered again (`Conversion.EmptyCleanOutputReoffersConvert`).

## Model

| member | source | states |
|---|---|---|
| Fence.StripLeading | services/geminiService.ts:86 | a `^`-anchored replacement removes the pattern exactly when the text starts with it (pattern + result = input), else returns the input |
| Fence.StripTrailing | services/geminiService.ts:86 | a `$`-anchored replacement removes the pattern exactly when the text ends with it (result + pattern = input), else returns the input |
| Fence.CleanFence | services/geminiService.ts:86 | the clean-up result is a contiguous slice of the reply, never longer, and equals the reply iff none of the three fences is present |
| Fence.CleanTaggedRoundTrip | services/geminiService.ts:86 | for a body X not starting with three backticks, cleaning "```latex\n"+X+"\n```" gives exactly X |
| Fence.CleanPlainRoundTrip | services/geminiService.ts:86 | for any body X, cleaning "```\n"+X+"\n```" gives exactly X |
| Fence.TaggedBodyOpeningWithFence | services/geminiService.ts:86 | the side condition above is needed: "```latex\n```\nfoo\n```" cleans to "foo", not to its body |
| Fence.NotIdempotent | services/geminiService.ts:86 | cleaning "```latex\n```\nfoo\n```\n```" gives "foo\n```", and cleaning that again gives "foo" |
| Fence.OtherTagKept | services/geminiService.ts:86 | a leading fence tagged other than `latex` survives: the result is a prefix of the input that still opens with three backticks |
| Fence.NewlineEndKept | services/geminiService.ts:86 | when the reply ends in a newline nothing is cut from its end, because `$` anchors at the very end of the text |
| Fence.TrailingFenceWithNewlineUnchanged | services/geminiService.ts:86 | text not opening with backticks and ending in "\n```\n" comes back unchanged |
| Generation.CloudInstructionsMentionPrefix | services/geminiService.ts:21-37 | the cloud image instructions contain the prefix and the example path prefix + "/image_01.png" |
| Generation.GenerateLatex | services/geminiService.ts:9-88 | a missing or empty key fails before any request or progress message; the cloud branch is chosen iff provider is not none and the prefix is non-empty; a missing or empty reply fails with "No response generated"; a thrown service error is passed on; success returns the cleaned non-empty reply |
| Generation.GenerateUnwrapsTaggedFence | services/geminiService.ts:82-88 | a reply wrapped in a `latex` fence is returned as its body |
| Generation.SentInstructionsNamePrefix | services/geminiService.ts:21-37 | with a cloud provider and a prefix, the instructions of the request sent contain prefix + "/image_01.png" |
| Conversion.IsProcessingSteps | App.tsx:69 | `isProcessing` holds exactly for READING_PDF, EXTRACTING_IMAGES, UPLOADING_IMAGES and GENERATING_LATEX |
| Conversion.HandleFileSelect | App.tsx:27-32 | selecting a file stores it, clears output and error, sets the step to IDLE and leaves the convert button shown and enabled |
| Conversion.ErrorText | App.tsx:65 | the error shown is the thrown message, or the fixed default text when that message is empty; it is never empty |
| Conversion.UploadMessage | App.tsx:50 | the upload progress message names Google Drive for 'gdrive' and OneDrive for any other provider |
| Conversion.StartConversion | App.tsx:34-67 | with no file nothing changes; a run starts at READING_PDF and ends COMPLETED or FAILED; an encoding failure gives READING_PDF, FAILED and sends nothing; the placeholder steps appear, in order before GENERATING_LATEX, iff the provider is not none; on success the output is exactly the generator's text; on failure the output is untouched and the error shown is the thrown message (encoding, missing key, empty reply or service error), or the default text when that message is empty; file and configuration are never written |
| Conversion.RunMovesForward | App.tsx:34-67 | the steps of a run strictly advance in the order of `ProcessingStep`; all but the last are in-flight steps and the last is terminal |
| Conversion.NoConvertWhileInFlight | App.tsx:102-106 | at every intermediate step of a run the convert button is disabled |
| Conversion.FinishedRunHidesConvert | App.tsx:102 | after a run the convert button is shown again only when the run completed with empty output |
| Conversion.MissingKeyRun | App.tsx:54-65 | with a missing or empty API key the run fails after GENERATING_LATEX with the missing-key message and sends no request |
| Conversion.EmptyCleanOutputReoffersConvert | App.tsx:57-60 | a reply of an empty untagged fence completes the run with empty output and the convert button shown again |
| Conversion.CloudRunInstructsPrefix | App.tsx:44-57 | with a cloud provider, a prefix and a key, the request sent tells the generator to use prefix + "/image_01.png" |
| FileUpload.ProcessFile | components/FileUpload.tsx:24-32 | a file is accepted iff its type is exactly "application/pdf"; on acceptance it becomes the selection and is handed to the parent once; on rejection the user is alerted and the state is unchanged |
| FileUpload.HandleDragOver | components/FileUpload.tsx:14-17 | drag-over sets the drag flag only when not disabled |
| FileUpload.HandleDragLeave | components/FileUpload.tsx:19-22 | drag-leave always clears the drag flag |
| FileUpload.HandleDrop | components/FileUpload.tsx:34-42 | a drop always clears the drag flag; while disabled it is otherwise ignored; only the first dropped file is processed |
| FileUpload.HandleFileInput | components/FileUpload.tsx:44-48 | only the first chosen file is processed and the drag flag is untouched |
| FileUpload.ClearFile | components/FileUpload.tsx:50-53 | clearing drops the local selection only and notifies nobody |
| FileUpload.React | components/FileUpload.tsx:80-98 | drag events and clearing never hand a file to the parent |
| FileUpload.ReactKeepsValid | components/FileUpload.tsx:24-53 | every handler keeps the selection a PDF, and a file handed to the parent is a PDF that is now the selection |
| FileUpload.Replay | components/FileUpload.tsx:24-53 | over any sequence of events, every file handed to the parent is a PDF and the selection stays a PDF |
| FileUpload.DisabledDropsNothing | components/FileUpload.tsx:34-42 | a disabled component hands nothing to the parent through drags and drops |

## Left out

- The Gemini client and network call (services/geminiService.ts:14, 65-80): replaced by the `Reply` input. The rethrow of its errors (lines 90-93) is the identity and is folded in.
- The `process.env.API_KEY` lookup: an `Option<string>` input.
- `fileToBase64`, `copyToClipboard` and `downloadLatex` live in utils/helpers, which is not part of this model. Encoding is a `Result` input.
- The two simulated delays (App.tsx:47, 51): they only wait, so they are dropped from the trace.
- Async interleaving: one run is modelled as a whole. The model does not cover events arriving while a run is suspended. The UI disabling that prevents them is stated instead.
- Generation.ImageInstructions: keeps only the data-bearing lines of the image instructions (host, example path, placeholder form). The rest of the prompt is prose without checkable content.
- The `onProgress` callback: modelled as the progress messages appended to the run, not as a function value.
- ConfigPanel, LatexOutput and Navbar components: form binding, clipboard/download and static markup.
- In FileUpload: `URL.createObjectURL` (the URL arrives with the event), the alert text and the file-size display. The rendering that swaps the drop zone for the selected-file card is also left out, so the handlers are modelled as callable in every state.
- A missing `files` list is treated like an empty one; both are ignored by the handlers.
- The unused `AppState` interface of types.ts and the `console.error` logging.
