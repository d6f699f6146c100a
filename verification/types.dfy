/** The records and enumerations of `types.ts`, plus the browser `File`
    object as far as this application looks at it. */
module Types {

  /** `CloudConfig.provider`: 'onedrive' | 'gdrive' | 'none'. */
  datatype Provider = OneDrive | GDrive | NoCloud

  /** `CloudConfig`; `autoUpload` is carried but never read by the core. */
  datatype CloudConfig = CloudConfig(provider: Provider, publicUrlPrefix: string, autoUpload: bool)

  /** `ProcessingStep`, the progress indicator of one conversion run. */
  datatype ProcessingStep =
    | Idle
    | ReadingPdf
    | ExtractingImages
    | UploadingImages
    | GeneratingLatex
    | Completed
    | Failed

  /** A browser `File`: only its name, MIME type and size are observable. */
  datatype File = File(name: string, mimeType: string, size: nat)

  /** `FileData`: the selected file and its object URL. */
  datatype FileData = FileData(file: File, previewUrl: string)

  /** The one MIME type the application accepts and sends. */
  const PdfMimeType := "application/pdf"
}
