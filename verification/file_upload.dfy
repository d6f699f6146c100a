/** The event handlers of the `FileUpload` component: a gate over the
    local `{dragging, selected}` state that forwards PDF files to the
    parent's `onFileSelect`. The object URL the browser mints for an
    accepted file arrives with the event; a missing file list is the
    empty sequence. */
module FileUpload {
  import opened Common
  import opened Types

  /** The component's `useState` hooks. */
  datatype Intake = Intake(dragging: bool, selected: Option<File>)

  /** The DOM events the component handles. */
  datatype Event =
    | DragOver
    | DragLeave
    | Drop(files: seq<File>, objectUrl: string)
    | Input(files: seq<File>, objectUrl: string)
    | Clear

  /** The new local state, the `FileData` handed to `onFileSelect` (if
      any) and whether the user was alerted. */
  datatype Reaction = Reaction(state: Intake, notified: Option<FileData>, alerted: bool)

  predicate IsPdf(f: File) {
    f.mimeType == PdfMimeType
  }

  /** `processFile`: only an exact `application/pdf` type is accepted. */
  function ProcessFile(st: Intake, file: File, objectUrl: string): (r: Reaction)
    ensures r.notified.Some? <==> IsPdf(file)
    ensures r.alerted <==> !IsPdf(file)
    ensures r.state.dragging == st.dragging
    ensures IsPdf(file) ==> r.state.selected == Some(file) && r.notified.value == FileData(file, objectUrl)
    ensures !IsPdf(file) ==> r.state == st
  {
    if IsPdf(file) then Reaction(st.(selected := Some(file)), Some(FileData(file, objectUrl)), false)
    else Reaction(st, None, true)
  }

  /** `handleDragOver`: shows the drag highlight unless disabled. */
  function HandleDragOver(st: Intake, disabled: bool): (r: Intake)
    ensures r.selected == st.selected
    ensures r.dragging <==> !disabled || st.dragging
  {
    if !disabled then st.(dragging := true) else st
  }

  /** `handleDragLeave`: always clears the drag highlight. */
  function HandleDragLeave(st: Intake): (r: Intake)
    ensures !r.dragging && r.selected == st.selected
  {
    st.(dragging := false)
  }

  /** `handleDrop`: clears the highlight, then processes the first dropped
      file unless disabled. */
  function HandleDrop(st: Intake, disabled: bool, files: seq<File>, objectUrl: string): (r: Reaction)
    ensures !r.state.dragging
    ensures r.notified.Some? <==> !disabled && |files| > 0 && IsPdf(files[0])
    ensures r.notified.Some? ==> r.notified.value == FileData(files[0], objectUrl)
    ensures r.alerted <==> !disabled && |files| > 0 && !IsPdf(files[0])
    ensures r.state.selected == (if r.notified.Some? then Some(files[0]) else st.selected)
  {
    var cleared := st.(dragging := false);
    if disabled || |files| == 0 then Reaction(cleared, None, false)
    else ProcessFile(cleared, files[0], objectUrl)
  }

  /** `handleFileInput`: processes the first chosen file. The handler has no
      disabled check of its own; the input element is disabled instead. */
  function HandleFileInput(st: Intake, files: seq<File>, objectUrl: string): (r: Reaction)
    ensures r.state.dragging == st.dragging
    ensures r.notified.Some? <==> |files| > 0 && IsPdf(files[0])
    ensures r.notified.Some? ==> r.notified.value == FileData(files[0], objectUrl)
    ensures r.state.selected == (if r.notified.Some? then Some(files[0]) else st.selected)
  {
    if |files| == 0 then Reaction(st, None, false)
    else ProcessFile(st, files[0], objectUrl)
  }

  /** `clearFile`: drops the local selection only. */
  function ClearFile(st: Intake): (r: Intake)
    ensures r.selected.None? && r.dragging == st.dragging
  {
    st.(selected := None)
  }

  /** Dispatch of one DOM event to its handler. */
  function React(st: Intake, disabled: bool, e: Event): (r: Reaction)
    ensures e.Clear? ==> r.notified.None? && r.state.selected.None?
    ensures e.DragOver? || e.DragLeave? ==> r.notified.None? && r.state.selected == st.selected
  {
    match e
    case DragOver => Reaction(HandleDragOver(st, disabled), None, false)
    case DragLeave => Reaction(HandleDragLeave(st), None, false)
    case Drop(files, url) => HandleDrop(st, disabled, files, url)
    case Input(files, url) => HandleFileInput(st, files, url)
    case Clear => Reaction(ClearFile(st), None, false)
  }

  /** The local selection, when present, is a PDF. */
  predicate Valid(st: Intake) {
    st.selected.Some? ==> IsPdf(st.selected.value)
  }

  /** Every handler keeps the selection a PDF, and anything it hands to the
      parent is a PDF that is now the selection. */
  lemma ReactKeepsValid(st: Intake, disabled: bool, e: Event)
    requires Valid(st)
    ensures Valid(React(st, disabled, e).state)
    ensures React(st, disabled, e).notified.Some? ==>
      && IsPdf(React(st, disabled, e).notified.value.file)
      && React(st, disabled, e).state.selected == Some(React(st, disabled, e).notified.value.file)
  {
  }

  /** The files a sequence of events hands to the parent, in order, and
      the local state it leaves. */
  function Replay(st: Intake, disabled: bool, events: seq<Event>): (r: (Intake, seq<FileData>))
    requires Valid(st)
    ensures Valid(r.0)
    ensures forall k :: 0 <= k < |r.1| ==> IsPdf(r.1[k].file)
    ensures |r.1| <= |events|
    decreases |events|
  {
    if events == [] then (st, [])
    else
      var step := React(st, disabled, events[0]);
      ReactKeepsValid(st, disabled, events[0]);
      var rest := Replay(step.state, disabled, events[1..]);
      var sent := if step.notified.Some? then [step.notified.value] else [];
      (rest.0, sent + rest.1)
  }

  /** A disabled component with no file input events hands nothing to the
      parent, however many drags and drops it sees. */
  lemma {:induction false} DisabledDropsNothing(st: Intake, events: seq<Event>)
    requires Valid(st)
    requires forall k :: 0 <= k < |events| ==> !events[k].Input?
    ensures Replay(st, true, events).1 == []
    decreases |events|
  {
    if events != [] {
      DisabledDropsNothing(React(st, true, events[0]).state, events[1..]);
    }
  }
}
