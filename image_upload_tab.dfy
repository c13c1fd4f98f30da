/**
 * The image dialog's upload tab: a drop zone and file picker that read an
 * image file into a data URL preview, and hand that URL over on insert. The
 * drop zone is highlighted while a drag is over it, tracked by counting
 * enter and leave events (children of the zone fire their own).
 */
module ImageUploadTab {
  import opened Wrappers
  import opened Text
  import opened ImageDialog
  import ImageDrop

  const ERROR_INVALID_FILE := "Please select a valid image file."
  const ERROR_READ_FAILED := "Failed to read the file. Please try again."

  datatype DragEvent = DragEnter | DragLeave | Drop

  /** The drag counter and the highlight flag. */
  datatype DragState = DragState(counter: int, active: bool)

  /** The drag handlers: enter counts up and highlights, leave counts down and un-highlights at zero or below, drop resets. */
  function DragStep(s: DragState, e: DragEvent): DragState {
    match e
    case DragEnter => DragState(s.counter + 1, true)
    case DragLeave => DragState(s.counter - 1, if s.counter - 1 <= 0 then false else s.active)
    case Drop => DragState(0, false)
  }

  /** The events applied in order. */
  function Run(s: DragState, events: seq<DragEvent>): DragState
    decreases |events|
  {
    if events == [] then s else Run(DragStep(s, events[0]), events[1..])
  }

  /** The highlight shows exactly while some entered element has not been left. */
  predicate InSync(s: DragState) {
    s.counter >= 0 && (s.active <==> s.counter > 0)
  }

  /** Every leave follows an unmatched enter since the last drop, as the browser pairs them. */
  predicate Matched(s: DragState, events: seq<DragEvent>)
    decreases |events|
  {
    events == [] || ((events[0] == DragLeave ==> s.counter > 0) && Matched(DragStep(s, events[0]), events[1..]))
  }

  lemma DragStepKeepsSync(s: DragState, e: DragEvent)
    requires InSync(s) && (e == DragLeave ==> s.counter > 0)
    ensures InSync(DragStep(s, e))
  {
  }

  /** Paired events keep the highlight in step with the counter. */
  lemma {:induction false} RunKeepsSync(s: DragState, events: seq<DragEvent>)
    requires InSync(s) && Matched(s, events)
    ensures InSync(Run(s, events))
    decreases |events|
  {
    if events != [] {
      DragStepKeepsSync(s, events[0]);
      RunKeepsSync(DragStep(s, events[0]), events[1..]);
    }
  }

  /** A leave with no enter before it drives the counter below zero, and the next enter highlights the zone at count zero. */
  lemma UnmatchedLeaveDesyncs()
    ensures Run(DragState(0, false), [DragLeave, DragEnter]) == DragState(0, true)
    ensures !InSync(Run(DragState(0, false), [DragLeave, DragEnter]))
  {
    assert [DragLeave, DragEnter][1..] == [DragEnter];
    assert Run(DragState(0, false), [DragLeave, DragEnter]) == Run(DragState(-1, false), [DragEnter]);
  }

  class UploadTab {
    var dragCounter: int
    var isDragActive: bool
    var previewUrl: string
    var fileName: string
    var isReading: bool
    var error: string
    /** Reads started and not yet finished; nothing cancels them. */
    var pendingReads: nat
    var calls: seq<DialogCall>

    function Drag(): DragState
      reads this
    {
      DragState(dragCounter, isDragActive)
    }

    /** The loading flag is only up while a read is in flight. */
    predicate Valid()
      reads this
    {
      isReading ==> pendingReads > 0
    }

    constructor ()
      ensures Valid() && Drag() == DragState(0, false) && InSync(Drag())
      ensures previewUrl == "" && fileName == "" && error == "" && !isReading && pendingReads == 0 && calls == []
    {
      dragCounter := 0;
      isDragActive := false;
      previewUrl := "";
      fileName := "";
      isReading := false;
      error := "";
      pendingReads := 0;
      calls := [];
    }

    /** The state `handleFile(file)` leaves: fields reset, then an error for a non-image, or a read started for an image. */
    twostate predicate FileHandled(file: Option<ImageDrop.File>)
      reads this
    {
      && previewUrl == "" && calls == old(calls)
      && match file
         case None => fileName == "" && error == "" && isReading == old(isReading) && pendingReads == old(pendingReads)
         case Some(f) =>
           if ImageDrop.IsImageType(f.mime) then
             fileName == f.name && error == "" && isReading && pendingReads == old(pendingReads) + 1
           else
             fileName == "" && error == ERROR_INVALID_FILE && isReading == old(isReading) && pendingReads == old(pendingReads)
    }

    /** `handleFile` (also the file input's change handler, with its first file). */
    method HandleFile(file: Option<ImageDrop.File>)
      requires Valid()
      modifies this
      ensures Valid() && FileHandled(file) && Drag() == old(Drag())
    {
      error := "";
      previewUrl := "";
      fileName := "";
      if file.None? {
        return;
      }
      if !ImageDrop.IsImageType(file.value.mime) {
        error := ERROR_INVALID_FILE;
        return;
      }
      fileName := file.value.name;
      isReading := true;
      pendingReads := pendingReads + 1;
    }

    /** A read finishes: its result (or `""` when it is not a string) becomes the preview, and loading ends. */
    method ReadLoaded(result: Option<string>)
      requires Valid() && pendingReads > 0
      modifies this
      ensures Valid() && previewUrl == result.GetOr("") && !isReading && pendingReads == old(pendingReads) - 1
      ensures fileName == old(fileName) && error == old(error) && calls == old(calls) && Drag() == old(Drag())
    {
      previewUrl := result.GetOr("");
      isReading := false;
      pendingReads := pendingReads - 1;
    }

    /** A read fails: the error is shown and loading ends. */
    method ReadFailed()
      requires Valid() && pendingReads > 0
      modifies this
      ensures Valid() && error == ERROR_READ_FAILED && !isReading && pendingReads == old(pendingReads) - 1
      ensures previewUrl == old(previewUrl) && fileName == old(fileName) && calls == old(calls) && Drag() == old(Drag())
    {
      error := ERROR_READ_FAILED;
      isReading := false;
      pendingReads := pendingReads - 1;
    }

    method HandleDragEnter()
      modifies this
      ensures Drag() == DragStep(old(Drag()), DragEnter)
      ensures previewUrl == old(previewUrl) && fileName == old(fileName) && error == old(error)
      ensures isReading == old(isReading) && pendingReads == old(pendingReads) && calls == old(calls)
    {
      dragCounter := dragCounter + 1;
      isDragActive := true;
    }

    method HandleDragLeave()
      modifies this
      ensures Drag() == DragStep(old(Drag()), DragLeave)
      ensures previewUrl == old(previewUrl) && fileName == old(fileName) && error == old(error)
      ensures isReading == old(isReading) && pendingReads == old(pendingReads) && calls == old(calls)
    {
      dragCounter := dragCounter - 1;
      if dragCounter <= 0 {
        isDragActive := false;
      }
    }

    /** `handleDrop`: reset the drag state, then handle the first dropped file. */
    method HandleDrop(file: Option<ImageDrop.File>)
      requires Valid()
      modifies this
      ensures Valid() && Drag() == DragStep(old(Drag()), Drop) && FileHandled(file)
    {
      dragCounter := 0;
      isDragActive := false;
      HandleFile(file);
    }

    /** The insert button is disabled without a preview or while a read is loading. */
    predicate InsertDisabled()
      reads this
    {
      previewUrl == "" || isReading
    }

    /** `handleClear`: error, preview and file name emptied; reads in flight go on. */
    method HandleClear()
      modifies this
      ensures previewUrl == "" && fileName == "" && error == ""
      ensures isReading == old(isReading) && pendingReads == old(pendingReads) && calls == old(calls) && Drag() == old(Drag())
    {
      error := "";
      previewUrl := "";
      fileName := "";
    }

    /** `handleInsert`: nothing without a preview; else hand the preview over, close, and clear. */
    method HandleInsert()
      modifies this
      ensures old(previewUrl) == "" ==> calls == old(calls) && error == old(error) && fileName == old(fileName)
      ensures old(previewUrl) != "" ==>
        calls == old(calls) + [InsertCall(old(previewUrl)), CloseCall] && previewUrl == "" && fileName == "" && error == ""
      ensures isReading == old(isReading) && pendingReads == old(pendingReads) && Drag() == old(Drag())
      ensures old(previewUrl) == "" ==> previewUrl == ""
    {
      if previewUrl == "" {
        return;
      }
      calls := calls + [InsertCall(previewUrl), CloseCall];
      HandleClear();
    }
  }

  /** Dropping a PNG whose read yields a data URL enables insert, which hands that URL over and clears the tab. */
  method DropThenInsert()
  {
    var tab := new UploadTab();
    tab.HandleDragEnter();
    assert "image/png"[..6] == "image/";
    tab.HandleDrop(Some(ImageDrop.File("photo.png", "image/png")));
    assert tab.fileName == "photo.png" && tab.isReading && tab.InsertDisabled();
    tab.ReadLoaded(Some("data:image/png;base64,AAAA"));
    assert !tab.InsertDisabled() && InSync(tab.Drag());
    tab.HandleInsert();
    assert tab.calls == [InsertCall("data:image/png;base64,AAAA"), CloseCall];
    assert tab.previewUrl == "" && tab.fileName == "";
  }

  /** A text file is refused with the error message and no read starts. */
  method DropTextFile()
  {
    var tab := new UploadTab();
    assert "text/plain"[0] == 't';
    tab.HandleDrop(Some(ImageDrop.File("notes.txt", "text/plain")));
    assert tab.error == ERROR_INVALID_FILE && tab.pendingReads == 0 && tab.InsertDisabled();
  }
}
