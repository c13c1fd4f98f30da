/**
 * The image drop and paste module: a dropped or pasted image file is read as
 * a data URL and inserted as one image embed, with the caret placed after it.
 * Reading a file is asynchronous, so a started read is a pending entry and its
 * completion is an event method of its own.
 */
module ImageDrop {
  import opened Wrappers
  import opened Text
  import opened Document

  /** A file offered by the browser, with its MIME type. */
  datatype File = File(name: string, mime: string)

  /** A clipboard item: its type, and what `getAsFile()` returns. */
  datatype ClipboardItem = ClipboardItem(mime: string, asFile: Option<File>)

  /** A DOM node, known only by identity. */
  type NodeId = nat

  /** A caret position in the DOM: a container node and an offset inside it. */
  datatype CaretRange = CaretRange(startContainer: NodeId, startOffset: int)

  /**
   * The two caret-from-point APIs as the browser offers them at the drop point:
   * `None` when the API does not exist, `Some(None)` when it exists and finds nothing.
   */
  datatype CaretApis = CaretApis(caretRangeFromPoint: Option<Option<CaretRange>>,
                                 caretPositionFromPoint: Option<Option<CaretRange>>)

  /** A drop: the files of its data transfer (`None` when there is no data transfer) and the caret APIs at the point. */
  datatype DropEvent = DropEvent(files: Option<seq<File>>, apis: CaretApis)

  /** A listener on the editor root. */
  datatype Handler = OnDragOver | OnDrop | OnPaste | OtherHandler(id: nat)
  datatype Listener = Listener(event: string, handler: Handler)

  /** The listeners this module adds to the editor root. */
  const LISTENERS: set<Listener> :=
    {Listener("dragover", OnDragOver), Listener("drop", OnDrop), Listener("paste", OnPaste)}

  /** A file read started by `insertImage`, with the drop offset it was started for. */
  datatype PendingRead = PendingRead(file: File, index: Option<int>)

  predicate IsImageType(mime: string) {
    StartsWith(mime, "image/")
  }

  /** `getRangeFromPoint`: `caretRangeFromPoint` when it exists, else `caretPositionFromPoint` collapsed to a range, else nothing. */
  function RangeFromPoint(apis: CaretApis): Option<CaretRange> {
    match apis.caretRangeFromPoint
    case Some(r) => r
    case None =>
      match apis.caretPositionFromPoint
      case Some(Some(p)) => Some(CaretRange(p.startContainer, p.startOffset))
      case _ => None
  }

  /** When `caretRangeFromPoint` exists its answer is final, even when it finds nothing. */
  lemma RangeFromPointPrefersCaretRange(apis: CaretApis)
    requires apis.caretRangeFromPoint.Some?
    ensures RangeFromPoint(apis) == apis.caretRangeFromPoint.value
  {
  }

  /** A range is found only through an API that exists and answered, and `caretPositionFromPoint` only as the fallback. */
  lemma RangeFromPointSource(apis: CaretApis)
    ensures RangeFromPoint(apis).Some? <==>
      (apis.caretRangeFromPoint.Some? && apis.caretRangeFromPoint.value.Some?)
      || (apis.caretRangeFromPoint.None? && apis.caretPositionFromPoint.Some? && apis.caretPositionFromPoint.value.Some?)
    ensures apis.caretRangeFromPoint.None? && apis.caretPositionFromPoint.Some? ==>
      RangeFromPoint(apis) == apis.caretPositionFromPoint.value
    ensures apis.caretRangeFromPoint.None? && apis.caretPositionFromPoint.None? ==> RangeFromPoint(apis).None?
  {
  }

  /** `getDropIndex`: the offset of the blot under the caret plus the offset inside it; nothing without a range or a blot. */
  function DropIndex(apis: CaretApis, find: NodeId -> BlotLookup): (r: Option<int>)
    ensures r.Some? <==> RangeFromPoint(apis).Some? && find(RangeFromPoint(apis).value.startContainer).BlotAt?
    ensures r.Some? ==>
      r.value == find(RangeFromPoint(apis).value.startContainer).index + RangeFromPoint(apis).value.startOffset
  {
    var range := RangeFromPoint(apis);
    if range.None? then None
    else
      var blot := find(range.value.startContainer);
      if !blot.BlotAt? then None
      else Some(blot.index + range.value.startOffset)
  }

  /** `index ?? range?.index ?? getLength()`: the drop offset, else the selection, else the end of the document. */
  function InsertOffset(dropIndex: Option<int>, selection: Option<Range>, length: nat): (r: int)
    ensures dropIndex.Some? ==> r == dropIndex.value
    ensures dropIndex.None? && selection.Some? ==> r == selection.value.index
    ensures dropIndex.None? && selection.None? ==> r == length
  {
    dropIndex.GetOr(selection.GetOr(Range(length, 0)).index)
  }

  /** The offset of the first clipboard item whose type is an image type. */
  function FirstImageItem(items: seq<ClipboardItem>): (r: Option<nat>)
    ensures r.Some? ==> r.value < |items| && IsImageType(items[r.value].mime)
    ensures r.Some? ==> forall j :: 0 <= j < r.value ==> !IsImageType(items[j].mime)
    ensures r.None? <==> forall j :: 0 <= j < |items| ==> !IsImageType(items[j].mime)
  {
    if items == [] then None
    else if IsImageType(items[0].mime) then Some(0)
    else
      match FirstImageItem(items[1..])
      case None => None
      case Some(k) => Some(k + 1)
  }

  /** The file a paste inserts: the file of the first image item, when it yields one. */
  function PastedFile(items: Option<seq<ClipboardItem>>): Option<File> {
    if items.None? then None
    else
      match FirstImageItem(items.value)
      case None => None
      case Some(k) => items.value[k].asFile
  }

  /** An image item that yields no file stops the scan: a later image item is never used. */
  lemma PasteStopsAtFirstImageItem(first: ClipboardItem, rest: seq<ClipboardItem>)
    requires IsImageType(first.mime) && first.asFile.None?
    ensures PastedFile(Some([first] + rest)).None?
  {
    assert FirstImageItem([first] + rest) == Some(0);
  }

  class ImageDropModule {
    const quill: Editor
    /** The listeners on the editor root. */
    var rootListeners: set<Listener>
    /** File reads started and not yet completed. */
    var pending: seq<PendingRead>

    /** The constructor adds the drag-over, drop and paste listeners to the root. */
    constructor (quill: Editor, rootListeners: set<Listener>)
      ensures this.quill == quill
      ensures this.rootListeners == rootListeners + LISTENERS
      ensures pending == []
    {
      this.quill := quill;
      this.rootListeners := rootListeners + LISTENERS;
      pending := [];
    }

    /** Drag-over always claims the event and asks for a copy when there is a data transfer; it changes no state. */
    method HandleDragOver(hasDataTransfer: bool) returns (prevented: bool, dropEffect: Option<string>)
      ensures prevented
      ensures dropEffect.Some? <==> hasDataTransfer
      ensures dropEffect.Some? ==> dropEffect.value == "copy"
    {
      prevented := true;
      dropEffect := if hasDataTransfer then Some("copy") else None;
    }

    /** `insertImage`: start reading the file; the insertion happens when the read completes. */
    method InsertImage(file: File, index: Option<int>)
      modifies this
      ensures pending == old(pending) + [PendingRead(file, index)]
      ensures rootListeners == old(rootListeners)
    {
      pending := pending + [PendingRead(file, index)];
    }

    /** A drop of an image file starts a read for the drop offset; anything else is ignored. The event is always claimed. */
    method HandleDrop(event: DropEvent, find: NodeId -> BlotLookup) returns (prevented: bool)
      modifies this
      ensures prevented
      ensures rootListeners == old(rootListeners)
      ensures var files := event.files;
        if files.Some? && |files.value| > 0 && IsImageType(files.value[0].mime)
        then pending == old(pending) + [PendingRead(files.value[0], DropIndex(event.apis, find))]
        else pending == old(pending)
    {
      prevented := true;
      if event.files.None? || |event.files.value| == 0 {
        return;
      }
      var file := event.files.value[0];
      if !IsImageType(file.mime) {
        return;
      }
      var dropIndex := DropIndex(event.apis, find);
      InsertImage(file, dropIndex);
    }

    /** A paste scans the clipboard items up to the first image item and reads its file, if it yields one. */
    method HandlePaste(items: Option<seq<ClipboardItem>>) returns (prevented: bool)
      modifies this
      ensures prevented <==> PastedFile(items).Some?
      ensures pending == old(pending) + if prevented then [PendingRead(PastedFile(items).value, None)] else []
      ensures rootListeners == old(rootListeners)
    {
      prevented := false;
      if items.None? {
        return;
      }
      var all := items.value;
      var i := 0;
      while i < |all|
        invariant 0 <= i <= |all|
        invariant forall j :: 0 <= j < i ==> !IsImageType(all[j].mime)
        invariant pending == old(pending) && !prevented
      {
        if IsImageType(all[i].mime) {
          var file := all[i].asFile;
          if file.Some? {
            prevented := true;
            InsertImage(file.value, None);
          }
          assert FirstImageItem(all) == Some(i);
          return;
        }
        i := i + 1;
      }
    }

    /**
     * The read of pending entry `k` completed with the data URL `data`: one image
     * embed is inserted with source user at the drop offset, else the selection,
     * else the end, and the caret is put right after it.
     */
    method ReadCompleted(k: nat, data: string)
      requires k < |pending|
      modifies this, quill
      ensures pending == old(pending[..k] + pending[k + 1..])
      ensures var at := InsertOffset(old(pending[k].index), old(quill.selection), |old(quill.content)|);
        && quill.content == InsertAt(old(quill.content), at, [Embed(ImageEmbed(data), map[])])
        && quill.selection == Some(Range(at + 1, 0))
        && quill.log == old(quill.log) + [InsertEmbedCall(at, ImageEmbed(data), User), SetSelectionCall(at + 1, 0, Api)]
      ensures quill.formats == old(quill.formats) && quill.focused == old(quill.focused)
      ensures rootListeners == old(rootListeners)
    {
      var read := pending[k];
      pending := pending[..k] + pending[k + 1..];
      var insertAt := InsertOffset(read.index, quill.selection, quill.GetLength());
      quill.InsertEmbed(insertAt, ImageEmbed(data), User);
      quill.SetSelection(insertAt + 1, 0, Api);
    }

    /** `destroy` removes exactly the three listeners the constructor added. */
    method Destroy()
      modifies this
      ensures rootListeners == old(rootListeners) - LISTENERS
      ensures pending == old(pending)
    {
      rootListeners := rootListeners - LISTENERS;
    }
  }

  /** A drop of an image at document offset 2 puts the image at 2 and the caret at 3. */
  method DropAtOffsetTwo(data: string)
  {
    var doc := [Char('a', map[]), Char('b', map[]), Char('c', map[])];
    var quill := new Editor(doc, Some(Range(0, 0)), map[]);
    var dropper := new ImageDropModule(quill, {});
    var apis := CaretApis(Some(Some(CaretRange(7, 2))), None);
    var prevented := dropper.HandleDrop(DropEvent(Some([File("photo.png", "image/png")]), apis), n => BlotAt(0));
    assert dropper.pending == [PendingRead(File("photo.png", "image/png"), Some(2))];
    dropper.ReadCompleted(0, data);
    InsertAtSpec(doc, 2, [Embed(ImageEmbed(data), map[])]);
    assert quill.content[2] == Embed(ImageEmbed(data), map[]);
    assert quill.selection == Some(Range(3, 0));
    assert dropper.pending == [];
    dropper.Destroy();
    assert dropper.rootListeners == {};
  }
}
