/**
 * What the toolbar components share through the editor context: the editor
 * instance (absent until the editor mounts) and the formats at the selection,
 * re-read on request.
 */
module ToolbarContext {
  import opened Wrappers
  import opened Document

  /** JavaScript truthiness of a format value read from the engine: absent and `""` are falsy. */
  predicate FormatTruthy(v: Option<Fmt>) {
    v.Some? && (v.value.FStr? ==> v.value.s != "")
  }

  /** The value of format `name` in a format map, absent when the key is missing. */
  function FormatOf(formats: Attrs, name: string): (r: Option<Fmt>)
    ensures r.Some? <==> name in formats
    ensures r.Some? ==> r.value == formats[name]
  {
    if name in formats then Some(formats[name]) else None
  }

  class QuillContext {
    /** The editor, `null` before it mounts. */
    var quill: Editor?
    /** The formats at the selection as last read. */
    var formats: Attrs

    constructor (quill: Editor?)
      ensures this.quill == quill && formats == map[]
    {
      this.quill := quill;
      formats := map[];
    }

    /** `refreshFormats`: re-read the formats at the selection; nothing without an editor. */
    method RefreshFormats()
      modifies this
      ensures quill == old(quill)
      ensures formats == if quill != null then quill.formats else old(formats)
    {
      if quill == null {
        return;
      }
      formats := quill.formats;
    }
  }
}
