# react-quill editor extensions, modelled in Dafny

This project models the logic of the Quill extension modules of the
react-quill editor. It also covers the toolbar routines that edit the
document, and proves properties of them.

- **Mention engine** (`mention.dfy`). It handles:
  - detecting an `@` token before the caret;
  - the default suggestion source;
  - dropping stale answers by request id;
  - the wrapping highlight;
  - the atomic commit that replaces the token with a chip and a space.
- **Mention chip** (`mention_blot.dfy`). It writes an entity to the chip's attributes and reads it back.
- **Image resizer** (`image_resize.dfy`). It handles:
  - the active image and its load listener;
  - drag-resize by compass handle, with the 48 px floor and the editor-width cap;
  - alignment margins and the caption;
  - the overlay and toolbar layout;
  - the event guards.
- **Image drop and paste** (`image_drop.dfy`). It covers:
  - the MIME filter;
  - the caret-from-point fall-backs;
  - the drop offset;
  - the first image clipboard item;
  - the embed and caret written when a file read completes.
- **Character counter** (`char_counter.dfy`). It counts non-whitespace characters and shows a label and an exceed class.
- **Link dialog** (`link_dialog.dfy`). It validates, normalises and submits URLs.
- **Image URL tab** (`image_url_tab.dfy`). It validates and submits an image URL.
- **Image upload tab** (`image_upload_tab.dfy`). It tracks file reads and the drag counter.
- **Toolbar routines.** These are the block buttons, the code-block split button, the link button, the mention button and the image button (`block_buttons.dfy`, `code_block_dropdown.dfy`, `link_button.dfy`, `mention_button.dfy`, `image_button.dfy`).

Supporting modules:

- `document.dfy`: the part of the Quill engine the modules use.
  - The document is a sequence of characters and atomic embeds, each with its attributes.
  - The editor is a class holding the content, the selection, the formats at the selection, and a log of every write with its source tag.
- `text.dfy`: the ECMAScript string primitives the code relies on. These are `\s`, `trim()`, `startsWith`, `includes`, `lastIndexOf`, `String(n)`, `Math.max`/`Math.min` and the truncating `%`.
- `url.dfy`: the browser's URL parser, passed in as a function, and ASCII case folding.
- `toolbar_context.dfy`: the shared editor context and `refreshFormats`.
- `wrappers.dfy`, `mention_types.dfy`, `image_dialog.dfy`: the shared `Option`, the suggestion entity, and the callbacks a dialog tab makes.

How the model is built:

- Objects whose fields the source updates become classes with `modifies` clauses.
- Pure rules become functions, with lemmas stating their properties.
- Asynchronous completions are explicit event methods: a file read finishing, a suggestion answer arriving, an animation frame or a timer firing.

## Model

| member | source | states |
|---|---|---|
| Document.Clamp | src/modules/Mention/MentionModule.ts:209 | An offset clamped into the document: offsets inside are kept, offsets below 0 become 0 and offsets past the end become the length. |
| Document.TextItems | src/components/Toolbar/components/LinkButton/LinkButton.tsx:32 | Inserted text becomes one character item per character, each carrying the given attributes. |
| Document.Chars | src/modules/Mention/MentionModule.ts:209 | `getText` omits embeds. The text is never longer than the items, equals them character for character when there is no embed, and is strictly shorter when there is one. |
| Document.CharsAppend | src/modules/Mention/MentionModule.ts:209 | The text of two runs of items is the concatenation of their texts. |
| Document.CharsSkipsEmbed | src/components/Toolbar/components/ImageButton/ImageButton.tsx:18 | An embed inserted anywhere contributes nothing to the document's text. |
| Document.TextItemsChars | src/components/Toolbar/components/LinkButton/LinkButton.tsx:32 | Inserted text reads back as the same text. |
| Document.GetText | src/modules/Mention/MentionModule.ts:209 | `getText(index, length)` never returns more characters than were asked for or than the document holds, and nothing for a length of 0 or less. Embeds are left out of it (`Document.Chars`). |
| Document.InsertAtSpec | src/components/Toolbar/components/buttons/BlockButtons.tsx:25-27 | An insertion inside the document keeps the prefix, places the inserted items at the offset and shifts the rest after them. |
| Document.InsertAt | src/components/Toolbar/components/buttons/BlockButtons.tsx:25-27 | An insertion lengthens the document by exactly the inserted items. Where they go is stated by `Document.InsertAtSpec`. |
| Document.DeleteAt | src/modules/Mention/MentionModule.ts:363 | A length of 0 or less deletes nothing. A range inside the document is cut out: the items before it are kept and the items after it close up. |
| Document.ApplyChanges | src/components/Toolbar/components/LinkButton/LinkButton.tsx:29 | A format change sets every key given a value, removes every key set to `false`, and leaves every other key as it was. |
| Document.FormatAt | src/modules/ImageResize.ts:324-328 | Formatting a range keeps the document's length. |
| Document.FormatKeepsItems | src/modules/ImageResize.ts:324-328 | Formatting changes attributes only: every item keeps its character or embed. |
| Document.FormatKeepsText | src/components/Toolbar/components/LinkButton/LinkButton.tsx:29 | Formatting a range never changes the document's text. |
| Document.Editor.constructor | src/components/Toolbar/components/MentionButton/MentionButton.tsx:10 | An editor holding the given content, selection and formats, unfocused, with no writes yet. |
| Document.Editor.InsertText | src/components/Toolbar/components/MentionButton/MentionButton.tsx:18 | The text is inserted at the clamped offset and the write is logged with its source. The selection and formats do not move. |
| Document.Editor.DeleteText | src/modules/Mention/MentionModule.ts:363 | The range is removed and the write is logged. The selection and formats do not move. |
| Document.Editor.InsertEmbed | src/components/Toolbar/components/ImageButton/ImageButton.tsx:18 | Exactly one embed item is inserted at the clamped offset and the write is logged. |
| Document.Editor.FormatText | src/modules/ImageResize.ts:324-328 | The range is reformatted as `FormatAt` says and the write is logged. |
| Document.Editor.Format | src/components/Toolbar/components/buttons/BlockButtons.tsx:15 | `format` of a block format (`blockquote`, `code-block`): the formats at the selection take the change and the write is logged. The lines' own attributes are the engine's, so the content is unchanged. |
| Document.Editor.FormatInline | src/components/Toolbar/components/LinkButton/LinkButton.tsx:29 | `format` of an inline format: a non-empty selection has its items reformatted as `FormatAt` says; at a caret or without a selection the content is unchanged. The formats at the selection take the change, and the write is logged. |
| Document.Editor.FormatLine | src/components/Toolbar/components/CodeBlockDropdown/CodeBlockDropdown.tsx:70 | The line format is logged. Content, selection and formats stay as they were. |
| Document.Editor.SetSelection | src/components/Toolbar/components/buttons/BlockButtons.tsx:28 | The selection becomes the given range, and nothing else changes. |
| Document.Editor.Update | src/modules/ImageResize.ts:145 | `update` is logged, and nothing else changes. |
| Document.Editor.Focus | src/components/Toolbar/components/MentionButton/MentionButton.tsx:20 | The editor is focused, and nothing else changes. |
| Document.Editor.GetLength | src/modules/ImageDrop/ImageDrop.ts:100 | `getLength()`: the number of items in the document, the offset where an insertion with no drop point and no selection goes (used by `ImageDrop.InsertOffset` and `MentionButton.InsertIndex`). |
| Text.StripWhitespace | src/modules/CharCounter/CharCounter.ts:35 | Removing every `\s` match leaves a string no longer than the input and holding no whitespace. |
| Text.IsWhitespace | src/modules/CharCounter/CharCounter.ts:35 | The characters JavaScript's `\s` matches: the ASCII blanks, no-break space, the Unicode space separators, line and paragraph separators and the byte-order mark; `Text.StripWhitespaceKeeps` states that stripping removes exactly these. |
| Text.StripWhitespaceKeeps | src/modules/CharCounter/CharCounter.ts:35 | Every non-whitespace character survives stripping as often as it occurs. |
| Text.StripWhitespaceAppend | src/modules/CharCounter/CharCounter.ts:35 | Stripping distributes over concatenation. |
| Text.StripWhitespaceIdentity | src/modules/CharCounter/CharCounter.ts:35 | Stripping changes a string exactly when it holds whitespace. |
| Text.TrimFrom | src/components/Toolbar/components/LinkDialog/LinkDialog.tsx:71 | Where `trim()` starts: everything before it is whitespace, and the character there is not. |
| Text.TrimTo | src/components/Toolbar/components/LinkDialog/LinkDialog.tsx:71 | Where `trim()` ends: everything after it is whitespace, and the character before it is not. |
| Text.Trim | src/components/Toolbar/components/LinkDialog/LinkDialog.tsx:71 | The result is empty exactly for an all-whitespace string. Otherwise it is the infix between the first and the last non-whitespace characters. |
| Text.TrimExact | src/components/Toolbar/components/LinkDialog/LinkDialog.tsx:71 | Any infix bounded by non-whitespace characters, with only whitespace outside it, is the trimmed string. |
| Text.TrimPadded | src/components/Toolbar/components/LinkDialog/LinkDialog.tsx:71 | Whitespace added on either side does not change what `trim()` returns. |
| Text.PaddedCore | src/components/Toolbar/components/LinkDialog/LinkDialog.tsx:71 | A padded string trims to the same infix as the unpadded one. |
| Text.PaddedBlank | src/components/Toolbar/components/LinkDialog/LinkDialog.tsx:71 | The whitespace borders of a padded string are the pads plus the string's own borders. |
| Text.PaddedAt | src/components/Toolbar/components/LinkDialog/LinkDialog.tsx:71 | Each character of a padded string comes from the left pad, the string or the right pad, at the matching offset. |
| Text.TrimIdempotent | src/components/Toolbar/components/ImageDialog/components/ImageURLTab/ImageURLTab.tsx:27 | Trimming twice is trimming once. |
| Text.DiffersAtStart | src/components/Toolbar/components/LinkDialog/LinkDialog.tsx:34-38 | A string does not start with a prefix whose first character differs from its own. |
| Text.StartsWith | src/modules/ImageDrop/ImageDrop.ts:45 | `s.startsWith(p)`: `s` begins with `p`; `Text.DiffersAtStart` states that a differing first character rules it out. |
| Text.Includes | src/modules/Mention/MentionModule.ts:58 | `s.includes(t)`: `t` starts at some offset of `s`; the query filter `Mention.Filter` is stated with it. |
| Text.LastIndexOf | src/modules/Mention/MentionModule.ts:210 | The result is -1 or an offset holding the character, and no later offset holds it. |
| Text.DigitChar | src/modules/ImageResize.ts:320-321 | A digit character whose code is `'0'` plus the digit. |
| Text.NatToString | src/modules/CharCounter/CharCounter.ts:38 | `String(n)` is a non-empty run of decimal digits that starts with `0` only for zero. |
| Text.NatToStringRoundTrip | src/modules/CharCounter/CharCounter.ts:38 | The numeral reads back as the number. |
| Text.NatToStringInjective | src/modules/CharCounter/CharCounter.ts:38 | Different numbers are written differently. |
| Text.IntToString | src/modules/CharCounter/CharCounter.ts:38 | A numeral starts with `-` exactly when the integer is negative. |
| Text.IntToStringInjective | src/modules/CharCounter/CharCounter.ts:38 | Different integers are written differently. |
| Text.FirstSpace | src/modules/CharCounter/CharCounter.ts:38 | In a numeral followed by a space, the first space comes right after the numeral. |
| Text.NumeralPrefix | src/modules/CharCounter/CharCounter.ts:38 | A numeral followed by text starting with a space splits in one way only. |
| Text.JsRem | src/modules/Mention/MentionModule.ts:321 | JavaScript `%`, which truncates: a non-negative dividend gives a remainder from 0 up to, but excluding, the divisor's magnitude; a negative dividend gives one from 0 down to, but excluding, minus that magnitude. |
| Text.JsQuot | src/modules/Mention/MentionModule.ts:321 | `Math.trunc(a / b)`, the quotient rounded toward zero that JavaScript's `%` pairs with; its meaning is stated by `Text.JsRemValue`. |
| Text.JsRemValue | src/modules/Mention/MentionModule.ts:321 | For every dividend and non-zero divisor, `a == JsQuot(a, b) * b + JsRem(a, b)`: the remainder is what the truncated quotient leaves. |
| Text.ModSmall | src/modules/Mention/MentionModule.ts:321 | The remainder of a value between 0 and twice the divisor. |
| Url.ToLowerAscii | src/components/Toolbar/components/LinkDialog/LinkDialog.tsx:38 | ASCII upper-case letters map to lower case, and every other character is kept. |
| Url.StartsWithIgnoringCaseOfExact | src/components/Toolbar/components/LinkDialog/LinkDialog.tsx:38 | An exact lower-case prefix is also a prefix ignoring case. |
| Url.StartsWithIgnoringCaseOfLower | src/components/Toolbar/components/LinkDialog/LinkDialog.tsx:38 | On a string without upper-case letters, the two prefix tests agree. |
| ToolbarContext.FormatOf | src/components/Toolbar/components/buttons/BlockButtons.tsx:14-15 | `getFormat()[name]`: present exactly when the key is, with its value. |
| ToolbarContext.QuillContext.constructor | src/context/QuillContext.tsx:19-20 | The context holds the editor, or `null` before mount, and empty formats. |
| ToolbarContext.QuillContext.RefreshFormats | src/context/QuillContext.tsx:22-30 | Re-reads the formats at the selection. Without an editor nothing changes. |
| Mention.Filter | src/modules/Mention/MentionModule.ts:55-59 | `filter` keeps exactly the elements that satisfy the predicate. |
| Mention.FilterKeepsOrder | src/modules/Mention/MentionModule.ts:55-59 | `filter` keeps the original order: its result is a subsequence of the input. |
| Mention.DefaultSource | src/modules/Mention/MentionModule.ts:49-60 | A query that is empty once trimmed and lower-cased returns every default mention. Otherwise the result, in original order, is exactly the defaults whose lower-cased label or value contains the trimmed, lower-cased query. |
| Mention.LastTrigger | src/modules/Mention/MentionModule.ts:207-211 | The nearest `@` item before the caret within the window, or -1; no `@` lies between it and the caret. |
| Mention.WindowStart | src/modules/Mention/MentionModule.ts:207-208 | The search window starts at offset 0 or later, at most `maxChars + 1` before the caret, and exactly that far back when the document reaches so far. |
| Mention.WithFallbacks | src/modules/Mention/MentionModule.ts:213-223 | When `lastIndexOf` found no trigger, an '@' just before the caret, else one at the caret, becomes the trigger; otherwise -1 (close). `Mention.FallbacksNeverOpen` states that when the search window holds no '@' the fall-backs find none either, and the session closes. |
| Mention.CheckTrigger | src/modules/Mention/MentionModule.ts:225-247 | The checks once the trigger is fixed: caret after it, whitespace or document start before it, a query without whitespace and within the bounds. Its cases are stated by `Mention.CheckTriggerSpec`. |
| Mention.DetectAsWritten | src/modules/Mention/MentionModule.ts:200-247 | Detection as the code is written: the trigger is `lastIndexOf('@')` in the window's text, added to the window start. How it relates to `Mention.Detect` is stated by `Mention.AsWrittenAgreesWithoutEmbeds` and `Mention.AsWrittenMisplacesTrigger`. |
| Mention.Detect | src/modules/Mention/MentionModule.ts:200-247 | Detection with the trigger searched in document offsets, the corrected rule of "## Findings". It is sound and complete by `Mention.DetectSound` and `Mention.DetectComplete`. |
| Mention.GetTextOne | src/modules/Mention/MentionModule.ts:231 | A one-offset `getText` is the character there, or empty on an embed. |
| Mention.HasWhitespaceOne | src/modules/Mention/MentionModule.ts:232 | `/\s/` on one character is that character's whitespace test. |
| Mention.CheckTriggerSpec | src/modules/Mention/MentionModule.ts:225-247 | With the trigger before the caret, a session opens exactly when the trigger is at the start or after whitespace and the query fits. The session then holds the text between trigger and caret. |
| Mention.FallbacksNeverOpen | src/modules/Mention/MentionModule.ts:213-228 | Without an `@` in the search window, the two fall-backs for an `@` just before or at the caret never open a session. |
| Mention.DetectSound | src/modules/Mention/MentionModule.ts:200-257 | A detected session has an `@` inside the window, strictly before the caret, with no nearer `@`. It sits at the start or after whitespace, and its query is the whitespace-free text up to the caret, within `[minChars, maxChars]`. |
| Mention.DetectComplete | src/modules/Mention/MentionModule.ts:200-257 | Conversely, a nearest `@` in the window that meets every rule opens a session at that offset with that query. |
| Mention.TypedTokenFacts | src/modules/Mention/MentionModule.ts:238 | After a typed token, the `@` sits at the token start and the query reads back as the typed run. |
| Mention.OpensOnTypedToken | src/modules/Mention/MentionModule.ts:200-257 | `@` typed at the start or after whitespace, followed by a fitting run without `@`, opens a session whose query is that run. |
| Mention.ClosesOnWhitespaceInToken | src/modules/Mention/MentionModule.ts:239-242 | Whitespace anywhere after the nearest `@` keeps the session closed. |
| Mention.TypedTokenTrigger | src/modules/Mention/MentionModule.ts:207-211 | After a typed token, the search finds its `@` exactly when the window reaches it. |
| Mention.LastIndexOfMatchesLastTrigger | src/modules/Mention/MentionModule.ts:209-211 | Over characters only, `lastIndexOf` in the text plus the window start is the nearest `@` item. |
| Mention.AsWrittenAgreesWithoutEmbeds | src/modules/Mention/MentionModule.ts:207-211 | The text-offset search of the code as written detects the same session as the document-offset search whenever the window holds no embed. |
| Mention.WindowTriggersAgree | src/modules/Mention/MentionModule.ts:207-211 | Without embeds in the window, both searches find the same trigger offset. |
| Mention.AsWrittenMisplacesTrigger | src/modules/Mention/MentionModule.ts:207-211 | With a chip before `" @"`, the code as written closes where a session should open at 2. With a chip before `"  @"`, it opens at a space with query `"@"`. |
| Mention.MovedHighlightWraps | src/modules/Mention/MentionModule.ts:316-324 | Down from the last entry wraps to the first, up from the first wraps to the last, and other moves step by one. |
| Mention.MoveHighlightRoundTrip | src/modules/Mention/MentionModule.ts:316-324 | ArrowDown then ArrowUp, or the reverse, returns to the same entry. |
| Mention.MovedHighlight | src/modules/Mention/MentionModule.ts:321 | `(h + direction + n) % n` with JavaScript's `%`. Its wrap-around is stated by `Mention.MovedHighlightWraps`. |
| Mention.SliceFront | src/modules/Mention/MentionModule.ts:268 | `slice(0, end)` is a prefix of length `min(end, n)`, or `max(0, n + end)` for a negative end. |
| Mention.ListLeft | src/modules/Mention/MentionModule.ts:384-388 | The list's left edge never passes the container width less the list width (240 before layout) and the padding. It is at least the padding whenever that fits, and equals the caret's left edge when that is in range. |
| Mention.ListTop | src/modules/Mention/MentionModule.ts:380-383 | The list's top is 6 px under the caret's bottom edge, plus scroll. |
| Mention.CommitEdits | src/modules/Mention/MentionModule.ts:363-365 | Delete, embed and space together replace the token with the chip and one space, and keep the rest of the document. |
| Mention.WriteCommit | src/modules/Mention/MentionModule.ts:363-366 | The four writes, in order and with source user, and the caret after the space. |
| Mention.CommitDeletesToken | src/modules/Mention/MentionModule.ts:355-363 | Without embeds in the token, a commit deletes exactly the `@` and the query. |
| Mention.MentionModule.constructor | src/modules/Mention/MentionModule.ts:80-113 | The defaults are minChars 0, maxChars 32 and maxItems 8. The module starts closed with no requests and listeners attached. |
| Mention.MentionModule.Open | src/modules/Mention/MentionModule.ts:394-397 | Marks the session open, and nothing else changes. |
| Mention.MentionModule.Close | src/modules/Mention/MentionModule.ts:399-406 | Closes, empties items and query, and increments the request id, so every request in flight is stale. |
| Mention.MentionModule.FetchItems | src/modules/Mention/MentionModule.ts:260-263 | Dispatches the query with a fresh request id. |
| Mention.MentionModule.FetchResolved | src/modules/Mention/MentionModule.ts:262-270 | An answer is applied exactly when its captured id is the current one. Only the latest request, dispatched while open, can match. Applying sets items to at most maxItems entries and the highlight to 0; a stale answer changes nothing. |
| Mention.MentionModule.UpdateQuery | src/modules/Mention/MentionModule.ts:200-258 | When detection fails, the module is closed. Otherwise it is open at the trigger with the detected query, and a fetch for it is dispatched. |
| Mention.MentionModule.HandleTextChange | src/modules/Mention/MentionModule.ts:115-126 | Only user edits schedule a re-detection frame. |
| Mention.MentionModule.RunUpdateFrame | src/modules/Mention/MentionModule.ts:119-125 | The frame re-detects: open exactly when detection opens, at the detected trigger and query, with one more request sent exactly when it opens. |
| Mention.MentionModule.HandleSelectionChange | src/modules/Mention/MentionModule.ts:128-146 | Losing the selection or selecting a range closes. While open, a caret that leaves the token (from the trigger to one past the query's end) closes, and one inside it changes nothing. While closed, a caret re-detects. |
| Mention.MentionModule.MoveHighlight | src/modules/Mention/MentionModule.ts:316-324 | Does nothing on an empty list; otherwise the highlight moves by `(h + d + n) % n`. |
| Mention.MentionModule.InsertMention | src/modules/Mention/MentionModule.ts:351-368 | Does nothing without a selection. A caret before the trigger only closes. Otherwise the token is replaced by the chip and a space, the caret goes after them, and the session closes. |
| Mention.MentionModule.SelectHighlighted | src/modules/Mention/MentionModule.ts:335-341 | Commits the highlighted entry; an empty list does nothing. |
| Mention.MentionModule.SelectItem | src/modules/Mention/MentionModule.ts:343-349 | Commits the entry at the index; an index outside the list does nothing. |
| Mention.MentionModule.HandleKeyDown | src/modules/Mention/MentionModule.ts:148-175 | Keys act only while open: arrows move the highlight, Enter and Tab commit, Escape closes, and each of these prevents the default. Other keys, and any key while closed, change nothing. |
| Mention.MentionModule.HandleDocumentClick | src/modules/Mention/MentionModule.ts:183-198 | A click outside both the list and the editor closes an open session; anything else changes nothing. |
| Mention.MentionModule.Destroy | src/modules/Mention/MentionModule.ts:408-420 | Closes, invalidates every request, cancels the frame and detaches. |
| Mention.DetectStartNonNegative | src/modules/Mention/MentionModule.ts:249-250 | A detected trigger offset is never negative. |
| Mention.TypedAlOpens | src/modules/Mention/MentionModule.ts:200-257 | `"@a"` typed at the start opens a session with the caret after it, and so does `"@al"` once an `l` is typed. |
| Mention.StaleAnswerIsDropped | src/modules/Mention/MentionModule.ts:260-271 | With `@a` typed, request 1 goes out; an `l` inserted into the document schedules an update frame that sends request 2 for `@al`; the answer to 2 is applied, and the late answer to 1 is dropped without replacing it. |
| MentionBlot.Element.constructor | src/quill/formats/mention.ts:13 | The chip element carries the blot class and no children. |
| MentionBlot.Element.SetAttribute | src/quill/formats/mention.ts:16-18 | One attribute is written and the children are kept. |
| MentionBlot.Element.AppendChild | src/quill/formats/mention.ts:27-38 | One child is appended and the attributes are kept. |
| MentionBlot.TextContent | src/quill/formats/mention.ts:46 | The `textContent` of the chip: the concatenated text of its children, an avatar contributing none; `MentionBlot.CreatedShape` states that it equals the displayed text. |
| MentionBlot.CreatedAttributes | src/quill/formats/mention.ts:16-25 | The attributes `create` sets: `contenteditable`, `data-id` and `data-label` always, `data-value` and `data-avatar` exactly when those are non-empty (stated by `MentionBlot.CreatedShape`). |
| MentionBlot.CreatedChildren | src/quill/formats/mention.ts:27-38 | The children `create` appends: the avatar image when an avatar URL is non-empty, then the label span showing the display text (stated by `MentionBlot.CreatedShape`). |
| MentionBlot.Display | src/quill/formats/mention.ts:14 | The shown text is the value when it is non-empty, else `@` and the label; it is never empty. |
| MentionBlot.Create | src/quill/formats/mention.ts:12-41 | `create` leaves exactly the created attributes and children on a fresh element. |
| MentionBlot.CreatedShape | src/quill/formats/mention.ts:16-38 | `data-id`, `data-label` and `contenteditable` are always set. `data-value` and `data-avatar` exist exactly when their fields are non-empty. There is an avatar exactly when the avatar URL is non-empty, and the chip's text is the display text. |
| MentionBlot.OptionalAttribute | src/quill/formats/mention.ts:47-48 | `getAttribute(n)`, or `undefined` when that is empty: present exactly for a non-empty attribute. |
| MentionBlot.Value | src/quill/formats/mention.ts:43-50 | The corrected reader of "## Findings": the label is `data-label` when the attribute exists, else the chip's text. The code as written is `MentionBlot.ValueAsWritten`. |
| MentionBlot.RoundTrip | src/quill/formats/mention.ts:12-50 | Reading a created chip gives back its id and label exactly, and its value and avatar when they are non-empty. |
| MentionBlot.RoundTripStable | src/quill/formats/mention.ts:12-50 | A second create and read cycle changes nothing. |
| MentionBlot.AsWrittenAgreesOnLabels | src/quill/formats/mention.ts:46 | The code as written reads every chip with a non-empty label correctly. |
| MentionBlot.AsWrittenLosesEmptyLabel | src/quill/formats/mention.ts:46 | As written, an empty label comes back as the chip's text, not as the empty label. |
| MentionBlot.ValueAsWritten | src/quill/formats/mention.ts:43-50 | `value` as written: the label falls back to the chip's text whenever `data-label` is falsy. Its relation to `MentionBlot.Value` is stated by `MentionBlot.AsWrittenAgreesOnLabels` and `MentionBlot.AsWrittenLosesEmptyLabel`. |
| ImageResize.ResizeBounds | src/modules/ImageResize.ts:274-298 | The height is at least 48. A positive editor width caps the width, and the width is below 48 only when it equals the editor width. A named axis follows the mouse: the east handles add `dx` to the width and the west handles subtract it, the south handles add `dy` to the height and the north handles subtract it, while the result lies within the limits; below the floor it is 48, above a positive editor width it is that width. An axis the handle does not name keeps its size when that size is already within the bounds. |
| ImageResize.ResizedSize | src/modules/ImageResize.ts:274-298 | The size a drag produces. Its limits and values are stated by `ImageResize.ResizeBounds`. |
| ImageResize.ResizeSouthEastExample | src/modules/ImageResize.test.ts:123-156 | Dragging the south-east handle by (+40, +20) turns 120 x 80 into 160 x 100. |
| ImageResize.RoundIsNearest | src/modules/ImageResize.ts:317-318 | `Math.round` is within one half of its argument. |
| ImageResize.Round | src/modules/ImageResize.ts:317-318 | `Math.round`: the nearest integer, halves rounded up; `ImageResize.RoundIsNearest` states it lies within one half of the argument. |
| ImageResize.Margins | src/modules/ImageResize.ts:128-142 | Left gives margins (0, auto), right gives (auto, 0) and center gives (auto, auto). |
| ImageResize.AlignedStyle | src/modules/ImageResize.ts:128-142 | The inline style an alignment leaves: unfloated, a block, zero top and bottom margins, and the margins of `ImageResize.Margins`. |
| ImageResize.UILayoutSpec | src/modules/ImageResize.ts:348-376 | Nothing is laid out for an image without width or height. Otherwise the overlay is the image grown by 6 on every side, and the toolbar sits 8 px under the image. The toolbar's left edge is clamped into `[6, max(6, containerWidth - toolbarWidth - 6)]` and is centred on the image when that fits. |
| ImageResize.UILayout | src/modules/ImageResize.ts:348-376 | The arithmetic of `positionUI`, or nothing for a zero-sized image. Its layout is stated by `ImageResize.UILayoutSpec`. |
| ImageResize.ActivateKeepsInvariant | src/modules/ImageResize.ts:233-239 | Activating an image with the previous listener removed first leaves the listener on the new image only. |
| ImageResize.ActivateAsWrittenAgrees | src/modules/ImageResize.ts:233-239 | The mouse-down switch as written and the corrected one agree when no other image is active. When another image holds the listener, as written it stays there, while the corrected switch moves it to the new image. |
| ImageResize.HideKeepsInvariant | src/modules/ImageResize.ts:339-346 | Hiding leaves the listener on no image and no active image. |
| ImageResize.AttachListener | src/modules/ImageResize.ts:399-403 | `attachImageLoadListener`: with an active image and no listener, the flag is set and the active image gains a holder; otherwise nothing changes. |
| ImageResize.DetachListener | src/modules/ImageResize.ts:405-409 | `detachImageLoadListener`: with an active image and a listener, the flag is cleared and the active image stops holding one; otherwise nothing changes. |
| ImageResize.HideListener | src/modules/ImageResize.ts:343-344 | The listener part of `hideUI`: detach, then forget the active image; `ImageResize.HideKeepsInvariant` states that no image holds a listener afterwards. |
| ImageResize.ActivateAsWritten | src/modules/ImageResize.ts:233-239 | The as-written half of the listener row of "## Findings": the active image is replaced and then attach runs, so the previous image's listener is left in place (`ImageResize.AsWrittenLeaksListener`). |
| ImageResize.SwitchedListener | src/modules/ImageResize.ts:235 | The corrected switch: the previous image's listener is detached before a different image becomes active. |
| ImageResize.Activate | src/modules/ImageResize.ts:233-239 | The corrected activation, switch then attach; `ImageResize.ActivateKeepsInvariant` states that exactly the new image then holds a listener. |
| ImageResize.AsWrittenLeaksListener | src/modules/ImageResize.ts:233-239 | As written, clicking b while a is active never moves the listener, and a keeps it even after hiding. The corrected activation leaves no listener after hiding. |
| ImageResize.ImageResizer.constructor | src/modules/ImageResize.ts:33-61 | No active image, no drag, no guards, UI hidden, listeners attached. |
| ImageResize.ImageResizer.AttachImageLoadListener | src/modules/ImageResize.ts:399-403 | Adds the listener to the active image unless there is none or the flag is set; nothing else changes. |
| ImageResize.ImageResizer.DetachImageLoadListener | src/modules/ImageResize.ts:405-409 | Removes the listener from the active image when the flag is set; nothing else changes. |
| ImageResize.ImageResizer.HideUI | src/modules/ImageResize.ts:339-346 | UI hidden, listener detached, active image and index cleared, and no image holds the listener. |
| ImageResize.ImageResizer.ShowUI | src/modules/ImageResize.ts:331-337 | UI shown, listener attached to exactly the active image, and a layout frame scheduled. |
| ImageResize.ImageResizer.PositionUI | src/modules/ImageResize.ts:348-376 | With an active image and a measurable size, the layout becomes `UILayout`; otherwise it is kept. |
| ImageResize.ImageResizer.ApplySize | src/modules/ImageResize.ts:314-329 | Does nothing without an active image. Otherwise the same rounded width and height go to the image attributes and to a user `formatText` of one offset at the active index. |
| ImageResize.ImageResizer.HandleToolbarAction | src/modules/ImageResize.ts:119-147 | Does nothing without an active image. Remove deletes exactly one offset at the active index and hides. An alignment sets `data-align` to the action and the aligned style, then updates and lays out. |
| ImageResize.ImageResizer.HandleCaptionInput | src/modules/ImageResize.ts:149-160 | A non-blank trimmed caption becomes `alt` on the image and in the document; a blank one removes `alt` from both. |
| ImageResize.ImageResizer.HandleSelectionChange | src/modules/ImageResize.ts:162-192 | Hides when the selection is lost, is a range, or is a caret whose leaf is not the active image. It does nothing during a suppression or a click, or while the caption is focused. |
| ImageResize.ImageResizer.HandleTextChange | src/modules/ImageResize.ts:194-208 | Hides when the active image left the editor; otherwise lays the UI out again. |
| ImageResize.ImageResizer.HandleScroll | src/modules/ImageResize.ts:210-213 | Lays the UI out again; nothing else changes. |
| ImageResize.ImageResizer.RunPositionFrame | src/modules/ImageResize.ts:335-336 | The scheduled frame clears and lays the UI out. |
| ImageResize.ImageResizer.SuppressSelectionChangeOnce | src/modules/ImageResize.ts:415-425 | Sets the suppression flag and schedules the timer that clears it. |
| ImageResize.ImageResizer.SuppressTimerFired | src/modules/ImageResize.ts:421-424 | The timer clears the suppression flag. |
| ImageResize.ImageResizer.ClickTimerFired | src/modules/ImageResize.ts:240-242 | The click timer clears the click-handling flag. |
| ImageResize.ImageResizer.HandleRootMouseDown | src/modules/ImageResize.ts:215-243 | Ignored during a drag. A non-image target hides; an image without a blot hides and prevents the default. An image with a blot becomes active at the blot's index, with the listener on it alone, the caption from its `alt`, the UI shown and both guards raised. |
| ImageResize.ImageResizer.SwitchActiveImage | src/modules/ImageResize.ts:233-239 | The previous image's listener is removed before the new image becomes active with its index and caption. |
| ImageResize.ImageResizer.HandleHandleMouseDown | src/modules/ImageResize.ts:245-265 | With an active image and a handle, starts a drag from the mouse position and the image's size, and prevents the default; otherwise nothing changes. |
| ImageResize.ImageResizer.HandleDocumentMouseMove | src/modules/ImageResize.ts:267-302 | Ignored unless resizing with an active image. Otherwise the rounded `ResizedSize` of the mouse movement is written to the image and, through `FormatAt` at the image's offset, to the document; the selection is kept and the UI is laid out. |
| ImageResize.ImageResizer.HandleDocumentMouseUp | src/modules/ImageResize.ts:304-312 | Ends a drag: not resizing, no direction, drag listeners removed. |
| ImageResize.ImageResizer.HandleDocumentClick | src/modules/ImageResize.ts:378-397 | A click outside the image, the overlay and the toolbar hides; anything else changes nothing. |
| ImageResize.ImageResizer.Destroy | src/modules/ImageResize.ts:427-451 | Hides, removes every listener and the pending timer, and detaches. |
| ImageDrop.RangeFromPointPrefersCaretRange | src/modules/ImageDrop/ImageDrop.ts:78-80 | When `caretRangeFromPoint` exists its answer is final, even when it finds nothing. |
| ImageDrop.RangeFromPointSource | src/modules/ImageDrop/ImageDrop.ts:69-92 | A range is found only through an API that exists and answers. `caretPositionFromPoint` is used only without `caretRangeFromPoint`, and there is no range without either. |
| ImageDrop.RangeFromPoint | src/modules/ImageDrop/ImageDrop.ts:69-92 | `getRangeFromPoint` with its two fall-backs. Which API answers is stated by `ImageDrop.RangeFromPointPrefersCaretRange` and `ImageDrop.RangeFromPointSource`. |
| ImageDrop.IsImageType | src/modules/ImageDrop/ImageDrop.ts:31 | The MIME filter: the type starts with `image/`. |
| ImageDrop.DropIndex | src/modules/ImageDrop/ImageDrop.ts:58-67 | Present exactly when there is a caret range and a blot. It is then the blot's index plus the range offset. |
| ImageDrop.InsertOffset | src/modules/ImageDrop/ImageDrop.ts:100 | The drop index, else the selection index, else the document length. |
| ImageDrop.FirstImageItem | src/modules/ImageDrop/ImageDrop.ts:44-45 | The first clipboard item with an image type: no earlier item has one, and none is found only when no item has one. |
| ImageDrop.PasteStopsAtFirstImageItem | src/modules/ImageDrop/ImageDrop.ts:44-54 | An image item without a file stops the scan: no later item is used. |
| ImageDrop.PastedFile | src/modules/ImageDrop/ImageDrop.ts:44-54 | The file a paste inserts: that of the first item whose type starts with `image/`, when it yields one; `ImageDrop.PasteStopsAtFirstImageItem` states that a later image item is never used. |
| ImageDrop.ImageDropModule.constructor | src/modules/ImageDrop/ImageDrop.ts:6-15 | Adds exactly the drag-over, drop and paste listeners. |
| ImageDrop.ImageDropModule.HandleDragOver | src/modules/ImageDrop/ImageDrop.ts:17-23 | Always prevents the default; asks for `copy` exactly when there is a data transfer. |
| ImageDrop.ImageDropModule.InsertImage | src/modules/ImageDrop/ImageDrop.ts:94-111 | Starts one read of the file for the given offset. |
| ImageDrop.ImageDropModule.HandleDrop | src/modules/ImageDrop/ImageDrop.ts:25-37 | Always prevents the default. A first file with an image type starts a read for the drop index; anything else starts nothing. |
| ImageDrop.ImageDropModule.HandlePaste | src/modules/ImageDrop/ImageDrop.ts:39-56 | Prevents the default exactly when the first image item yields a file, and then starts a read of that file. |
| ImageDrop.ImageDropModule.ReadCompleted | src/modules/ImageDrop/ImageDrop.ts:97-108 | One image embed with source user at the drop index, else the selection, else the end, and the caret right after it. |
| ImageDrop.ImageDropModule.Destroy | src/modules/ImageDrop/ImageDrop.ts:113-117 | Removes exactly the three listeners the constructor added. |
| CharCounter.CountIsNonWhitespace | src/modules/CharCounter/CharCounter.ts:34-35 | Every non-whitespace character counts once per occurrence, and whitespace never counts. |
| CharCounter.CountAppend | src/modules/CharCounter/CharCounter.ts:34-35 | The count of concatenated text is the sum of the counts. |
| CharCounter.CountExample | src/modules/CharCounter/CharCounter.test.ts:84-89 | `"A  B C\n"` counts 3. |
| CharCounter.Count | src/modules/CharCounter/CharCounter.ts:34-35 | The count never exceeds the text's length. What it counts is stated by `CharCounter.CountIsNonWhitespace`. |
| CharCounter.LimitSuffix | src/modules/CharCounter/CharCounter.ts:37-44 | What follows the count starts with a space. |
| CharCounter.LimitSuffixInjective | src/modules/CharCounter/CharCounter.ts:37-44 | The suffix determines the limit, including whether there is one. |
| CharCounter.Exceeds | src/modules/CharCounter/CharCounter.ts:39 | The exceed class applies exactly when a limit is set and the count is above it; `CharCounter.CharCounterModule.Update` leaves the container showing the class exactly then. |
| CharCounter.Label | src/modules/CharCounter/CharCounter.ts:37-44 | The label: the count, then ` / limit chars` with a limit or ` chars` without. That it determines the count is stated by `CharCounter.LabelDeterminesCount`. |
| CharCounter.LabelDeterminesCount | src/modules/CharCounter/CharCounter.ts:37-44 | The label is unambiguous: it determines both the count and the limit. |
| CharCounter.Container.constructor | src/modules/CharCounter/CharCounter.ts:24-31 | A container with the given classes and placement and no text. |
| CharCounter.CharCounterModule.constructor | src/modules/CharCounter/CharCounter.ts:13-22 | Uses the given container or creates one in the page, adds the counter class, shows the count and starts listening. |
| CharCounter.CharCounterModule.Update | src/modules/CharCounter/CharCounter.ts:33-45 | The label shows the count, with the limit when there is one. The exceed class is present exactly when there is a limit and the count is over it. No other class changes. |
| CharCounter.CharCounterModule.HandleTextChange | src/modules/CharCounter/CharCounter.ts:21 | While listening, a text change shows the new count. |
| CharCounter.CharCounterModule.Destroy | src/modules/CharCounter/CharCounter.ts:47-50 | Stops listening and takes the container out of the page. |
| CharCounter.HelloWorldCount | src/modules/CharCounter/CharCounter.test.ts:47-60 | `"Hello world\n"` counts 10. |
| CharCounter.StripHello | src/modules/CharCounter/CharCounter.test.ts:49 | `"Hello"` has no whitespace to strip. |
| CharCounter.StripWorld | src/modules/CharCounter/CharCounter.test.ts:49 | `" world\n"` strips to `"world"`. |
| LinkDialog.IsValidUrlCases | src/components/Toolbar/components/LinkDialog/LinkDialog.tsx:13-30 | A URL is valid exactly when it is a path or an anchor, parses with protocol http, https or mailto, or fails to parse but parses with `https://` in front. |
| LinkDialog.IsValidUrl | src/components/Toolbar/components/LinkDialog/LinkDialog.tsx:13-30 | `isValidUrl`. Its three accepting cases are stated by `LinkDialog.IsValidUrlCases`. |
| LinkDialog.NormalizeUrlHasPrefix | src/components/Toolbar/components/LinkDialog/LinkDialog.tsx:32-42 | A normalised link always carries a target prefix, and is the input itself or the input with `https://` in front. |
| LinkDialog.NormalizeUrlAsWritten | src/components/Toolbar/components/LinkDialog/LinkDialog.tsx:32-42 | `normalizeUrl` as the code is written, with case-sensitive scheme tests. |
| LinkDialog.NormalizeUrl | src/components/Toolbar/components/LinkDialog/LinkDialog.tsx:32-42 | `normalizeUrl` with the scheme recognised in any case, the corrected rule of "## Findings". Its properties are stated by `LinkDialog.NormalizeUrlHasPrefix` and `LinkDialog.NormalizeUrlIdempotent`. |
| LinkDialog.NormalizeUrlIdempotent | src/components/Toolbar/components/LinkDialog/LinkDialog.tsx:32-42 | Normalising twice is normalising once. |
| LinkDialog.NormalizeUrlAsWrittenIdempotent | src/components/Toolbar/components/LinkDialog/LinkDialog.tsx:32-42 | The case-sensitive original is idempotent too. |
| LinkDialog.NoExactPrefixByFirstChar | src/components/Toolbar/components/LinkDialog/LinkDialog.tsx:34-38 | A link starting with none of `/`, `#`, `m` or `h` has no exact target prefix. |
| LinkDialog.NormalizeUrlExample | src/components/Toolbar/components/LinkDialog/LinkDialog.test.tsx:22-26 | `example.com` becomes `https://example.com`. |
| LinkDialog.BareHostLink | src/components/Toolbar/components/LinkDialog/LinkDialog.tsx:39 | The prefixed bare host is `https://example.com`. |
| LinkDialog.AsWrittenAgreesOnLowerCase | src/components/Toolbar/components/LinkDialog/LinkDialog.tsx:32-42 | Without upper-case letters, the original and the corrected normaliser agree. |
| LinkDialog.AsWrittenPrefixesUpperCaseScheme | src/components/Toolbar/components/LinkDialog/LinkDialog.tsx:13-42 | `HTTP://example.com` is valid, yet as written it becomes `https://HTTP://example.com`; the corrected normaliser keeps it. |
| LinkDialog.SubmitSpec | src/components/Toolbar/components/LinkDialog/LinkDialog.tsx:67-86 | A link is handed over exactly for non-blank valid trimmed input. Blank input is refused as empty before validation. The link carries a target prefix and is the trimmed input with or without `https://`. |
| LinkDialog.Submit | src/components/Toolbar/components/LinkDialog/LinkDialog.tsx:67-86 | The corrected submit: trim, refuse empty, refuse invalid, else hand over the normalised link. It is characterised by `LinkDialog.SubmitSpec`. |
| LinkDialog.SubmitAsWritten | src/components/Toolbar/components/LinkDialog/LinkDialog.tsx:67-86 | The submit as the code is written, with the case-sensitive normaliser. |
| LinkDialog.SubmitAsWrittenAgrees | src/components/Toolbar/components/LinkDialog/LinkDialog.tsx:82 | The two submits refuse the same inputs with the same message, and hand over the same link unless the trimmed input holds an upper-case letter. |
| LinkDialog.SubmitIgnoresPadding | src/components/Toolbar/components/LinkDialog/LinkDialog.tsx:71 | Whitespace around the input makes no difference to a submit. |
| LinkDialog.LinkDialogState.constructor | src/components/Toolbar/components/LinkDialog/LinkDialog.tsx:44-53 | The input starts as the current link, with no error and no callbacks. |
| LinkDialog.LinkDialogState.SubmitDisabled | src/components/Toolbar/components/LinkDialog/LinkDialog.tsx:186 | The submit button is disabled exactly when a submit would be refused as empty. |
| LinkDialog.LinkDialogState.IsEditing | src/components/Toolbar/components/LinkDialog/LinkDialog.tsx:93 | The dialog edits an existing link exactly when the current URL is non-empty. |
| LinkDialog.LinkDialogState.HandleChange | src/components/Toolbar/components/LinkDialog/LinkDialog.tsx:142-145 | Editing stores the input and clears the error. |
| LinkDialog.LinkDialogState.HandleSubmit | src/components/Toolbar/components/LinkDialog/LinkDialog.tsx:67-86 | Always prevents the default. A refused submit shows its error and calls nothing; an accepted one inserts the normalised link, then closes. |
| LinkDialog.LinkDialogState.HandleRemove | src/components/Toolbar/components/LinkDialog/LinkDialog.tsx:88-91 | Removes the link, then closes. |
| LinkDialog.LinkDialogState.HandleKeyDown | src/components/Toolbar/components/LinkDialog/LinkDialog.tsx:56-65 | Escape closes; other keys call nothing. |
| LinkDialog.SubmitBareHostOutcome | src/components/Toolbar/components/LinkDialog/LinkDialog.test.tsx:22-27 | `" example.com "` submits as `https://example.com`. |
| ImageUrlTab.IsValidImageUrlCases | src/components/Toolbar/components/ImageDialog/components/ImageURLTab/ImageURLTab.tsx:8-22 | Valid exactly when non-empty and either a `data:` or `blob:` URL, or parseable with protocol http, https or data. |
| ImageUrlTab.IsValidImageUrl | src/components/Toolbar/components/ImageDialog/components/ImageURLTab/ImageURLTab.tsx:8-22 | `isValidUrl` of the image tab. Its accepting cases are stated by `ImageUrlTab.IsValidImageUrlCases`. |
| ImageUrlTab.DataUrlIsValid | src/components/Toolbar/components/ImageDialog/components/ImageURLTab/ImageURLTab.tsx:10-11 | Every data URL passes without consulting the parser. |
| ImageUrlTab.SubmittedUrlIsClean | src/components/Toolbar/components/ImageDialog/components/ImageURLTab/ImageURLTab.tsx:27-36 | What a submit hands over is never blank and has no surrounding whitespace. |
| ImageUrlTab.ImageUrlTabState.constructor | src/components/Toolbar/components/ImageDialog/components/ImageURLTab/ImageURLTab.tsx:25-26 | Empty input and no preview error. |
| ImageUrlTab.ImageUrlTabState.HandleChange | src/components/Toolbar/components/ImageDialog/components/ImageURLTab/ImageURLTab.tsx:54-57 | Editing stores the input and clears the preview error. |
| ImageUrlTab.ImageUrlTabState.HandleSubmit | src/components/Toolbar/components/ImageDialog/components/ImageURLTab/ImageURLTab.tsx:28-39 | Always prevents the default. Without an insertable URL nothing else changes; otherwise it hands over the trimmed URL, closes and empties the input. |
| ImageUrlTab.ImageUrlTabState.Clear | src/components/Toolbar/components/ImageDialog/components/ImageURLTab/ImageURLTab.tsx:76 | Clear empties the input and nothing else. |
| ImageUrlTab.ImageUrlTabState.CanInsert | src/components/Toolbar/components/ImageDialog/components/ImageURLTab/ImageURLTab.tsx:27-29 | Insertion is allowed exactly when the trimmed URL is a valid image URL and the preview has not failed; `ImageUrlTab.ImageUrlTabState.HandleSubmit` states a submit inserts exactly then. |
| ImageUploadTab.DragStepKeepsSync | src/components/Toolbar/components/ImageDialog/components/ImageUploadTab/ImageUploadTab.tsx:50-81 | One paired drag event keeps the highlight in step with the counter. |
| ImageUploadTab.RunKeepsSync | src/components/Toolbar/components/ImageDialog/components/ImageUploadTab/ImageUploadTab.tsx:50-81 | Any run of paired events keeps the zone highlighted exactly while the counter is positive. |
| ImageUploadTab.UnmatchedLeaveDesyncs | src/components/Toolbar/components/ImageDialog/components/ImageUploadTab/ImageUploadTab.tsx:65-72 | A leave without an enter drives the counter negative; the next enter then highlights at count 0. |
| ImageUploadTab.UploadTab.constructor | src/components/Toolbar/components/ImageDialog/components/ImageUploadTab/ImageUploadTab.tsx:11-16 | Everything empty, nothing reading, counter 0. |
| ImageUploadTab.UploadTab.HandleFile | src/components/Toolbar/components/ImageDialog/components/ImageUploadTab/ImageUploadTab.tsx:18-48 | Always resets error, preview and name first. No file stops there. A non-image sets the invalid-file error and starts no read; an image sets its name, loading, and starts one read. |
| ImageUploadTab.UploadTab.ReadLoaded | src/components/Toolbar/components/ImageDialog/components/ImageUploadTab/ImageUploadTab.tsx:35-38 | The result, or `""` when it is not a string, becomes the preview, and loading ends. |
| ImageUploadTab.UploadTab.ReadFailed | src/components/Toolbar/components/ImageDialog/components/ImageUploadTab/ImageUploadTab.tsx:39-42 | The read error is shown and loading ends. |
| ImageUploadTab.UploadTab.HandleDragEnter | src/components/Toolbar/components/ImageDialog/components/ImageUploadTab/ImageUploadTab.tsx:50-55 | Counts up and highlights. |
| ImageUploadTab.UploadTab.HandleDragLeave | src/components/Toolbar/components/ImageDialog/components/ImageUploadTab/ImageUploadTab.tsx:65-72 | Counts down and un-highlights at zero or below. |
| ImageUploadTab.UploadTab.HandleDrop | src/components/Toolbar/components/ImageDialog/components/ImageUploadTab/ImageUploadTab.tsx:74-81 | Resets the counter and highlight, then handles the first dropped file. |
| ImageUploadTab.UploadTab.HandleClear | src/components/Toolbar/components/ImageDialog/components/ImageUploadTab/ImageUploadTab.tsx:83-91 | Empties error, preview and name; reads in flight go on. |
| ImageUploadTab.UploadTab.HandleInsert | src/components/Toolbar/components/ImageDialog/components/ImageUploadTab/ImageUploadTab.tsx:93-98 | Does nothing without a preview. Otherwise it hands the preview over, closes, and clears. |
| ImageUploadTab.UploadTab.InsertDisabled | src/components/Toolbar/components/ImageDialog/components/ImageUploadTab/ImageUploadTab.tsx:159 | The insert button is disabled exactly when there is no preview or a read is in progress. |
| ImageUploadTab.DragStep | src/components/Toolbar/components/ImageDialog/components/ImageUploadTab/ImageUploadTab.tsx:50-81 | One drag event: enter counts up and shows the highlight, leave counts down and hides it at zero, drop resets both; `ImageUploadTab.DragStepKeepsSync` states the highlight stays in step with the counter. |
| BlockButtons.ToggleFlips | src/components/Toolbar/components/buttons/BlockButtons.tsx:14-15 | Toggling negates the format's truthiness and touches no other format. |
| BlockButtons.ToggleTwice | src/components/Toolbar/components/buttons/BlockButtons.tsx:14-15 | Toggling twice restores the format's truthiness. |
| BlockButtons.Toggled | src/components/Toolbar/components/buttons/BlockButtons.tsx:14-15 | The formats after `quill.format(f, !formats[f])`: a truthy format removed, a falsy one set; `BlockButtons.ToggleFlips` states its effect. |
| BlockButtons.FormatBlock | src/components/Toolbar/components/buttons/BlockButtons.tsx:11-19 | Without an editor nothing changes. Otherwise the format becomes the negation of its value at the selection, the content is kept, and the formats are refreshed. |
| BlockButtons.DividerEditSpec | src/components/Toolbar/components/buttons/BlockButtons.tsx:25-27 | The three insertions put newline, divider, newline at the caret, on a line of their own, and keep the rest of the document. |
| BlockButtons.DividerEdit | src/components/Toolbar/components/buttons/BlockButtons.tsx:25-27 | The three insertions of `insertDivider`; `BlockButtons.DividerEditSpec` states the divider ends up on a line of its own at the caret. |
| BlockButtons.InsertDivider | src/components/Toolbar/components/buttons/BlockButtons.tsx:21-30 | With a caret at i: newline at i, divider at i+1, newline at i+2, caret at i+3. Without a selection or an editor nothing changes. |
| BlockButtons.WriteDivider | src/components/Toolbar/components/buttons/BlockButtons.tsx:25-28 | The four writes of a divider, in order. |
| CodeBlockDropdown.FindOption | src/components/Toolbar/components/CodeBlockDropdown/CodeBlockDropdown.tsx:19-20 | `find`: the first option with the value, and none is found only when no option has it. |
| CodeBlockDropdown.CurrentOption | src/components/Toolbar/components/CodeBlockDropdown/CodeBlockDropdown.tsx:13-20 | The option for the current language when one exists, else the first option. |
| CodeBlockDropdown.CurrentLanguage | src/components/Toolbar/components/CodeBlockDropdown/CodeBlockDropdown.tsx:16-17 | The language: the `code-block` format when it is a string, else `plain`. |
| CodeBlockDropdown.LanguageValue | src/components/Toolbar/components/CodeBlockDropdown/CodeBlockDropdown.tsx:28-32 | The value written for a menu choice: `true` for `plain`, else the language itself. |
| CodeBlockDropdown.PlainWhenNoLanguage | src/components/Toolbar/components/CodeBlockDropdown/CodeBlockDropdown.tsx:16-20 | A code block set to `true` reads as plain text. |
| CodeBlockDropdown.IsInCodeBlock | src/components/Toolbar/components/CodeBlockDropdown/CodeBlockDropdown.tsx:13-14 | The caret is in a code block exactly when the `code-block` format is present (the model stores no `false` format, so present means neither undefined nor false). |
| CodeBlockDropdown.LineEnd | src/components/Toolbar/components/CodeBlockDropdown/CodeBlockDropdown.tsx:64-68 | The offset just past the caret's line, absent when there is no selection or no line there; `CodeBlockDropdown.AddTrailingLine` states the newline goes there. |
| CodeBlockDropdown.AddTrailingLine | src/components/Toolbar/components/CodeBlockDropdown/CodeBlockDropdown.tsx:35-45 | With a caret and a line there, a newline goes at the line's end and the next line leaves the code block; otherwise nothing changes. |
| CodeBlockDropdown.CodeBlockMenu.constructor | src/components/Toolbar/components/CodeBlockDropdown/CodeBlockDropdown.tsx:11 | The menu starts closed. |
| CodeBlockDropdown.CodeBlockMenu.ToggleMenu | src/components/Toolbar/components/CodeBlockDropdown/CodeBlockDropdown.tsx:96 | The arrow toggles the menu. |
| CodeBlockDropdown.CodeBlockMenu.HandleOutsideClick | src/components/Toolbar/components/CodeBlockDropdown/CodeBlockDropdown.tsx:79 | An outside click closes the menu. |
| CodeBlockDropdown.CodeBlockMenu.HandleButtonClick | src/components/Toolbar/components/CodeBlockDropdown/CodeBlockDropdown.tsx:54-76 | Inside a code block it only removes the format. Outside, it sets it and adds the trailing line. The formats are refreshed either way. |
| CodeBlockDropdown.CodeBlockMenu.HandleSelect | src/components/Toolbar/components/CodeBlockDropdown/CodeBlockDropdown.tsx:22-52 | `plain` sets the format to `true`, any other language to its value, so the current language reads back as the choice. The trailing line is added only when the caret was outside a code block, and the menu closes. |
| LinkButton.CurrentUrl | src/components/Toolbar/components/LinkButton/LinkButton.tsx:58 | The `link` format when it is a string, else `""`. |
| LinkButton.IsActive | src/components/Toolbar/components/LinkButton/LinkButton.tsx:66 | The button is active exactly when the `link` format is truthy; `LinkButton.ActiveIffCurrentUrl` states this matches a non-empty current URL. |
| LinkButton.ActiveIffCurrentUrl | src/components/Toolbar/components/LinkButton/LinkButton.tsx:58-66 | For string links, the button is highlighted exactly when the dialog gets a current link. |
| LinkButton.SelectedText | src/components/Toolbar/components/LinkButton/LinkButton.tsx:48-55 | The text of a non-empty selection, else `""`. |
| LinkButton.SelectedTextOfPlainRun | src/components/Toolbar/components/LinkButton/LinkButton.tsx:48-55 | A selection inside plain text reads back as exactly the selected characters. |
| LinkButton.InsertedLinkReadsBack | src/components/Toolbar/components/LinkButton/LinkButton.tsx:30-33 | The URL inserted as link text reads back as the URL, every inserted item carries the link, and the rest is kept. |
| LinkButton.LinkButtonState.constructor | src/components/Toolbar/components/LinkButton/LinkButton.tsx:10 | The dialog starts closed. |
| LinkButton.LinkButtonState.HandleOpenDialog | src/components/Toolbar/components/LinkButton/LinkButton.tsx:13-15 | Opens the dialog. |
| LinkButton.LinkButtonState.HandleCloseDialog | src/components/Toolbar/components/LinkButton/LinkButton.tsx:17-19 | Closes the dialog. |
| LinkButton.LinkButtonState.HandleInsertLink | src/components/Toolbar/components/LinkButton/LinkButton.tsx:21-39 | A non-empty selection gets the link on its own items (`FormatAt` of the selected range), with no text inserted. At a caret at i, the URL goes in as link text and the caret moves to i + length. Without a selection nothing is written. The formats are then refreshed. |
| LinkButton.LinkButtonState.HandleRemoveLink | src/components/Toolbar/components/LinkButton/LinkButton.tsx:41-45 | Removes the `link` format: from the selected items when the selection is non-empty, and from the formats at the selection. The button is then no longer active and there is no current link. |
| LinkButton.FormattedLinkIsCurrent | src/components/Toolbar/components/LinkButton/LinkButton.tsx:58-66 | After formatting, the link is the current URL, and the button is active exactly for a non-empty URL. |
| LinkButton.SelectionLinkFormatted | src/components/Toolbar/components/LinkButton/LinkButton.tsx:27-29 | Setting or removing the link on a selection keeps the text. Every selected item then has exactly the new `link` value and keeps its other formats, and every other item is untouched. |
| MentionButton.InsertIndex | src/components/Toolbar/components/MentionButton/MentionButton.tsx:15-16 | The caret's index, else the document length. |
| MentionButton.HandleInsert | src/components/Toolbar/components/MentionButton/MentionButton.tsx:12-21 | Exactly `@` with source user at the insert index, the caret after it with source user, then focus. Without an editor nothing happens. |
| MentionButton.InsertedTriggerOpensSession | src/components/Toolbar/components/MentionButton/MentionButton.tsx:18-19 | The inserted `@` at the start or after whitespace, with the caret after it, opens a mention session there with an empty query. |
| MentionButton.InsertedTriggerOpensSessionAsWritten | src/components/Toolbar/components/MentionButton/MentionButton.tsx:18-19 | With the detection as written, the inserted `@` opens the same session whenever the search window before the caret holds no embed. |
| ImageButton.InsertedImageKeepsText | src/components/Toolbar/components/ImageButton/ImageButton.tsx:18 | The image sits at the caret offset, the items around it keep their order, and the document's text is unchanged. |
| ImageButton.ImageButtonState.constructor | src/components/Toolbar/components/ImageButton/ImageButton.tsx:10 | The dialog starts closed. |
| ImageButton.ImageButtonState.HandleClick | src/components/Toolbar/components/ImageButton/ImageButton.tsx:28 | The button toggles the dialog. |
| ImageButton.ImageButtonState.HandleClose | src/components/Toolbar/components/ImageButton/ImageButton.tsx:33 | Closing hides the dialog. |
| ImageButton.ImageButtonState.HandleInsertImage | src/components/Toolbar/components/ImageButton/ImageButton.tsx:13-21 | One image embed with source user at the caret, the caret after it, and the formats refreshed. Without an editor nothing happens. |

## Left out

- The Quill engine is not modelled, and neither is the rendering DOM.
  - The editor is reduced to its document, selection, formats and a log of writes.
  - Blot lookup (`Quill.find`, `getLeaf`, `getLine`) is a parameter.
  - `format` of a block format (`Document.Editor.Format`) and `formatLine` change only the reported formats and the log; their line-level effect is the engine's. `format` of an inline format (`Document.Editor.FormatInline`, used for `link`) also reformats the selected items.
  - `getFormat` over a range reports the formats common to the whole range; the model keeps one format map for the selection and applies each change to it.
- Writes do not shift the selection (Quill's own selection transform is not modelled). Every routine sets the caret explicitly afterwards, and the model states that caret.
- Browser geometry is taken as `real` inputs: bounding rectangles, scroll offsets and widths. Only the formulas are modelled. `Math.round` is `floor(x + 0.5)`.
- The URL parser (`new URL`) and `toLowerCase` are function parameters. The parser returns the protocol or nothing.
- String lengths count code points; JavaScript counts UTF-16 code units.
- Timers and animation frames are explicit event methods:
  - `RunUpdateFrame`, `RunPositionFrame`, `SuppressTimerFired` and `ClickTimerFired`;
  - for file reads, `ReadCompleted`, `ReadLoaded` and `ReadFailed`;
  - for suggestion answers, `FetchResolved`.

  A rejected suggestion promise is not modelled.
- The mention module's rendering is not modelled: `renderList`, `updateHighlight`, the DOM class toggles, and the scroll handler that only repositions the list. The positioning arithmetic is modelled (`ListLeft`, `ListTop`).
- `ImageDrop.ImageDropModule.ReadCompleted`:
  - does not model a failed read, since the source sets no error handler;
  - `destroy` does not cancel reads in flight, as in the source;
  - the optional `activateAtIndex` call on the resize module is a no-op, because `ImageResize.ts` defines no such method.
- `getSelection(true)` focusing the editor is not modelled. `ImageButton.ImageButtonState.HandleInsertImage` requires a selection when there is an editor, since asking with focus always yields one.
- `ImageUrlTab.ImageUrlTabState`: no handler in `ImageURLTab.tsx` ever sets `previewError` to true. The model keeps the field, and only `HandleChange` resets it.
- `ImageUploadTab.UploadTab`:
  - clearing or choosing another file does not cancel a read in flight, as in the source;
  - the highlight stays in step only for paired enter and leave events (`RunKeepsSync` requires them; `UnmatchedLeaveDesyncs` shows why).
- The image dialog's Escape handler, its outside click and its tabs are not modelled. `src/components/Tabs/Tabs.tsx` is not part of this model.
- A non-integer counter limit is not modelled; the limit is an integer.
- In `ImageResize.ts`, `activationFrame` and `suppressOutsideClick` are never set, so they are not modelled.
- Where "## Findings" shows the source wrong, the modules below run the corrected rule, not the code as written. The as-written rule is modelled beside each, with a lemma saying where the two agree.
- `Mention.MentionModule.UpdateQuery` runs the corrected `Mention.Detect`, not the `lastIndexOf` search on `getText` of `MentionModule.ts:207-211` (`Mention.DetectAsWritten`). The two agree whenever the search window before the caret holds no embed (`Mention.AsWrittenAgreesWithoutEmbeds`). With a mention chip in the window the code as written closes or opens where the model does not (`Mention.AsWrittenMisplacesTrigger`).
- `Mention.MentionModule.RunUpdateFrame` detects through `UpdateQuery`, so it runs the corrected detection too.
- `Mention.MentionModule.HandleSelectionChange` re-detects through `UpdateQuery` while closed, so it runs the corrected detection too.
- `MentionButton.InsertedTriggerOpensSession` is about the corrected detection. With the detection as written it holds only when the search window holds no embed (`MentionButton.InsertedTriggerOpensSessionAsWritten`).
- `ImageResize.ImageResizer.SwitchActiveImage` removes the load listener from the previous image before another image becomes active. `ImageResize.ts:233-239` does not, and the listener then stays on the first image (`ImageResize.AsWrittenLeaksListener`). The two agree when no other image is active (`ImageResize.ActivateAsWrittenAgrees`).
- `ImageResize.ImageResizer.HandleRootMouseDown` switches images through `SwitchActiveImage`, so it runs the corrected switch too.
- `ImageResize.ImageResizer.Valid` includes `ImageResize.ListenerInvariant`, which the corrected switch keeps. The code as written breaks it on a click on a second image.
- `LinkDialog.Submit` normalises with the corrected `LinkDialog.NormalizeUrl`, which recognises a scheme in any case. The code as written tests the scheme case-sensitively (`LinkDialog.SubmitAsWritten`). The two refuse the same inputs, and agree on every input whose trimmed text has no upper-case letter (`LinkDialog.SubmitAsWrittenAgrees`).
- `LinkDialog.SubmitSpec` characterises the corrected `Submit`; as written, the accepted link for `HTTP://example.com` is `https://HTTP://example.com` (`LinkDialog.AsWrittenPrefixesUpperCaseScheme`).
- `LinkDialog.LinkDialogState.HandleSubmit` hands over the link of the corrected `Submit`, so the same difference applies.
- `MentionBlot.Create` does not model the two zero-width guard text nodes (`"\uFEFF"`) that Quill's embed puts around a chip's content. In a live editor the text fall-back of the as-written reader is therefore `"\uFEFF@\uFEFF"`, not `"@"`.
- `CharCounter.CharCounterModule.constructor`: creating the container appends it to the editor's container element. The model only records that it is in the page.

## Findings

| source | as written | input that shows it | evidently intended | confidence | as-written member | corrected member |
|---|---|---|---|---|---|---|
| src/modules/Mention/MentionModule.ts:207-211 | The trigger is found with `lastIndexOf('@')` in `getText` of the window, and that string offset is added to the window start as a document offset. `getText` omits embeds, so every embed in the window shifts the result. | A mention chip, then `" @"`, caret at 3: it closes instead of opening at 2 with query `""`. A chip, then `"  @"`, caret at 4: it opens at the space with query `"@"`. | The trigger is the nearest `@` item in document offsets. | not executed | Mention.AsWrittenMisplacesTrigger | Mention.DetectSound |
| src/quill/formats/mention.ts:46 | `data-label \|\| textContent`: an empty label is falsy, so reading it back gives the chip's text. | An entity with label `""` and no value reads back with label `"@"` (in a live editor `"\uFEFF@\uFEFF"`, since Quill's embed adds a zero-width guard character on each side of the chip's content). | The text fall-back applies only when `data-label` is missing. | not executed | MentionBlot.AsWrittenLosesEmptyLabel | MentionBlot.RoundTrip |
| src/components/Toolbar/components/LinkDialog/LinkDialog.tsx:32-42 | The scheme tests of `normalizeUrl` are case-sensitive, while `isValidUrl` accepts any case through the URL parser. | `HTTP://example.com` is accepted and normalised to `https://HTTP://example.com`. | The scheme is recognised in any case, so the link is kept. | not executed | LinkDialog.AsWrittenPrefixesUpperCaseScheme | LinkDialog.NormalizeUrlIdempotent |
| src/modules/ImageResize.ts:233-239 | A mouse-down on another image replaces `activeImage` while `hasImageLoadListener` is still set. Attach then does nothing, and detach later targets the new image. | Click image a, then image b, then hide: a keeps the load listener for good, and b never had it. | Detach from the previous image before another becomes active. | not executed | ImageResize.AsWrittenLeaksListener | ImageResize.ActivateKeepsInvariant |
