/**
 * The mention chip: the inline embed that carries a suggestion entity in
 * the document, written to and read back from its element's attributes.
 */
module MentionBlot {
  import opened Wrappers
  import opened MentionTypes

  const BLOT_CLASS := "ql-mention"
  const AVATAR_CLASS := "ql-mention-avatar"
  const LABEL_CLASS := "ql-mention-label"

  /** The children `create` appends: the avatar image and the label span. */
  datatype Child =
    | Avatar(src: string, alt: string, className: string)
    | LabelSpan(className: string, text: string)

  /** The chip's element: its attributes and its children, in order. */
  class Element {
    var attributes: map<string, string>
    var children: seq<Child>

    /** The embed's own element, a `span` carrying the blot's class. */
    constructor ()
      ensures attributes == map["class" := BLOT_CLASS] && children == []
    {
      attributes := map["class" := BLOT_CLASS];
      children := [];
    }

    method SetAttribute(name: string, value: string)
      modifies this
      ensures attributes == old(attributes)[name := value]
      ensures children == old(children)
    {
      attributes := attributes[name := value];
    }

    method AppendChild(child: Child)
      modifies this
      ensures children == old(children) + [child]
      ensures attributes == old(attributes)
    {
      children := children + [child];
    }
  }

  /** `textContent` of the chip: the concatenated text of its children (an image has none). */
  function TextContent(children: seq<Child>): string {
    if children == [] then ""
    else (match children[0] case Avatar(_, _, _) => "" case LabelSpan(_, t) => t) + TextContent(children[1..])
  }

  /** The text shown in the chip: the value when it is non-empty, else "@" and the label. */
  function Display(d: Entity): (s: string)
    ensures s != ""
    ensures Truthy(d.value) ==> s == d.value.value
    ensures !Truthy(d.value) ==> s[0] == '@' && s[1..] == d.labelText
  {
    if Truthy(d.value) then d.value.value else "@" + d.labelText
  }

  /** The attributes `create` leaves on the chip. */
  function CreatedAttributes(d: Entity): map<string, string> {
    var base := map["class" := BLOT_CLASS, "contenteditable" := "false", "data-id" := d.id, "data-label" := d.labelText];
    var withValue := if Truthy(d.value) then base["data-value" := d.value.value] else base;
    if Truthy(d.avatarUrl) then withValue["data-avatar" := d.avatarUrl.value] else withValue
  }

  /** The children `create` appends. */
  function CreatedChildren(d: Entity): seq<Child> {
    (if Truthy(d.avatarUrl) then [Avatar(d.avatarUrl.value, d.labelText, AVATAR_CLASS)] else [])
    + [LabelSpan(LABEL_CLASS, Display(d))]
  }

  /** `MentionBlot.create`: the attributes first, then the avatar (if any), then the label span. */
  method Create(d: Entity) returns (node: Element)
    ensures fresh(node)
    ensures node.attributes == CreatedAttributes(d)
    ensures node.children == CreatedChildren(d)
  {
    node := new Element();
    var display := Display(d);
    node.SetAttribute("contenteditable", "false");
    node.SetAttribute("data-id", d.id);
    node.SetAttribute("data-label", d.labelText);
    if Truthy(d.value) {
      node.SetAttribute("data-value", d.value.value);
    }
    if Truthy(d.avatarUrl) {
      node.SetAttribute("data-avatar", d.avatarUrl.value);
    }
    if Truthy(d.avatarUrl) {
      node.AppendChild(Avatar(d.avatarUrl.value, d.labelText, AVATAR_CLASS));
    }
    node.AppendChild(LabelSpan(LABEL_CLASS, display));
  }

  /** What a created chip looks like: the identifying attributes, the optional ones, the avatar and the shown text. */
  lemma CreatedShape(d: Entity)
    ensures var attrs := CreatedAttributes(d);
      && attrs["data-id"] == d.id && attrs["data-label"] == d.labelText
      && attrs["contenteditable"] == "false"
      && ("data-value" in attrs <==> Truthy(d.value))
      && ("data-value" in attrs ==> attrs["data-value"] == d.value.value)
      && ("data-avatar" in attrs <==> Truthy(d.avatarUrl))
      && ("data-avatar" in attrs ==> attrs["data-avatar"] == d.avatarUrl.value)
    ensures var kids := CreatedChildren(d);
      && (exists k :: 0 <= k < |kids| && kids[k].Avatar?) == Truthy(d.avatarUrl)
      && TextContent(kids) == Display(d)
  {
    var kids := CreatedChildren(d);
    var span := [LabelSpan(LABEL_CLASS, Display(d))];
    assert TextContent(span) == Display(d) by {
      assert span[1..] == [];
    }
    if Truthy(d.avatarUrl) {
      assert kids == [Avatar(d.avatarUrl.value, d.labelText, AVATAR_CLASS)] + span;
      assert kids[0].Avatar? && kids[1..] == span;
      assert TextContent(kids) == "" + TextContent(span);
    } else {
      assert kids == span;
    }
  }

  /** `getAttribute(name) || fallback` */
  function AttributeOr(attributes: map<string, string>, name: string, fallback: string): string {
    if name in attributes && attributes[name] != "" then attributes[name] else fallback
  }

  /** `getAttribute(name) || undefined` */
  function OptionalAttribute(attributes: map<string, string>, name: string): (r: Option<string>)
    ensures r.Some? <==> name in attributes && attributes[name] != ""
    ensures r.Some? ==> r.value == attributes[name]
  {
    if name in attributes && attributes[name] != "" then Some(attributes[name]) else None
  }

  /**
   * `MentionBlot.value` as written: the label falls back to the chip's text
   * whenever `data-label` is falsy, an empty label included.
   */
  function ValueAsWritten(attributes: map<string, string>, children: seq<Child>): Entity {
    Entity(
      AttributeOr(attributes, "data-id", ""),
      AttributeOr(attributes, "data-label", TextContent(children)),
      OptionalAttribute(attributes, "data-value"),
      OptionalAttribute(attributes, "data-avatar"),
      None)
  }

  /** `MentionBlot.value` with the text fall-back kept for chips that carry no `data-label` at all. */
  function Value(attributes: map<string, string>, children: seq<Child>): (r: Entity)
    ensures "data-label" in attributes ==> r.labelText == attributes["data-label"]
    ensures "data-label" !in attributes ==> r.labelText == TextContent(children)
  {
    Entity(
      AttributeOr(attributes, "data-id", ""),
      if "data-label" in attributes then attributes["data-label"] else TextContent(children),
      OptionalAttribute(attributes, "data-value"),
      OptionalAttribute(attributes, "data-avatar"),
      None)
  }

  /** The entity as a chip can keep it: empty optional strings become absent and `meta` is not stored. */
  function Stored(d: Entity): Entity {
    Entity(
      d.id,
      d.labelText,
      if Truthy(d.value) then d.value else None,
      if Truthy(d.avatarUrl) then d.avatarUrl else None,
      None)
  }

  /** Reading a created chip returns its id and label exactly and its non-empty value and avatar. */
  lemma RoundTrip(d: Entity)
    ensures Value(CreatedAttributes(d), CreatedChildren(d)) == Stored(d)
  {
  }

  /** A second create/read cycle changes nothing. */
  lemma RoundTripStable(d: Entity)
    ensures var once := Value(CreatedAttributes(d), CreatedChildren(d));
      Value(CreatedAttributes(once), CreatedChildren(once)) == once
  {
    RoundTrip(d);
    RoundTrip(Stored(d));
  }

  /** The text fall-back of the code as written only differs on an empty label. */
  lemma AsWrittenAgreesOnLabels(d: Entity)
    requires d.labelText != ""
    ensures ValueAsWritten(CreatedAttributes(d), CreatedChildren(d)) == Value(CreatedAttributes(d), CreatedChildren(d))
  {
  }

  /**
   * An entity with an empty label does not survive the round trip of the
   * code as written: its label comes back as the chip's text ("@", or the
   * value), because the empty `data-label` is falsy.
   */
  lemma AsWrittenLosesEmptyLabel(d: Entity)
    requires d.labelText == ""
    ensures ValueAsWritten(CreatedAttributes(d), CreatedChildren(d)).labelText == Display(d)
    ensures ValueAsWritten(CreatedAttributes(d), CreatedChildren(d)).labelText != d.labelText
  {
    CreatedShape(d);
  }
}
