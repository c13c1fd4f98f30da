/** The suggestion record shared by the mention engine and the mention blot. */
module MentionTypes {
  import opened Wrappers

  /**
   * `{ id, label, value?, avatarUrl?, meta? }` (`label` is a reserved word here: the field is `labelText`).
   * An absent optional field is `None`;
   * an empty string is kept as `Some("")`, as JavaScript keeps `''` apart from `undefined`.
   */
  datatype Entity = Entity(
    id: string,
    labelText: string,
    value: Option<string>,
    avatarUrl: Option<string>,
    meta: Option<map<string, string>>)

  /** JavaScript truthiness of an optional string field: present and non-empty. */
  predicate Truthy(s: Option<string>) {
    s.Some? && s.value != ""
  }
}
