/** Values shared by the page, the photo input, the style grid and the server actions. */
module Values {

  /** A JavaScript value that may be `null` or `undefined` (None) or present (Some). */
  datatype Option<+T> = None | Some(value: T)

  /**
   * JavaScript truthiness of a `string | null` value: `null`, `undefined`
   * and the empty string are falsy, every other string is truthy.
   */
  predicate Truthy(s: Option<string>)
  {
    s.Some? && s.value != ""
  }

  /** JavaScript `a || b` on two `string | null` values. */
  function Or(a: Option<string>, b: Option<string>): (r: Option<string>)
    ensures Truthy(a) ==> r == a
    ensures !Truthy(a) ==> r == b
    ensures Truthy(r) <==> Truthy(a) || Truthy(b)
  {
    if Truthy(a) then a else b
  }

  /**
   * One entry of the style catalogue (`ArtStyle` of the catalogue module,
   * whose contents are not part of this model).
   */
  datatype ArtStyle = ArtStyle(id: string, name: string, category: string, prompt: string, usageCount: int)
}
