/** Results shared by every module: an optional value, and the outcome of an
    operation that either returns a value or stops with a reason. */
module Basics {
  datatype Option<+T> = None | Some(value: T)

  datatype Outcome<+T, +E> = Ok(value: T) | Stop(error: E)

  /** Characters that String.prototype.trim removes. */
  predicate IsSpace(c: char) {
    c in {' ', '\t', '\n', '\r', '\U{000B}', '\U{000C}', '\U{00A0}', '\U{1680}', '\U{2028}', '\U{2029}',
          '\U{202F}', '\U{205F}', '\U{3000}', '\U{FEFF}'}
    || '\U{2000}' <= c <= '\U{200A}'
  }

  /** The text is empty once trimmed. */
  predicate Blank(text: string) {
    forall c | c in text :: IsSpace(c)
  }

  predicate Distinct<T(==)>(items: seq<T>) {
    forall i, j | 0 <= i < j < |items| :: items[i] != items[j]
  }

  /** The items other than one. */
  function Without<T(==, !new)>(items: seq<T>, item: T): (rest: seq<T>)
    ensures forall other :: other in rest <==> other in items && other != item
  {
    if items == [] then []
    else if items[0] == item then Without(items[1..], item)
    else [items[0]] + Without(items[1..], item)
  }
}
