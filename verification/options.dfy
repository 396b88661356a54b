module Options {
  datatype Option<+T> = None | Some(value: T)
}

module Texts {
  /** Unicode white space, by code point. */
  predicate Space(c: char) {
    var n := c as int;
    || 0x09 <= n <= 0x0D || n == 0x20 || n == 0x85 || n == 0xA0 || n == 0x1680 || 0x2000 <= n <= 0x200A
    || n == 0x2028 || n == 0x2029 || n == 0x202F || n == 0x205F || n == 0x3000
  }

  /** Nothing is left when white space is trimmed. */
  predicate Blank(text: string) {
    forall i :: 0 <= i < |text| ==> Space(text[i])
  }
}
