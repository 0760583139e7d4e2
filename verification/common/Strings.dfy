/** Strings of which the empty one stands for none. */
module Strings {
  function FirstNonEmpty(a: string, b: string): string {
    if a != "" then a else b
  }
}
