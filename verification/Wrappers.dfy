/** The optional value, JavaScript's white space and one fact about set sizes, which several modules share. */
module Wrappers {
  datatype Option<+T> = None | Some(value: T)

  /** `\s` in a regular expression, which is also what `trim` removes. */
  predicate JsSpace(c: char) {
    var n := c as int;
    c == ' ' || 9 <= n <= 13 || n == 0xa0 || n == 0x1680 || 0x2000 <= n <= 0x200a || n == 0x2028 || n == 0x2029
    || n == 0x202f || n == 0x205f || n == 0x3000 || n == 0xfeff
  }

  lemma {:induction false} SubsetSize<T>(a: set<T>, b: set<T>)
    requires a <= b
    ensures |a| <= |b|
    decreases |a|
  {
    if a != {} {
      var x :| x in a;
      SubsetSize(a - {x}, b - {x});
    }
  }
}
