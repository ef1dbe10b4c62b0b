/** The regular-expression library the policy relies on (Go's `regexp`),
    kept uninterpreted: the model never looks inside compilation or matching,
    it only receives them as functions. */
module Regex {

  /** `compiles(p)`: `regexp.Compile(p)` returns no error.
      `compileError(p)`: the text of the error it returns when it does not.
      `matches(p, v)`: the compiled form of `p` finds a match somewhere in
      `v` (an unanchored search, as `Regexp.Match` performs). */
  datatype Engine = Engine(
    compiles: string -> bool,
    compileError: string -> string,
    matches: (string, string) -> bool)
}
