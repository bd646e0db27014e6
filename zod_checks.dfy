/**
 * The part of zod's string validation the form schemas use. A check that
 * fails contributes one issue, carrying the field it belongs to and the
 * message the schema gave; checks on the same field are reported in the order
 * they are chained, and every field is checked even when an earlier one
 * failed. String lengths count characters.
 */
module ZodChecks {

  /** A validation issue: the field it is attached to and its message. */
  datatype Issue<Field> = Issue(path: Field, message: string)

  /** `.min(n, message)`: an issue when `s` is shorter than `n`. */
  function MinLength<Field>(path: Field, s: string, n: nat, message: string): (issues: seq<Issue<Field>>)
    ensures issues == [] <==> |s| >= n
    ensures issues != [] ==> issues == [Issue(path, message)]
  {
    if |s| < n then [Issue(path, message)] else []
  }

  /** `.max(n, message)`: an issue when `s` is longer than `n`. */
  function MaxLength<Field>(path: Field, s: string, n: nat, message: string): (issues: seq<Issue<Field>>)
    ensures issues == [] <==> |s| <= n
    ensures issues != [] ==> issues == [Issue(path, message)]
  {
    if |s| > n then [Issue(path, message)] else []
  }

  /** `.email(message)`, with zod's own email test passed in as `isEmail`. */
  function EmailCheck<Field>(path: Field, s: string, isEmail: string -> bool, message: string): (issues: seq<Issue<Field>>)
    ensures issues == [] <==> isEmail(s)
    ensures issues != [] ==> issues == [Issue(path, message)]
  {
    if isEmail(s) then [] else [Issue(path, message)]
  }
}
