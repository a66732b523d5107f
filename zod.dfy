/** The few zod checks the client's forms use, each returning the messages
    of the issues it finds so that a form's issues are their concatenation
    in field order. */
module Zod {
  import opened Wrappers

  /** `z.string().min(n, message)`. */
  function MinLength(s: string, n: nat, message: string): (issues: seq<string>)
    ensures issues == [] <==> |s| >= n
    ensures issues != [] ==> issues == [message]
  {
    if |s| >= n then [] else [message]
  }

  /** `z.coerce.number().positive().optional()` on a value that is a number or absent. */
  predicate PositiveOrAbsent(n: Option<int>)
  {
    n.None? || n.value > 0
  }

  /** `z.enum(values).optional()`. */
  predicate InOrAbsent(v: Option<string>, values: set<string>)
  {
    v.None? || v.value in values
  }
}
