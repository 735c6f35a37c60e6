/** Values shared by the finders: an optional value, the record of one
    discovered pattern, and the per-password results that finders append to. */
module Patterns {

  datatype Option<T> = None | Some(value: T)

  /** One discovered match: where it starts in the password, how many
      characters it covers, the text it covers, its search-space size (the
      cost), the kind of pattern (its name) and the finder or layout that
      produced it (its classification). The human-readable description of
      the original record is not modelled. */
  datatype PasswordPattern = PasswordPattern(
    startIndex: int,
    length: int,
    matchString: string,
    cost: int,
    name: string,
    classification: string)

  /** The results of analysing one password: the password itself, fixed for
      the whole analysis, and the candidate patterns reported so far, in the
      order in which they were reported. */
  class PasswordResults {
    const password: string
    var patterns: seq<PasswordPattern>

    constructor (password: string)
      ensures this.password == password && patterns == []
    {
      this.password := password;
      patterns := [];
    }

    /** Records one more candidate pattern. */
    method FoundPattern(p: PasswordPattern)
      modifies this
      ensures patterns == old(patterns) + [p]
    {
      patterns := patterns + [p];
    }
  }
}
