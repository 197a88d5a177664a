/** What the models share: optional values, and lists of numbers without repetition. */
module Common {
  datatype Option<+T> = None | Some(value: T)

  ghost predicate Distinct(s: seq<int>) {
    forall i, j :: 0 <= i < j < |s| ==> s[i] != s[j]
  }
}
