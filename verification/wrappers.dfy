/** Small datatypes shared by every stage of the model. */
module Wrappers {

  /** A value that may be absent: Python's `None` versus a present value. */
  datatype Option<+T> = None | Some(value: T)

  /**
   * One invocation of an external tool (`subprocess.check_output`): either it
   * failed (a non-zero exit or any other exception) or it printed `text`.
   */
  datatype ToolRun = Failed | Output(text: string)

  /** No element occurs twice. */
  predicate Distinct<T(==)>(s: seq<T>) {
    forall i, j :: 0 <= i < j < |s| ==> s[i] != s[j]
  }
}
