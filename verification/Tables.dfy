/** The compacting removal all fixed-size tables of the program share. */
module Tables {

  /** Removes element `i` by moving the last one into its place. */
  function SwapRemove<T>(s: seq<T>, i: nat): (r: seq<T>)
    requires i < |s|
    ensures |r| == |s| - 1
  {
    if i == |s| - 1 then s[..i] else s[i := s[|s| - 1]][..|s| - 1]
  }
}
