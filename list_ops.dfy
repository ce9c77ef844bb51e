/** The list edits the settings screen and its view model perform on items and checklists. */
module ListOps {

  /**
   * `filterIndexed { j, _ -> j != index }`: every element except the one at `index`, in order.
   * An index past the end removes nothing.
   */
  function RemoveAt<T>(s: seq<T>, index: nat): (r: seq<T>)
    ensures index < |s| ==> |r| == |s| - 1
    ensures index >= |s| ==> r == s
    ensures forall j :: 0 <= j < index && j < |r| ==> r[j] == s[j]
    ensures forall j :: index <= j < |r| ==> r[j] == s[j + 1]
    ensures index < |s| ==> multiset(r) + multiset{s[index]} == multiset(s)
    decreases |s|
  {
    if s == [] then []
    else
      assert s == [s[0]] + s[1..];
      if index == 0 then s[1..] else [s[0]] + RemoveAt(s[1..], index - 1)
  }

  /** Exchanges the elements at `i` and `i + 1` through a temporary. */
  function SwapAdjacent<T>(s: seq<T>, i: nat): (r: seq<T>)
    requires i + 1 < |s|
    ensures |r| == |s|
    ensures r[i] == s[i + 1] && r[i + 1] == s[i]
    ensures forall j :: 0 <= j < |s| && j != i && j != i + 1 ==> r[j] == s[j]
    ensures multiset(r) == multiset(s)
  {
    var current := s[i];
    s[i := s[i + 1]][i + 1 := current]
  }

  /** Swapping the same pair twice restores the list. */
  lemma SwapAdjacentInvolution<T>(s: seq<T>, i: nat)
    requires i + 1 < |s|
    ensures SwapAdjacent(SwapAdjacent(s, i), i) == s
  {
    var t := SwapAdjacent(SwapAdjacent(s, i), i);
    assert forall j :: 0 <= j < |s| ==> t[j] == s[j];
  }
}
