/** Random choice from a preset list. The random draw is a parameter:
    `choice` stands for `Math.floor(Math.random() * arr.length)`, taken
    modulo the length so that every natural number is a legal draw. */
module Presets {
  import opened Wrappers

  /** `getRandom`: nothing for an empty list, otherwise one of its elements. */
  function GetRandom<T>(arr: seq<T>, choice: nat): (r: Option<T>)
    ensures r.None? <==> |arr| == 0
    ensures r.Some? ==> r.value in arr
  {
    if |arr| == 0 then None else Some(arr[choice % |arr|])
  }

  /** No preset is out of reach: every element of the list is the result of some draw. */
  lemma EveryPresetReachable<T>(arr: seq<T>)
    ensures forall x :: x in arr ==> exists choice: nat :: GetRandom(arr, choice) == Some(x)
  {
    forall x | x in arr
      ensures exists choice: nat :: GetRandom(arr, choice) == Some(x)
    {
      var i :| 0 <= i < |arr| && arr[i] == x;
      assert GetRandom(arr, i) == Some(x);
    }
  }
}
