/**
 * The two std::string searches the interpreter relies on:
 * `find_first_of` (JUMP) and `find_first_not_of` (the digit check).
 * `None` stands for `npos`.
 */
module Strings {
  import opened Wrappers

  /** First position at or after `from` whose character is in `chars`. */
  function FindFirstOf(s: string, chars: set<char>, from: nat): (r: Option<nat>)
    ensures r.Some? ==> from <= r.value < |s| && s[r.value] in chars
    ensures r.Some? ==> forall k :: from <= k < r.value ==> s[k] !in chars
    ensures r.None? ==> forall k :: from <= k < |s| ==> s[k] !in chars
    decreases |s| - from
  {
    if from >= |s| then None
    else if s[from] in chars then Some(from)
    else FindFirstOf(s, chars, from + 1)
  }

  /** First position at or after `from` whose character is not in `chars`. */
  function FindFirstNotOf(s: string, chars: set<char>, from: nat): (r: Option<nat>)
    ensures r.Some? ==> from <= r.value < |s| && s[r.value] !in chars
    ensures r.Some? ==> forall k :: from <= k < r.value ==> s[k] in chars
    ensures r.None? ==> forall k :: from <= k < |s| ==> s[k] in chars
    decreases |s| - from
  {
    if from >= |s| then None
    else if s[from] !in chars then Some(from)
    else FindFirstNotOf(s, chars, from + 1)
  }
}
