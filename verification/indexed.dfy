/** Removal of one element by position, the way the story forms do it:
    `xs.filter((_, i) => i !== index)`. */
module Indexed {

  /** The elements of `s` whose position, counted from `start`, differs from
      `index` -- a transliteration of the filter callback walking the array. */
  function KeepOthers<T>(s: seq<T>, index: int, start: int): (r: seq<T>)
    decreases |s|
  {
    if |s| == 0 then []
    else (if start != index then [s[0]] else []) + KeepOthers(s[1..], index, start + 1)
  }

  /** Filtering by position drops exactly the element at `index - start` when
      that position exists, and nothing otherwise. */
  lemma {:induction false} KeepOthersIsSlice<T>(s: seq<T>, index: int, start: int)
    ensures start <= index < start + |s| ==>
              KeepOthers(s, index, start) == s[..index - start] + s[index - start + 1..]
    ensures !(start <= index < start + |s|) ==> KeepOthers(s, index, start) == s
    decreases |s|
  {
    if |s| == 0 {
    } else {
      KeepOthersIsSlice(s[1..], index, start + 1);
      if start == index {
        assert s[1..] == s[index - start + 1..];
      } else if start < index < start + |s| {
        var k := index - start;
        assert s[1..][..k - 1] + s[1..][k..] == s[1..k] + s[k + 1..];
        assert [s[0]] + s[1..k] == s[..k];
      } else {
        assert [s[0]] + s[1..] == s;
      }
    }
  }

  /** `xs.filter((_, i) => i !== index)`: the element at `index` is removed
      and later ones shift down; an index outside the sequence -- negative or
      too large -- leaves it as it was. */
  function RemoveAt<T>(s: seq<T>, index: int): (r: seq<T>)
    ensures 0 <= index < |s| ==> r == s[..index] + s[index + 1..]
    ensures 0 <= index < |s| ==> |r| == |s| - 1
    ensures 0 <= index < |s| ==>
              (forall k :: 0 <= k < index ==> r[k] == s[k]) &&
              (forall k :: index <= k < |r| ==> r[k] == s[k + 1])
    ensures !(0 <= index < |s|) ==> r == s
  {
    KeepOthersIsSlice(s, index, 0);
    KeepOthers(s, index, 0)
  }
}
