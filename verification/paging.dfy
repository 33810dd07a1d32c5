/** `Skip((page - 1) * pageSize).Take(pageSize)`, the paging both listings use. */
module Paging {

  /** LINQ `Skip`: a count at or below zero skips nothing. */
  function Skip<T>(s: seq<T>, count: int): (r: seq<T>)
    ensures count <= 0 ==> r == s
    ensures 0 <= count <= |s| ==> r == s[count..]
    ensures |s| <= count ==> r == []
  {
    if count <= 0 then s else if count >= |s| then [] else s[count..]
  }

  /** LINQ `Take`: a count at or below zero takes nothing. */
  function Take<T>(s: seq<T>, count: int): (r: seq<T>)
    ensures count <= 0 ==> r == []
    ensures 0 <= count <= |s| ==> r == s[..count]
    ensures |s| <= count ==> r == s
  {
    if count <= 0 then [] else if count >= |s| then s else s[..count]
  }

  /** The index of the first element of a page; negative offsets skip nothing. */
  function PageStart(page: int, pageSize: int): (start: nat)
    ensures (page - 1) * pageSize <= 0 ==> start == 0
    ensures 0 <= (page - 1) * pageSize ==> start == (page - 1) * pageSize
  {
    if (page - 1) * pageSize <= 0 then 0 else (page - 1) * pageSize
  }

  function Min(a: int, b: int): int { if a <= b then a else b }

  function Max(a: int, b: int): int { if a <= b then b else a }

  /** Page `page` (counted from 1) of `pageSize` elements. */
  function Page<T>(s: seq<T>, page: int, pageSize: int): (r: seq<T>)
    ensures pageSize <= 0 ==> r == []
    ensures 0 < pageSize ==> |r| <= pageSize
    ensures r != [] ==> PageStart(page, pageSize) + |r| <= |s|
    ensures forall i :: 0 <= i < |r| ==> r[i] == s[PageStart(page, pageSize) + i]
    ensures forall x :: x in r ==> x in s
    ensures 0 < pageSize ==> |r| == Min(pageSize, Max(0, |s| - PageStart(page, pageSize)))
  {
    Take(Skip(s, (page - 1) * pageSize), pageSize)
  }

  /** Every element is on exactly the page its index says: element k is at
      position k % pageSize of page k / pageSize + 1. */
  lemma {:induction false} PageCovers<T>(s: seq<T>, k: int, pageSize: int)
    requires 0 <= k < |s| && 0 < pageSize
    ensures var p := Page(s, k / pageSize + 1, pageSize);
            k % pageSize < |p| && p[k % pageSize] == s[k]
  {
    var page := k / pageSize + 1;
    assert (page - 1) * pageSize == (k / pageSize) * pageSize;
    assert k == (k / pageSize) * pageSize + k % pageSize;
    assert PageStart(page, pageSize) == (k / pageSize) * pageSize;
  }
}
